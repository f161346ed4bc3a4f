/**
 The streaming backup of a database dump: optional gzip, checksum, optional AES-256-GCM, in that order,
 over any division of the stream into chunks.
 */
module DumpPipeline {
  import opened Wrappers
  import opened Codecs

  const KEY_LENGTH := 64

  function Concat(chunks: seq<Bytes>): Bytes {
    if |chunks| == 0 then [] else chunks[0] + Concat(chunks[1..])
  }

  lemma {:induction false} ConcatSnoc(chunks: seq<Bytes>, last: Bytes)
    ensures Concat(chunks + [last]) == Concat(chunks) + last
    decreases |chunks|
  {
    if |chunks| == 0 {
      assert chunks + [last] == [last];
    } else {
      assert (chunks + [last])[1..] == chunks[1..] + [last];
      ConcatSnoc(chunks[1..], last);
    }
  }

  lemma ConcatPrefix(chunks: seq<Bytes>, i: nat)
    requires i < |chunks|
    ensures Concat(chunks[..i + 1]) == Concat(chunks[..i]) + chunks[i]
  {
    assert chunks[..i + 1] == chunks[..i] + [chunks[i]];
    ConcatSnoc(chunks[..i], chunks[i]);
  }

  // ---------- Transforms ----------

  class ChecksumTransform {
    const codec: Codec
    var hashed: Bytes
    var size: nat

    constructor (codec: Codec)
      ensures this.codec == codec && hashed == [] && size == 0
    {
      this.codec := codec;
      hashed, size := [], 0;
    }

    method Transform(chunk: Bytes) returns (out: Bytes)
      modifies this
      ensures hashed == old(hashed) + chunk && size == old(size) + |chunk| && out == chunk
    {
      hashed := hashed + chunk;
      size := size + |chunk|;
      out := chunk;
    }

    function GetChecksum(): Digest
      reads this
    {
      codec.digest(hashed)
    }
  }

  class EncryptionTransform {
    const codec: Codec
    const key: Key
    const iv: Bytes
    var fed: Bytes
    var tag: Option<Bytes>
    var isFinalized: bool

    constructor (codec: Codec, key: Key, iv: Bytes)
      ensures this.codec == codec && this.key == key && this.iv == iv
      ensures fed == [] && tag == None && !isFinalized
    {
      this.codec, this.key, this.iv := codec, key, iv;
      fed, tag, isFinalized := [], None, false;
    }

    /** What the stream has emitted once everything in `fed` has passed through. */
    function Emitted(): Bytes
      reads this
    {
      codec.encrypt(key, iv, fed).cipher
    }

    /** Each chunk appends its own share to the ciphertext of the whole. */
    method Transform(chunk: Bytes) returns (out: Bytes)
      requires StreamLaw(codec) && GcmLaws(codec) && |iv| == IV_LENGTH && !isFinalized
      modifies this
      ensures fed == old(fed) + chunk && Emitted() == old(Emitted()) + out
      ensures tag == old(tag) && isFinalized == old(isFinalized)
    {
      var whole := codec.encrypt(key, iv, fed + chunk).cipher;
      assert fed <= fed + chunk;
      assert |codec.encrypt(key, iv, fed).cipher| == |fed| && codec.encrypt(key, iv, fed).cipher <= whole;
      out := whole[|fed|..];
      fed := fed + chunk;
    }

    /** The end of the stream adds no bytes; it makes the tag available. */
    method Flush()
      modifies this
      ensures fed == old(fed) && isFinalized
      ensures tag == if old(isFinalized) then old(tag) else Some(codec.encrypt(key, iv, fed).tag)
    {
      if !isFinalized {
        tag := Some(codec.encrypt(key, iv, fed).tag);
        isFinalized := true;
      }
    }
  }

  // ---------- The backup ----------

  /** The columns of the backup row a restore reads. The worker stores IV and tag as `encryptionMetadata`
      (here `iv`, `tag`); the columns `encryptionIv` and `encryptionTag` are never written by it. */
  datatype Row = Row(checksum: Option<Digest>, fileSize: nat, encrypted: bool, iv: Option<Bytes>, tag: Option<Bytes>,
                     encryptionIv: Option<Bytes>, encryptionTag: Option<Bytes>)

  datatype Options = Options(compress: bool, encrypt: bool, key: Option<Key>)

  datatype BackupError = NoKey | BadKeyLength

  datatype Backup = Backup(file: Bytes, row: Row)

  /** What the checksum sees: the dump, zipped if asked for. */
  function Packed(c: Codec, options: Options, dump: Bytes): Bytes {
    if options.compress then c.gzip(dump) else dump
  }

  function KeyError(options: Options): Option<BackupError> {
    if !options.encrypt then None
    else if options.key.None? || options.key.value == "" then Some(NoKey)
    else if |options.key.value| != KEY_LENGTH then Some(BadKeyLength)
    else None
  }

  /** The artifact and row of a backup, whatever the chunks were. The checksum and the size are those of
      the bytes before encryption. */
  function Produced(c: Codec, options: Options, iv: Bytes, dump: Bytes): Backup {
    var z := Packed(c, options, dump);
    if options.encrypt && options.key.Some? then
      var e := c.encrypt(options.key.value, iv, z);
      Backup(e.cipher, Row(Some(c.digest(z)), |z|, true, Some(iv), Some(e.tag), None, None))
    else Backup(z, Row(Some(c.digest(z)), |z|, false, None, None, None, None))
  }

  /** `dump` is mongodump's output as it arrives; `zipped` is the gzip stream's output as it arrives. */
  method PerformBackup(c: Codec, options: Options, iv: Bytes, dump: seq<Bytes>, zipped: seq<Bytes>)
    returns (r: Result<Backup, BackupError>)
    requires Lawful(c) && |iv| == IV_LENGTH
    requires options.compress ==> Concat(zipped) == c.gzip(Concat(dump))
    ensures r == if KeyError(options).Some? then Failure(KeyError(options).value)
                 else Success(Produced(c, options, iv, Concat(dump)))
    ensures r == Failure(NoKey) <==> options.encrypt && (options.key == None || options.key == Some(""))
    ensures r == Failure(BadKeyLength) <==> options.encrypt && options.key.Some? && |options.key.value| !in {0, 64}
    ensures r.Success? ==> r.value.row.fileSize == |r.value.file| && (r.value.row.encrypted <==> options.encrypt)
    ensures r.Success? && !options.encrypt ==> r.value.row.checksum == Some(c.digest(r.value.file))
  {
    var encryption: Option<EncryptionTransform> := None;
    if options.encrypt {
      if options.key.None? || options.key.value == "" {
        return Failure(NoKey);
      }
      if |options.key.value| != KEY_LENGTH {
        return Failure(BadKeyLength);
      }
      var transform := new EncryptionTransform(c, options.key.value, iv);
      encryption := Some(transform);
    }
    var stream := dump;
    if options.compress {
      stream := zipped;
    }
    var checksum := new ChecksumTransform(c);
    var file: Bytes := [];
    if encryption.Some? {
      assert |c.encrypt(options.key.value, iv, []).cipher| == 0;
    }
    for i := 0 to |stream|
      invariant checksum.codec == c && checksum.hashed == Concat(stream[..i]) && checksum.size == |checksum.hashed|
      invariant fresh(checksum) && (encryption.Some? ==> fresh(encryption.value))
      invariant encryption.None? ==> file == checksum.hashed
      invariant encryption.Some? ==>
                  var t := encryption.value;
                  t.codec == c && t.key == options.key.value && t.iv == iv && !t.isFinalized && t.tag == None
                  && t.fed == checksum.hashed && file == t.Emitted()
    {
      ConcatPrefix(stream, i);
      var chunk := checksum.Transform(stream[i]);
      if encryption.Some? {
        chunk := encryption.value.Transform(chunk);
      }
      file := file + chunk;
    }
    assert stream[..|stream|] == stream;
    var ivOut: Option<Bytes> := None;
    var tagOut: Option<Bytes> := None;
    if encryption.Some? {
      encryption.value.Flush();
      if encryption.value.tag.Some? {
        ivOut, tagOut := Some(iv), encryption.value.tag;
      }
    }
    r := Success(Backup(file, Row(Some(checksum.GetChecksum()), checksum.size, options.encrypt, ivOut, tagOut, None, None)));
  }
}
