/**
 The local path of the CLI's restore: find the key, verify, decrypt, decompress, restore; and remove every
 temporary file on every exit.
 */
module RestoreUseCase {
  import opened Wrappers
  import opened Codecs
  import opened DumpPipeline
  import opened RestoreWorker

  type Path = string

  class FileSystem {
    var files: map<Path, Bytes>

    constructor (files: map<Path, Bytes>)
      ensures this.files == files
    {
      this.files := files;
    }
  }

  datatype UseCaseError =
    | NoSource | SourceMissing | BackupNotFound | LocationMissing | DownloadFailed | WrongChecksum | NoKeyGiven | CannotDecrypt | CannotDecompress
    | NotConnected | AdapterFailed

  datatype Answer = DryRunPassed | Restored(content: Bytes)

  /** The request: `byId` if it names a backup, `given` the path it names ("" for none). `found` is what the
      repository answers for the id, `keystore` what the key manager holds for it. */
  datatype Request = Request(byId: bool, given: Path, found: Option<Row>, key: Option<Key>, keystore: Option<Key>,
                             skipChecksum: bool, dryRun: bool)

  /** The record the use case works with; without an id there is none. */
  function Record(q: Request): Option<Row> {
    if q.byId then q.found else None
  }

  /** Paths of the temporary files of one run, drawn from the clock. */
  datatype Temps = Temps(download: Path, decrypted: Path, decompressed: Path)

  /** What arrives from S3: the bytes so far, and whether the transfer completed. `located` says that the
      record has its storage location. */
  datatype Download = Download(located: bool, bytes: Bytes, complete: bool)

  /** What the outside does: the download if the artifact lives in S3, otherwise where the record says it is,
      in the order in which those places are tried; what a failing decoder leaves behind, whether a database
      is configured, and whether the adapter succeeds. */
  datatype Outside = Outside(s3: Option<Download>, recorded: seq<Path>, debris: Bytes, connected: bool, adapterWorks: bool)

  predicate NamedEncrypted(path: Path) {
    |path| >= 4 && path[|path| - 4..] == ".enc"
  }

  /** `--key` wins over the keystore; the keystore is asked only for a backup id. */
  function ChosenKey(q: Request): Option<Key> {
    if Given(q.key) then q.key
    else if q.byId && Given(q.keystore) then q.keystore
    else None
  }

  predicate TreatedAsEncrypted(q: Request, working: Path) {
    (Record(q).Some? && Record(q).value.encrypted) || NamedEncrypted(working) || Given(q.key)
  }

  predicate ChecksumFails(c: Codec, q: Request, working: Path, x: Bytes) {
    !q.skipChecksum && Record(q).Some? && Given(Record(q).value.checksum) && !TreatedAsEncrypted(q, working)
    && c.digest(x) != Record(q).value.checksum.value
  }

  /** The decryption the use case attempts: its IV and tag come from the columns `encryptionIv` and `encryptionTag`. */
  function Attempted(c: Codec, q: Request, x: Bytes): Option<Bytes>
    requires ChosenKey(q).Some?
  {
    var iv := if Record(q).Some? then OrEmpty(Record(q).value.encryptionIv) else [];
    var tag := if Record(q).Some? then OrEmpty(Record(q).value.encryptionTag) else [];
    c.decrypt(ChosenKey(q).value, iv, tag, x)
  }

  /** The bytes the decode stages produce from the artifact `x` at `working`. */
  function Decode(c: Codec, q: Request, working: Path, x: Bytes): Result<Bytes, UseCaseError> {
    if ChecksumFails(c, q, working, x) then Failure(WrongChecksum)
    else if TreatedAsEncrypted(q, working) && ChosenKey(q).None? then Failure(NoKeyGiven)
    else if TreatedAsEncrypted(q, working) && Attempted(c, q, x).None? then Failure(CannotDecrypt)
    else
      var plain := if TreatedAsEncrypted(q, working) then Attempted(c, q, x).value else x;
      match DecompressStage(c, plain)
      case Failure(_) => Failure(CannotDecompress)
      case Success(y) => Success(y)
  }

  predicate Apart(t: Temps, files: map<Path, Bytes>) {
    && t.download != "" && t.decrypted != "" && t.decompressed != ""
    && t.download != t.decrypted && t.download != t.decompressed && t.decrypted != t.decompressed
    && t.download !in files && t.decrypted !in files && t.decompressed !in files
  }

  /** Nothing that was there is gone or changed, and what is new is registered in `temps`. */
  ghost predicate OnlyAdds(before: map<Path, Bytes>, after: map<Path, Bytes>, temps: seq<Path>) {
    && (forall p :: p in before ==> p in after && after[p] == before[p])
    && (forall p :: p in after ==> p in before || p in temps)
  }

  /** Decrypt `working` into `target`, which is registered before it is written; a failure leaves debris there. */
  method DecryptTo(c: Codec, fs: FileSystem, q: Request, working: Path, target: Path, debris: Bytes)
    returns (r: Result<Path, UseCaseError>, temps: seq<Path>)
    requires working in fs.files && target !in fs.files && target != working
    modifies fs
    ensures OnlyAdds(old(fs.files), fs.files, temps) && (forall p :: p in temps ==> p == target)
    ensures r == if ChosenKey(q).None? then Failure(NoKeyGiven)
                 else if Attempted(c, q, old(fs.files)[working]).None? then Failure(CannotDecrypt)
                 else Success(target)
    ensures r.Success? ==> target in fs.files && Some(fs.files[target]) == Attempted(c, q, old(fs.files)[working])
  {
    temps := [];
    if ChosenKey(q).None? {
      return Failure(NoKeyGiven), temps;
    }
    temps := [target];
    var plain := Attempted(c, q, fs.files[working]);
    if plain.None? {
      fs.files := fs.files[target := debris];
      return Failure(CannotDecrypt), temps;
    }
    fs.files := fs.files[target := plain.value];
    r := Success(target);
  }

  /** Decompress `working` into `target` if it looks zipped. */
  method DecompressTo(c: Codec, fs: FileSystem, working: Path, target: Path, debris: Bytes)
    returns (r: Result<Path, UseCaseError>, temps: seq<Path>)
    requires working in fs.files && target !in fs.files && target != working
    modifies fs
    ensures OnlyAdds(old(fs.files), fs.files, temps) && (forall p :: p in temps ==> p == target)
    ensures r.Failure? <==> DecompressStage(c, old(fs.files)[working]).Failure?
    ensures r.Failure? ==> r == Failure(CannotDecompress)
    ensures r.Success? ==> r.value in fs.files && DecompressStage(c, old(fs.files)[working]) == Success(fs.files[r.value])
  {
    temps := [];
    if !Gzipped(fs.files[working]) {
      return Success(working), temps;
    }
    temps := [target];
    var unzipped := c.gunzip(fs.files[working]);
    if unzipped.None? {
      fs.files := fs.files[target := debris];
      return Failure(CannotDecompress), temps;
    }
    fs.files := fs.files[target := unzipped.value];
    r := Success(target);
  }

  /** Verify, decrypt, decompress. */
  method DecodeStages(c: Codec, fs: FileSystem, q: Request, t: Temps, working: Path, debris: Bytes)
    returns (r: Result<Path, UseCaseError>, temps: seq<Path>)
    requires working in fs.files && t.decrypted !in fs.files && t.decompressed !in fs.files
    requires t.decrypted != t.decompressed
    modifies fs
    ensures OnlyAdds(old(fs.files), fs.files, temps)
    ensures forall p :: p in temps ==> p == t.decrypted || p == t.decompressed
    ensures r.Failure? ==> Decode(c, q, working, old(fs.files)[working]) == Failure(r.error)
    ensures r.Success? ==> r.value in fs.files && Decode(c, q, working, old(fs.files)[working]) == Success(fs.files[r.value])
  {
    temps := [];
    var current := working;
    if ChecksumFails(c, q, working, fs.files[working]) {
      return Failure(WrongChecksum), temps;
    }
    if TreatedAsEncrypted(q, working) {
      var decrypted;
      decrypted, temps := DecryptTo(c, fs, q, working, t.decrypted, debris);
      if decrypted.Failure? {
        return Failure(decrypted.error), temps;
      }
      current := decrypted.value;
    }
    ghost var middle := fs.files;
    var more;
    r, more := DecompressTo(c, fs, current, t.decompressed, debris);
    assert OnlyAdds(middle, fs.files, more);
    temps := temps + more;
  }

  predicate Exists(files: map<Path, Bytes>, p: Path) {
    p != "" && p in files
  }

  /** The first of the recorded places that exists, otherwise the first of them. */
  function Resolved(recorded: seq<Path>, files: map<Path, Bytes>): Path {
    if |recorded| == 0 then ""
    else if Exists(files, recorded[0]) then recorded[0]
    else
      var later := Resolved(recorded[1..], files);
      if Exists(files, later) then later else recorded[0]
  }

  /** The artifact's place and content. A path that is given has to exist, whatever else is; an S3 backup is
      downloaded all the same, and only a local one without a given path is looked for where its record says. */
  function Source(q: Request, t: Temps, o: Outside, files: map<Path, Bytes>): Result<(Path, Bytes), UseCaseError> {
    if !q.byId && q.given == "" then Failure(NoSource)
    else if q.given != "" && q.given !in files then Failure(SourceMissing)
    else if q.byId && q.found.None? then Failure(BackupNotFound)
    else if q.byId && o.s3.Some? then
      if !o.s3.value.located then Failure(LocationMissing)
      else if !o.s3.value.complete then Failure(DownloadFailed)
      else Success((t.download, o.s3.value.bytes))
    else
      var p := if q.given != "" then q.given else Resolved(o.recorded, files);
      if Exists(files, p) then Success((p, files[p])) else Failure(SourceMissing)
  }

  function Outcome(q: Request, o: Outside, decoded: Result<Bytes, UseCaseError>): Result<Answer, UseCaseError> {
    match decoded
    case Failure(e) => Failure(e)
    case Success(y) =>
      if q.dryRun then Success(DryRunPassed)
      else if !o.connected then Failure(NotConnected)
      else if o.adapterWorks then Success(Restored(y)) else Failure(AdapterFailed)
  }

  method Resolve(recorded: seq<Path>, fs: FileSystem) returns (p: Path)
    ensures p == Resolved(recorded, fs.files)
  {
    p := if |recorded| > 0 then recorded[0] else "";
    for i := 0 to |recorded|
      invariant p == if |recorded| > 0 then recorded[0] else ""
      invariant Exists(fs.files, Resolved(recorded, fs.files)) ==> Resolved(recorded, fs.files) == Resolved(recorded[i..], fs.files)
      invariant !Exists(fs.files, Resolved(recorded, fs.files)) ==> !Exists(fs.files, Resolved(recorded[i..], fs.files))
      invariant Resolved(recorded, fs.files) == p || Exists(fs.files, Resolved(recorded, fs.files))
    {
      if Exists(fs.files, recorded[i]) {
        return recorded[i];
      }
      assert recorded[i..][1..] == recorded[i + 1..];
    }
  }

  /** Everything inside the try block. */
  method RunStages(c: Codec, fs: FileSystem, q: Request, t: Temps, o: Outside)
    returns (r: Result<Answer, UseCaseError>, temps: seq<Path>)
    requires Apart(t, fs.files)
    requires (q.byId || q.given != "") && (q.given != "" ==> q.given in fs.files)
    modifies fs
    ensures OnlyAdds(old(fs.files), fs.files, temps)
    ensures forall p :: p in temps ==> p !in old(fs.files)
    ensures r == match Source(q, t, o, old(fs.files))
                 case Failure(e) => Failure(e)
                 case Success(source) => Outcome(q, o, Decode(c, q, source.0, source.1))
  {
    temps := [];
    var working := q.given;
    if q.byId {
      if q.found.None? {
        return Failure(BackupNotFound), temps;
      }
      if o.s3.Some? {
        if !o.s3.value.located {
          return Failure(LocationMissing), temps;
        }
        temps := temps + [t.download];
        fs.files := fs.files[t.download := o.s3.value.bytes];
        if !o.s3.value.complete {
          return Failure(DownloadFailed), temps;
        }
        working := t.download;
      } else if working == "" {
        working := Resolve(o.recorded, fs);
      }
    }
    if working == "" || working !in fs.files {
      return Failure(SourceMissing), temps;
    }
    ghost var middle := fs.files;
    var decoded, more := DecodeStages(c, fs, q, t, working, o.debris);
    assert OnlyAdds(middle, fs.files, more);
    temps := temps + more;
    if decoded.Failure? {
      return Failure(decoded.error), temps;
    }
    if q.dryRun {
      return Success(DryRunPassed), temps;
    }
    if !o.connected {
      return Failure(NotConnected), temps;
    }
    if !o.adapterWorks {
      return Failure(AdapterFailed), temps;
    }
    r := Success(Restored(fs.files[decoded.value]));
  }

  /** What a request ends with. */
  function Restoration(c: Codec, q: Request, t: Temps, o: Outside, files: map<Path, Bytes>): Result<Answer, UseCaseError> {
    match Source(q, t, o, files)
    case Failure(e) => Failure(e)
    case Success(source) => Outcome(q, o, Decode(c, q, source.0, source.1))
  }

  /** The whole use case. Whatever happened, the file system is afterwards exactly what it was before. */
  method Execute(c: Codec, fs: FileSystem, q: Request, t: Temps, o: Outside) returns (r: Result<Answer, UseCaseError>)
    requires Apart(t, fs.files)
    modifies fs
    ensures fs.files == old(fs.files)
    ensures r == Restoration(c, q, t, o, old(fs.files))
  {
    if !q.byId && q.given == "" {
      return Failure(NoSource);
    }
    if q.given != "" && q.given !in fs.files {
      return Failure(SourceMissing);
    }
    var temps;
    r, temps := RunStages(c, fs, q, t, o);
    for i := 0 to |temps|
      invariant OnlyAdds(old(fs.files), fs.files, temps[i..])
    {
      assert forall p :: p in temps[i..] ==> p == temps[i] || p in temps[i + 1..];
      if temps[i] in fs.files {
        fs.files := fs.files - {temps[i]};
      }
    }
    assert fs.files.Keys == old(fs.files).Keys;
  }

  // ---------- Where the artifact comes from ----------

  /** The k-th recorded place is the first that exists. */
  predicate FirstAt(recorded: seq<Path>, files: map<Path, Bytes>, k: nat) {
    && k < |recorded| && recorded[k] != "" && recorded[k] in files
    && forall j :: 0 <= j < k ==> recorded[j] == "" || recorded[j] !in files
  }

  lemma {:induction false} ResolvedIsFirst(recorded: seq<Path>, files: map<Path, Bytes>, k: nat)
    requires FirstAt(recorded, files, k)
    ensures Resolved(recorded, files) == recorded[k]
    decreases k
  {
    if k > 0 {
      assert FirstAt(recorded[1..], files, k - 1);
      ResolvedIsFirst(recorded[1..], files, k - 1);
    }
  }

  lemma {:induction false} SomeIsFirst(recorded: seq<Path>, files: map<Path, Bytes>) returns (k: nat)
    requires Exists(files, Resolved(recorded, files))
    ensures FirstAt(recorded, files, k)
    decreases |recorded|
  {
    if Exists(files, recorded[0]) { return 0; }
    k := SomeIsFirst(recorded[1..], files);
    k := k + 1;
  }

  /** The artifact is `x` at `p`: downloaded, for an S3 backup, whatever path is given; otherwise at the given path, or,
      for a backup without one, at the first of its recorded places that exists. */
  ghost predicate ArtifactIs(q: Request, t: Temps, o: Outside, files: map<Path, Bytes>, p: Path, x: Bytes) {
    && (q.given == "" || q.given in files) && (q.byId ==> q.found.Some?)
    && if q.byId && o.s3.Some? then o.s3.value == Download(true, x, true) && p == t.download
       else p in files && files[p] == x &&
            if q.given != "" then p == q.given else q.byId && exists k: nat :: FirstAt(o.recorded, files, k) && o.recorded[k] == p
  }

  /** That is where it is taken from; and every other request is refused, by the first of these that applies. */
  lemma SourceExactly(q: Request, t: Temps, o: Outside, files: map<Path, Bytes>)
    ensures match Source(q, t, o, files)
            case Success(source) => ArtifactIs(q, t, o, files, source.0, source.1)
            case Failure(e) => forall p, x :: !ArtifactIs(q, t, o, files, p, x)
    ensures Source(q, t, o, files) == Failure(NoSource) <==> !q.byId && q.given == ""
    ensures q.given != "" && q.given !in files ==> Source(q, t, o, files) == Failure(SourceMissing)
    ensures q.given == "" || q.given in files ==>
              var r := Source(q, t, o, files);
              && (r == Failure(BackupNotFound) <==> q.byId && q.found.None?)
              && (r == Failure(LocationMissing) <==> q.byId && q.found.Some? && o.s3.Some? && !o.s3.value.located)
              && (r == Failure(DownloadFailed) <==> q.byId && q.found.Some? && o.s3.Some? && o.s3.value.located && !o.s3.value.complete)
              && (r == Failure(SourceMissing) <==> q.byId && q.found.Some? && o.s3.None? && q.given == "" && forall k: nat :: !FirstAt(o.recorded, files, k))
  {
    forall k: nat | FirstAt(o.recorded, files, k) ensures Resolved(o.recorded, files) == o.recorded[k] {
      ResolvedIsFirst(o.recorded, files, k);
    }
    if Exists(files, Resolved(o.recorded, files)) {
      var k := SomeIsFirst(o.recorded, files);
      ResolvedIsFirst(o.recorded, files, k);
    }
  }

  // ---------- What is refused, and what is restored ----------

  /** The row says that the backup is encrypted, or its file name does, or a key is passed. */
  predicate LooksEncrypted(q: Request, p: Path) {
    || (q.byId && q.found.Some? && q.found.value.encrypted)
    || (|p| >= 4 && p[|p| - 4..] == ".enc")
    || (q.key.Some? && q.key.value != "")
  }

  /** A wrong digest is refused only if nothing looks encrypted; what looks encrypted is refused without a key; a key for
      a named backup may come from the keystore. */
  lemma DecodeRefusesExactlyWhen(c: Codec, q: Request, p: Path, x: Bytes)
    ensures Decode(c, q, p, x) == Failure(WrongChecksum)
            <==> && !q.skipChecksum && q.byId && q.found.Some? && !LooksEncrypted(q, p)
                 && q.found.value.checksum.Some? && q.found.value.checksum != Some("") && Some(c.digest(x)) != q.found.value.checksum
    ensures Decode(c, q, p, x) == Failure(NoKeyGiven)
            <==> && LooksEncrypted(q, p) && (q.key == None || q.key == Some(""))
                 && (!q.byId || q.keystore == None || q.keystore == Some(""))
    ensures Decode(c, q, p, x) == Failure(CannotDecrypt) ==> LooksEncrypted(q, p)
    ensures Decode(c, q, p, x).Failure? ==> Decode(c, q, p, x).error in {WrongChecksum, NoKeyGiven, CannotDecrypt, CannotDecompress}
  {
  }

  /** The database receives the decoded bytes exactly if there are any, this is no dry run, a database is connected and
      its adapter succeeds; a dry run passes exactly if there are any. */
  lemma RestoredExactlyWhen(c: Codec, q: Request, t: Temps, o: Outside, files: map<Path, Bytes>, y: Bytes)
    ensures Restoration(c, q, t, o, files) == Success(Restored(y))
            <==> && !q.dryRun && o.connected && o.adapterWorks
                 && exists p, x :: ArtifactIs(q, t, o, files, p, x) && Decode(c, q, p, x) == Success(y)
    ensures Restoration(c, q, t, o, files) == Success(DryRunPassed)
            <==> q.dryRun && exists p, x :: ArtifactIs(q, t, o, files, p, x) && Decode(c, q, p, x).Success?
    ensures Restoration(c, q, t, o, files) == Failure(NotConnected)
            <==> !q.dryRun && !o.connected && exists p, x :: ArtifactIs(q, t, o, files, p, x) && Decode(c, q, p, x).Success?
  {
    SourceExactly(q, t, o, files);
    var source := Source(q, t, o, files);
    if source.Success? {
      DecodeRefusesExactlyWhen(c, q, source.value.0, source.value.1);
      forall p, x | ArtifactIs(q, t, o, files, p, x) ensures p == source.value.0 && x == source.value.1 {
        OneArtifact(q, t, o, files, p, x, source.value.0, source.value.1);
      }
    }
  }

  lemma OneArtifact(q: Request, t: Temps, o: Outside, files: map<Path, Bytes>, p: Path, x: Bytes, p': Path, x': Bytes)
    requires ArtifactIs(q, t, o, files, p, x) && ArtifactIs(q, t, o, files, p', x')
    ensures p == p' && x == x'
  {
    forall k: nat | FirstAt(o.recorded, files, k) ensures Resolved(o.recorded, files) == o.recorded[k] {
      ResolvedIsFirst(o.recorded, files, k);
    }
  }

  /** A row written by the backup worker has no `encryptionIv`: with whatever key, the use case cannot decrypt
      what the worker's pipeline encrypted. */
  lemma WorkerRowsCannotBeDecryptedHere(c: Codec, options: Options, iv: Bytes, dump: Bytes, q: Request, working: Path)
    requires Lawful(c) && options.encrypt && KeyError(options).None?
    requires Record(q) == Some(Produced(c, options, iv, dump).row)
    ensures Decode(c, q, working, Produced(c, options, iv, dump).file) ==
            if ChosenKey(q).None? then Failure(NoKeyGiven) else Failure(CannotDecrypt)
  {
    var b := Produced(c, options, iv, dump);
    if ChosenKey(q).Some? {
      assert c.decrypt(ChosenKey(q).value, [], [], b.file).None?;
    }
  }

  /** With the IV and tag in those columns and the right key, from `--key` or from the keystore, the decode
      stages give back the dump, and no checksum is compared. */
  lemma RowsWithIvColumnsDecode(c: Codec, options: Options, iv: Bytes, dump: Bytes, q: Request, working: Path)
    requires Lawful(c) && options.encrypt && KeyError(options).None? && |iv| == IV_LENGTH
    requires Record(q).Some? && Record(q).value.encrypted
    requires if q.key.Some? && q.key.value != "" then q.key == options.key else q.keystore == options.key
    requires Record(q).value.encryptionIv == Some(iv)
    requires Record(q).value.encryptionTag == Produced(c, options, iv, dump).row.tag
    ensures Decode(c, q, working, Produced(c, options, iv, dump).file) == Success(dump) <==> Recognisable(c, options, dump)
  {
    var z := Packed(c, options, dump);
    var e := c.encrypt(options.key.value, iv, z);
    assert c.decrypt(options.key.value, iv, e.tag, e.cipher) == Some(z);
    DecompressUndoesPacking(c, options, dump);
  }

  /** Unencrypted rows round-trip with verification on, as long as nothing makes the artifact look encrypted. */
  lemma UnencryptedRowsDecode(c: Codec, options: Options, iv: Bytes, dump: Bytes, q: Request, working: Path)
    requires Lawful(c) && !options.encrypt
    requires Record(q) == Some(Produced(c, options, iv, dump).row) && !Given(q.key) && !NamedEncrypted(working)
    ensures Decode(c, q, working, Produced(c, options, iv, dump).file) == Success(dump) <==> Recognisable(c, options, dump)
  {
    DecompressUndoesPacking(c, options, dump);
  }
}
