/** The queue worker that restores: checksum, decrypt, decompress, then hand the bytes to the database service. */
module RestoreWorker {
  import opened Wrappers
  import opened Codecs
  import opened DumpPipeline

  datatype RestoreError =
    | UnknownBackup | LookupThrew | S3LocationMissing | S3DownloadFailed | FileNotFound | ChecksumMismatch | KeyMissing | DecryptionFailed | DecompressionFailed

  datatype RestoreOptions = RestoreOptions(key: Option<Key>, skipChecksum: bool)

  /** What the metadata service answers for the backup id, and what S3 delivers. */
  datatype Lookup = Found(row: Row) | Unknown | Raised
  datatype Download = Delivered(content: Bytes) | NoLocation | Broken

  /** A restore job: `lookup` if it names a backup, `s3` if that lives in S3, the file at the path it names or its record
      does, and the file of the recorded name in the backup directory, each if it is there. */
  datatype RestoreJob = RestoreJob(lookup: Option<Lookup>, s3: Option<Download>, file: Option<Bytes>, candidate: Option<Bytes>)

  /** The artifact a job leads to, with its row if it names a backup. */
  function Artifact(job: RestoreJob): Result<(Option<Row>, Option<Bytes>), RestoreError> {
    match job.lookup
    case None => Success((None, job.file))
    case Some(Unknown) => Failure(UnknownBackup)
    case Some(Raised) => Failure(LookupThrew)
    case Some(Found(row)) =>
      match job.s3
      case None => Success((Some(row), if job.file.Some? then job.file else job.candidate))
      case Some(NoLocation) => Failure(S3LocationMissing)
      case Some(Broken) => Failure(S3DownloadFailed)
      case Some(Delivered(content)) => Success((Some(row), Some(content)))
  }

  predicate Given<T(==)>(x: Option<seq<T>>) {
    x.Some? && x.value != []
  }

  function OrEmpty(x: Option<Bytes>): Bytes {
    if x.Some? then x.value else []
  }

  /** The bytes the database service receives for a backup file, or the error that stops the restore. */
  function HandedOver(c: Codec, file: Option<Bytes>, row: Option<Row>, options: RestoreOptions, envKey: Option<Key>): Result<Bytes, RestoreError> {
    if file.None? then Failure(FileNotFound)
    else if row.Some? && Given(row.value.checksum) && !options.skipChecksum && c.digest(file.value) != row.value.checksum.value
    then Failure(ChecksumMismatch)
    else
      var plain :- DecryptStage(c, file.value, row, options, envKey);
      DecompressStage(c, plain)
  }

  /** A backup counts as encrypted if its row says so or the caller brought a key. */
  function DecryptStage(c: Codec, x: Bytes, row: Option<Row>, options: RestoreOptions, envKey: Option<Key>): Result<Bytes, RestoreError> {
    if !((row.Some? && row.value.encrypted) || Given(options.key)) then Success(x)
    else if !Given(options.key) && !Given(envKey) then Failure(KeyMissing)
    else
      var k := if Given(options.key) then options.key.value else envKey.value;
      var iv := if row.Some? then OrEmpty(row.value.iv) else [];
      var tag := if row.Some? then OrEmpty(row.value.tag) else [];
      var d := c.decrypt(k, iv, tag, x);
      if d.None? then Failure(DecryptionFailed) else Success(d.value)
  }

  function DecompressStage(c: Codec, x: Bytes): Result<Bytes, RestoreError> {
    if !Gzipped(x) then Success(x)
    else if c.gunzip(x).None? then Failure(DecompressionFailed)
    else Success(c.gunzip(x).value)
  }

  /** What a job ends with: the bytes it posts to the database service, or its error. */
  function Restored(c: Codec, job: RestoreJob, options: RestoreOptions, envKey: Option<Key>): Result<Bytes, RestoreError> {
    match Artifact(job)
    case Failure(e) => Failure(e)
    case Success(found) => HandedOver(c, found.1, found.0, options, envKey)
  }

  /** The whole job, with each refusal before the artifact is opened. */
  method HandleRestoreJob(c: Codec, job: RestoreJob, options: RestoreOptions, envKey: Option<Key>)
    returns (r: Result<Bytes, RestoreError>)
    ensures r == Restored(c, job, options, envKey)
    ensures r == Failure(UnknownBackup) <==> job.lookup == Some(Unknown)
    ensures r == Failure(LookupThrew) <==> job.lookup == Some(Raised)
    ensures r == Failure(S3LocationMissing) <==> NamesBackup(job) && job.s3 == Some(NoLocation)
    ensures r == Failure(S3DownloadFailed) <==> NamesBackup(job) && job.s3 == Some(Broken)
    ensures r == Failure(FileNotFound) <==>
              job.file.None? && (job.lookup.None? || (NamesBackup(job) && job.s3.None? && job.candidate.None?))
  {
    var row: Option<Row> := None;
    var file := job.file;
    if job.lookup.Some? {
      if job.lookup.value.Raised? {
        return Failure(LookupThrew);
      }
      if job.lookup.value.Unknown? {
        return Failure(UnknownBackup);
      }
      row := Some(job.lookup.value.row);
      if file.None? {
        file := job.candidate;
      }
      if job.s3.Some? {
        if job.s3.value.NoLocation? {
          return Failure(S3LocationMissing);
        }
        if job.s3.value.Broken? {
          return Failure(S3DownloadFailed);
        }
        file := Some(job.s3.value.content);
      }
    }
    r := DecodeFile(c, file, row, options, envKey);
  }

  predicate NamesBackup(job: RestoreJob) {
    job.lookup.Some? && job.lookup.value.Found?
  }

  /** The job names the backup of that row, whose artifact is `x`: in S3, whatever lies on the local disk; or at its
      path, whatever is in the backup directory; or there under the recorded name. */
  predicate LeadsTo(job: RestoreJob, row: Row, x: Bytes) {
    && job.lookup == Some(Found(row))
    && match job.s3
       case Some(download) => download == Delivered(x)
       case None => job.file == Some(x) || (job.file == None && job.candidate == Some(x))
  }

  /** Wherever the artifact lies, the record comes with it. */
  lemma PlaceDoesNotMatter(c: Codec, job: RestoreJob, row: Row, x: Bytes, options: RestoreOptions, envKey: Option<Key>)
    requires LeadsTo(job, row, x)
    ensures Restored(c, job, options, envKey) == HandedOver(c, Some(x), Some(row), options, envKey)
  {
  }

  /** With verification on, a content whose digest is not the recorded one is never handed over, from wherever it
      came; with it off, or without a recorded digest, that is never the error. */
  lemma DamageIsNoticedExactlyWhen(c: Codec, job: RestoreJob, row: Row, x: Bytes, options: RestoreOptions, envKey: Option<Key>)
    requires LeadsTo(job, row, x)
    ensures Restored(c, job, options, envKey) == Failure(ChecksumMismatch)
            <==> !options.skipChecksum && row.checksum != None && row.checksum != Some("") && Some(c.digest(x)) != row.checksum
  {
    PlaceDoesNotMatter(c, job, row, x, options, envKey);
  }

  /** So an unencrypted backup whose file has changed in storage, as far as the digest tells, is refused with verification on. */
  lemma ChangedBackupsAreRefused(
      c: Codec, options: Options, iv: Bytes, dump: Bytes, job: RestoreJob, x: Bytes, restore: RestoreOptions, envKey: Option<Key>)
    requires Lawful(c) && !options.encrypt && !restore.skipChecksum
    requires LeadsTo(job, Produced(c, options, iv, dump).row, x) && c.digest(x) != c.digest(Produced(c, options, iv, dump).file)
    ensures Restored(c, job, restore, envKey) == Failure(ChecksumMismatch)
  {
    DamageIsNoticedExactlyWhen(c, job, Produced(c, options, iv, dump).row, x, restore, envKey);
  }

  /** Ciphertext is never handed over for want of a key. */
  lemma KeyIsMissedExactlyWhen(c: Codec, job: RestoreJob, row: Row, x: Bytes, options: RestoreOptions, envKey: Option<Key>)
    requires LeadsTo(job, row, x)
    ensures Restored(c, job, options, envKey) == Failure(KeyMissing)
            <==> && Restored(c, job, options, envKey) != Failure(ChecksumMismatch)
                 && row.encrypted && (options.key == None || options.key == Some("")) && (envKey == None || envKey == Some(""))
  {
    PlaceDoesNotMatter(c, job, row, x, options, envKey);
  }

  /** Checksum, decrypt, decompress. */
  method DecodeFile(c: Codec, file: Option<Bytes>, row: Option<Row>, options: RestoreOptions, envKey: Option<Key>)
    returns (r: Result<Bytes, RestoreError>)
    ensures r == HandedOver(c, file, row, options, envKey)
  {
    if file.None? {
      return Failure(FileNotFound);
    }
    var working := file.value;
    if row.Some? && Given(row.value.checksum) && !options.skipChecksum {
      if c.digest(working) != row.value.checksum.value {
        return Failure(ChecksumMismatch);
      }
    }
    if (row.Some? && row.value.encrypted) || Given(options.key) {
      var key := if Given(options.key) then options.key else envKey;
      if !Given(key) {
        return Failure(KeyMissing);
      }
      var iv, tag := [], [];
      if row.Some? {
        iv, tag := OrEmpty(row.value.iv), OrEmpty(row.value.tag);
      }
      var decrypted := c.decrypt(key.value, iv, tag, working);
      if decrypted.None? {
        return Failure(DecryptionFailed);
      }
      working := decrypted.value;
    }
    if Gzipped(working) {
      var unzipped := c.gunzip(working);
      if unzipped.None? {
        return Failure(DecompressionFailed);
      }
      working := unzipped.value;
    }
    r := Success(working);
  }

  /** The dump survives the last stage: it was zipped by the backup, or it does not look zipped, or it unzips to itself. */
  predicate Recognisable(c: Codec, options: Options, dump: Bytes) {
    options.compress || !Gzipped(dump) || c.gunzip(dump) == Some(dump)
  }

  lemma DecompressUndoesPacking(c: Codec, options: Options, dump: Bytes)
    requires Lawful(c)
    ensures DecompressStage(c, Packed(c, options, dump)) == Success(dump) <==> Recognisable(c, options, dump)
  {
    assert c.gunzip(c.gzip(dump)) == Some(dump) && Gzipped(c.gzip(dump));
  }

  /** Unencrypted: with the checksum verified or not, and no key passed, the service receives the dump
      if and only if the dump is recognisable. */
  lemma UnencryptedRoundTrip(c: Codec, options: Options, iv: Bytes, dump: Bytes, skipChecksum: bool, envKey: Option<Key>)
    requires Lawful(c) && !options.encrypt
    ensures var b := Produced(c, options, iv, dump);
            HandedOver(c, Some(b.file), Some(b.row), RestoreOptions(None, skipChecksum), envKey) == Success(dump)
            <==> Recognisable(c, options, dump)
  {
    DecompressUndoesPacking(c, options, dump);
  }

  /** Encrypted, right key from the caller or the environment, verification skipped: the same. */
  lemma EncryptedRoundTrip(c: Codec, options: Options, iv: Bytes, dump: Bytes, key: Option<Key>, envKey: Option<Key>)
    requires Lawful(c) && options.encrypt && KeyError(options).None? && |iv| == IV_LENGTH
    requires if Given(key) then key == options.key else envKey == options.key
    ensures var b := Produced(c, options, iv, dump);
            HandedOver(c, Some(b.file), Some(b.row), RestoreOptions(key, true), envKey) == Success(dump)
            <==> Recognisable(c, options, dump)
  {
    var z := Packed(c, options, dump);
    var e := c.encrypt(options.key.value, iv, z);
    assert c.decrypt(options.key.value, iv, e.tag, e.cipher) == Some(z);
    DecompressUndoesPacking(c, options, dump);
  }

  /** With verification on, an encrypted backup is restored only if its ciphertext has the same SHA-256 as the
      bytes before encryption: the checksum is taken before encryption and checked before decryption. */
  lemma VerifiedEncryptedRestore(c: Codec, options: Options, iv: Bytes, dump: Bytes, key: Option<Key>, envKey: Option<Key>)
    requires Lawful(c) && options.encrypt && KeyError(options).None? && |iv| == IV_LENGTH
    requires if Given(key) then key == options.key else envKey == options.key
    ensures var b := Produced(c, options, iv, dump);
            var sameDigest := c.digest(b.file) == c.digest(Packed(c, options, dump));
            && (!sameDigest ==> HandedOver(c, Some(b.file), Some(b.row), RestoreOptions(key, false), envKey) == Failure(ChecksumMismatch))
            && (HandedOver(c, Some(b.file), Some(b.row), RestoreOptions(key, false), envKey) == Success(dump)
                <==> sameDigest && Recognisable(c, options, dump))
  {
    EncryptedRoundTrip(c, options, iv, dump, key, envKey);
  }

  /** Passing a key for an unencrypted backup makes the worker try to decrypt it, and fail. */
  lemma KeyForAnUnencryptedBackup(c: Codec, options: Options, iv: Bytes, dump: Bytes, key: Key, skipChecksum: bool, envKey: Option<Key>)
    requires Lawful(c) && !options.encrypt && key != ""
    ensures var b := Produced(c, options, iv, dump);
            HandedOver(c, Some(b.file), Some(b.row), RestoreOptions(Some(key), skipChecksum), envKey) == Failure(DecryptionFailed)
  {
    var b := Produced(c, options, iv, dump);
    assert c.decrypt(key, [], [], b.file).None?;
  }

  /** Where a backup's file is, and what else lies in the places a job may name. */
  datatype Around = InS3(file: Option<Bytes>, candidate: Option<Bytes>) | AtPath(candidate: Option<Bytes>) | InBackupDirectory

  function JobFor(b: Backup, around: Around): RestoreJob {
    match around
    case InS3(file, candidate) => RestoreJob(Some(Found(b.row)), Some(Delivered(b.file)), file, candidate)
    case AtPath(candidate) => RestoreJob(Some(Found(b.row)), None, Some(b.file), candidate)
    case InBackupDirectory => RestoreJob(Some(Found(b.row)), None, None, Some(b.file))
  }

  /** From the chunks of the dump to the bytes handed to the database service, for a job that leads to the backup's
      file wherever it was put: `around` says where, and what else lies on the local disk. */
  method BackupThenRestore(
      c: Codec, options: Options, iv: Bytes, dump: seq<Bytes>, zipped: seq<Bytes>, around: Around, restore: RestoreOptions, envKey: Option<Key>)
    returns (b: Result<Backup, BackupError>, r: Result<Bytes, RestoreError>)
    requires Lawful(c) && |iv| == IV_LENGTH
    requires options.compress ==> Concat(zipped) == c.gzip(Concat(dump))
    requires options.encrypt ==> restore.skipChecksum && (if Given(restore.key) then restore.key == options.key else envKey == options.key)
    requires !options.encrypt ==> !Given(restore.key)
    ensures b.Success? <==> KeyError(options).None?
    ensures b.Success? ==> (r == Success(Concat(dump)) <==> Recognisable(c, options, Concat(dump)))
  {
    b := PerformBackup(c, options, iv, dump, zipped);
    if b.Failure? {
      return b, Failure(FileNotFound);
    }
    var job := JobFor(b.value, around);
    r := HandleRestoreJob(c, job, restore, envKey);
    PlaceDoesNotMatter(c, job, b.value.row, b.value.file, restore, envKey);
    if options.encrypt {
      EncryptedRoundTrip(c, options, iv, Concat(dump), restore.key, envKey);
    } else {
      NoKeyIsNoKey(c, b.value, restore, envKey);
      UnencryptedRoundTrip(c, options, iv, Concat(dump), restore.skipChecksum, envKey);
    }
  }

  /** An empty key counts as none. */
  lemma NoKeyIsNoKey(c: Codec, b: Backup, options: RestoreOptions, envKey: Option<Key>)
    requires !Given(options.key)
    ensures HandedOver(c, Some(b.file), Some(b.row), options, envKey) == HandedOver(c, Some(b.file), Some(b.row), options.(key := None), envKey)
  {
  }
}
