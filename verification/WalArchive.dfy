/** Archiving WAL segments and fetching them back. */
module WalArchive {
  import opened Wrappers
  import opened Codecs

  type Path = string

  // ---------- Encoding and decoding ----------

  function Framed(c: Codec, k: Key, iv: Bytes, x: Bytes): Bytes {
    var e := c.encrypt(k, iv, x);
    iv + e.tag + e.cipher
  }

  function Encoded(c: Codec, compress: bool, key: Option<Key>, iv: Bytes, raw: Bytes): Bytes {
    var packed := if compress then c.gzip(raw) else raw;
    if key.Some? then Framed(c, key.value, iv, packed) else packed
  }

  function Unframed(c: Codec, k: Key, x: Bytes): Option<Bytes> {
    if |x| > IV_LENGTH + TAG_LENGTH then c.decrypt(k, x[..IV_LENGTH], x[IV_LENGTH..IV_LENGTH + TAG_LENGTH], x[IV_LENGTH + TAG_LENGTH..])
    else None
  }

  /** The decoder guesses: decrypt if there is a key and the bytes authenticate, then unzip if they look zipped. */
  function Decoded(c: Codec, key: Option<Key>, stored: Bytes): Bytes {
    Opened(c, if key.Some? && Unframed(c, key.value, stored).Some? then Unframed(c, key.value, stored).value else stored)
  }

  lemma UnframeInvertsFrame(c: Codec, k: Key, iv: Bytes, x: Bytes)
    requires GcmLaws(c) && |iv| == IV_LENGTH
    ensures Unframed(c, k, Framed(c, k, iv, x)) == if x == [] then None else Some(x)
  {
    var e := c.encrypt(k, iv, x);
    assert c.decrypt(k, iv, e.tag, e.cipher) == Some(x);
    var f := Framed(c, k, iv, x);
    assert f[..IV_LENGTH] == iv;
    assert f[IV_LENGTH..IV_LENGTH + TAG_LENGTH] == e.tag;
    assert f[IV_LENGTH + TAG_LENGTH..] == e.cipher;
  }

  /** Only a frame made with `k` is taken for one. */
  lemma OnlyFramesUnframe(c: Codec, k: Key, x: Bytes)
    requires GcmLaws(c) && Unframed(c, k, x).Some?
    ensures |x[..IV_LENGTH]| == IV_LENGTH && x == Framed(c, k, x[..IV_LENGTH], Unframed(c, k, x).value)
  {
    assert x == x[..IV_LENGTH] + x[IV_LENGTH..IV_LENGTH + TAG_LENGTH] + x[IV_LENGTH + TAG_LENGTH..];
  }

  /** The key, or its absence, is the same on both sides. What comes back is exact with compression; without it,
      what comes back is the segment opened once more, or for an empty segment under a key, its bare frame. */
  lemma FetchAfterArchive(c: Codec, compress: bool, key: Option<Key>, iv: Bytes, raw: Bytes)
    requires Lawful(c) && |iv| == IV_LENGTH
    ensures Decoded(c, key, Encoded(c, compress, key, iv, raw)) ==
            if compress then raw
            else if key.Some? && raw == [] then Opened(c, Framed(c, key.value, iv, []))
            else Opened(c, raw)
  {
    assert c.gunzip(c.gzip(raw)) == Some(raw) && Gzipped(c.gzip(raw));
    if key.Some? {
      UnframeInvertsFrame(c, key.value, iv, if compress then c.gzip(raw) else raw);
    }
  }

  /** So the round trip is exact if and only if the segment is compressed, or it does not unzip to other bytes
      and is not empty under a key; for an empty one it takes an IV that makes its bare frame unzip to nothing. */
  lemma RoundTripExactly(c: Codec, compress: bool, key: Option<Key>, iv: Bytes, raw: Bytes)
    requires Lawful(c) && |iv| == IV_LENGTH
    ensures Decoded(c, key, Encoded(c, compress, key, iv, raw)) == raw <==>
              || compress
              || (if key.Some? && raw == [] then Gzipped(iv) && c.gunzip(Framed(c, key.value, iv, [])) == Some([])
                  else Gzipped(raw) && c.gunzip(raw).Some? ==> c.gunzip(raw).value == raw)
  {
    FetchAfterArchive(c, compress, key, iv, raw);
    if !compress && key.Some? && raw == [] {
      var f := Framed(c, key.value, iv, []);
      assert |f| > 2 && f[0] == iv[0] && f[1] == iv[1];
    }
  }

  /** A key added only after archiving changes nothing, unless the stored bytes happen to be a frame under that key. */
  lemma KeyAddedLater(c: Codec, compress: bool, k: Key, iv: Bytes, raw: Bytes)
    requires Lawful(c)
    ensures var stored := Encoded(c, compress, None, iv, raw);
            || Decoded(c, Some(k), stored) == (if compress then raw else Opened(c, raw))
            || exists iv', x :: |iv'| == IV_LENGTH && stored == Framed(c, k, iv', x)
  {
    var stored := Encoded(c, compress, None, iv, raw);
    assert c.gunzip(c.gzip(raw)) == Some(raw) && Gzipped(c.gzip(raw));
    if Unframed(c, k, stored).Some? {
      OnlyFramesUnframe(c, k, stored);
    }
  }

  /** A key that is lost or wrong is not noticed: the fetch reports success and hands out the ciphertext frame
      (unzipped, should the random IV start like a gzip header). */
  lemma WrongKeyYieldsTheFrame(c: Codec, compress: bool, k: Key, fetchKey: Option<Key>, iv: Bytes, raw: Bytes)
    requires Lawful(c) && |iv| == IV_LENGTH
    requires fetchKey.Some? ==> Unframed(c, fetchKey.value, Encoded(c, compress, Some(k), iv, raw)).None?
    ensures var frame := Encoded(c, compress, Some(k), iv, raw);
            Decoded(c, fetchKey, frame) == Opened(c, frame) && (!Gzipped(iv) ==> Opened(c, frame) == frame)
  {
    var f := Encoded(c, compress, Some(k), iv, raw);
    assert f[0] == iv[0] && f[1] == iv[1];
  }

  // ---------- Names and paths ----------

  predicate EndsWith(s: string, t: string) {
    |t| <= |s| && s[|s| - |t|..] == t
  }

  predicate HexDigit(ch: char) {
    '0' <= ch <= '9' || 'A' <= ch <= 'F'
  }

  predicate SegmentName(n: string) {
    |n| == 24 && forall i :: 0 <= i < |n| ==> HexDigit(n[i])
  }

  /** The other files PostgreSQL archives (.history, .partial, .backup) have a dot among their last 24 characters. */
  predicate ArchiveName(n: string) {
    SegmentName(n) || exists i :: 0 <= i < |n| && |n| - 24 <= i && n[i] == '.'
  }

  /** PostgreSQL passes names of at least eight characters; the first eight are the timeline. */
  type WalName = n: string | |n| >= 8 witness "00000001000000000000000A"

  function Directory(dbName: string, name: WalName): string {
    "pitr/" + dbName + "/wal/" + name[..8] + "/"
  }

  function RemotePath(dbName: string, name: WalName): Path {
    Directory(dbName, name) + name
  }

  /** File names have no slash; database names may. */
  lemma PathsAreInjective(db1: string, m: WalName, db2: string, n: WalName)
    requires RemotePath(db1, m) == RemotePath(db2, n) && '/' !in m && '/' !in n
    ensures m == n && db1 == db2
  {
    var p := RemotePath(db1, m);
    PathParts(db1, m);
    PathParts(db2, n);
    NameAfterSlash(p, m, n);
    NameAfterSlash(p, n, m);
  }

  lemma PathParts(db: string, m: WalName)
    ensures var p := RemotePath(db, m);
            && |p| == |db| + |m| + 19 && p[5..|p| - |m| - 14] == db && FileNamed(p, m)
  {
    var p := RemotePath(db, m);
    var d := Directory(db, m);
    assert |d| == |db| + 19 && d[|d| - 1] == '/';
    assert p == d + m;
    assert d == "pitr/" + db + ("/wal/" + m[..8] + "/");
  }

  lemma NameAfterSlash(p: Path, m: string, n: string)
    requires FileNamed(p, m) && FileNamed(p, n) && '/' !in m
    ensures |n| >= |m| && (|n| == |m| ==> n == m)
  {
    forall j | |p| - |m| <= j < |p| ensures p[j] in m {
      assert p[|p| - |m|..][j - |p| + |m|] == p[j];
    }
  }

  /** In a directory of archived files, the suffix test for a segment is equality of names. */
  lemma SuffixTestIsNameEquality(directory: string, m: string, n: string)
    requires SegmentName(n) && ArchiveName(m)
    ensures EndsWith(directory + m, n) <==> m == n
  {
    var p := directory + m;
    if SegmentName(m) {
      assert p[|p| - 24..] == m;
    } else if |p| >= 24 {
      var i :| 0 <= i < |m| && |m| - 24 <= i && m[i] == '.';
      var j := i + 24 - |m|;
      assert p[|p| - 24..][j] == '.';
      assert HexDigit(n[j]);
    }
  }

  // ---------- The archive over time ----------

  type Store = map<Path, Bytes>

  /** A complete listing of one directory. */
  ghost predicate Lists(store: Store, directory: string, listing: seq<Path>) {
    forall p :: p in listing <==> p in store && directory <= p
  }

  predicate AlreadyArchived(listing: seq<Path>, name: WalName) {
    exists i :: 0 <= i < |listing| && EndsWith(listing[i], name)
  }

  /** One call of `archiveWal`: the segment's content, the random IV, the settings of the moment, what the
      directory listing returned (`None` if it threw), and whether the upload went through. */
  datatype Call = Call(name: WalName, raw: Bytes, iv: Bytes, compress: bool, key: Option<Key>,
                       listing: Option<seq<Path>>, uploads: bool)

  function AfterCall(c: Codec, dbName: string, store: Store, call: Call): Store {
    if call.listing.Some? && AlreadyArchived(call.listing.value, call.name) then store
    else if call.uploads then store[RemotePath(dbName, call.name) := Encoded(c, call.compress, call.key, call.iv, call.raw)]
    else store
  }

  function AfterCalls(c: Codec, dbName: string, store: Store, calls: seq<Call>): Store
    decreases |calls|
  {
    if |calls| == 0 then store else AfterCalls(c, dbName, AfterCall(c, dbName, store, calls[0]), calls[1..])
  }

  /** Every call's listing succeeds and is complete. */
  ghost predicate Listed(c: Codec, dbName: string, store: Store, calls: seq<Call>)
    decreases |calls|
  {
    |calls| == 0 ||
    (calls[0].listing.Some? && Lists(store, Directory(dbName, calls[0].name), calls[0].listing.value)
     && Listed(c, dbName, AfterCall(c, dbName, store, calls[0]), calls[1..]))
  }

  /** A segment is archived, and the listing, which may be incomplete, names archived files of its directory. */
  ghost predicate ArchivesSegment(dbName: string, call: Call) {
    && SegmentName(call.name)
    && (call.listing.Some? ==>
          forall p :: p in call.listing.value ==> exists m :: ArchiveName(m) && p == Directory(dbName, call.name) + m)
  }

  /** Whatever else is archived: a segment is skipped if and only if its own object is listed. */
  lemma SkippedExactlyWhenListed(c: Codec, dbName: string, store: Store, call: Call)
    requires ArchivesSegment(dbName, call)
    ensures var own := RemotePath(dbName, call.name);
            AfterCall(c, dbName, store, call) ==
            if (call.listing.Some? && own in call.listing.value) || !call.uploads then store
            else store[own := Encoded(c, call.compress, call.key, call.iv, call.raw)]
    ensures call.listing.Some? ==> (AlreadyArchived(call.listing.value, call.name) <==> RemotePath(dbName, call.name) in call.listing.value)
  {
    if call.listing.Some? {
      var listing := call.listing.value;
      var d := Directory(dbName, call.name);
      var own := RemotePath(dbName, call.name);
      SuffixTestIsNameEquality(d, call.name, call.name);
      if own in listing {
        var i :| 0 <= i < |listing| && listing[i] == own;
        assert EndsWith(listing[i], call.name);
      }
      if AlreadyArchived(listing, call.name) {
        var i :| 0 <= i < |listing| && EndsWith(listing[i], call.name);
        var p := listing[i];
        assert p in listing;
        var m :| ArchiveName(m) && p == d + m;
        SuffixTestIsNameEquality(d, m, call.name);
      }
    }
  }

  /** So with a complete listing and an upload that works, the segment is in the archive after the call: with its first
      content if it was there before, otherwise with this one. */
  lemma NewSegmentsAreStored(c: Codec, dbName: string, store: Store, call: Call)
    requires ArchivesSegment(dbName, call) && call.uploads
    requires call.listing.Some? && Lists(store, Directory(dbName, call.name), call.listing.value)
    ensures var own := RemotePath(dbName, call.name);
            var after := AfterCall(c, dbName, store, call);
            && own in after && after.Keys == store.Keys + {own} && (forall p :: p in store ==> after[p] == store[p])
            && (own !in store ==> after[own] == Encoded(c, call.compress, call.key, call.iv, call.raw))
  {
    SkippedExactlyWhenListed(c, dbName, store, call);
    assert Directory(dbName, call.name) <= RemotePath(dbName, call.name);
  }

  lemma StoredIsListed(dbName: string, store: Store, call: Call)
    requires call.listing.Some? && Lists(store, Directory(dbName, call.name), call.listing.value)
    requires RemotePath(dbName, call.name) in store
    ensures AlreadyArchived(call.listing.value, call.name)
  {
    var p := RemotePath(dbName, call.name);
    var d := Directory(dbName, call.name);
    assert d <= p && p[|p| - |call.name|..] == call.name;
    assert p in call.listing.value;
  }

  /** Over any sequence of archive calls whose listings succeed, an object keeps the content first stored under it. */
  lemma {:induction false} FirstContentStays(c: Codec, dbName: string, store: Store, calls: seq<Call>, p: Path)
    requires Listed(c, dbName, store, calls) && p in store
    ensures p in AfterCalls(c, dbName, store, calls) && AfterCalls(c, dbName, store, calls)[p] == store[p]
    decreases |calls|
  {
    if |calls| > 0 {
      if p == RemotePath(dbName, calls[0].name) {
        StoredIsListed(dbName, store, calls[0]);
      }
      FirstContentStays(c, dbName, AfterCall(c, dbName, store, calls[0]), calls[1..], p);
    }
  }

  /** The call gets past its listing, because that threw or left the segment out (one page of a longer listing,
      say), and uploads other bytes than `content` to `p`. */
  ghost predicate Replaces(c: Codec, dbName: string, call: Call, p: Path, content: Bytes) {
    && RemotePath(dbName, call.name) == p && call.uploads
    && !(call.listing.Some? && AlreadyArchived(call.listing.value, call.name))
    && Encoded(c, call.compress, call.key, call.iv, call.raw) != content
  }

  /** The content at `p` through the first k calls. */
  function ContentAfter(c: Codec, dbName: string, store: Store, calls: seq<Call>, p: Path, k: nat): Option<Bytes>
    requires k <= |calls|
  {
    var after := AfterCalls(c, dbName, store, calls[..k]);
    if p in after then Some(after[p]) else None
  }

  lemma OneMoreCall(c: Codec, dbName: string, store: Store, calls: seq<Call>, p: Path, k: nat)
    requires p in store && k < |calls| && ContentAfter(c, dbName, store, calls, p, k) == Some(store[p])
    ensures ContentAfter(c, dbName, store, calls, p, k + 1) == Some(store[p]) <==> !Replaces(c, dbName, calls[k], p, store[p])
  {
    assert calls[..k + 1][..k] == calls[..k];
    AfterCallsSnoc(c, dbName, store, calls[..k + 1]);
  }

  /** Whatever the listings returned: an object keeps its content all through a sequence of archive calls if
      and only if none of them replaces it. */
  lemma {:induction false} ContentStaysExactlyWhen(c: Codec, dbName: string, store: Store, calls: seq<Call>, p: Path, n: nat)
    requires p in store && n <= |calls|
    ensures (forall k :: 0 <= k <= n ==> ContentAfter(c, dbName, store, calls, p, k) == Some(store[p]))
            <==> (forall k :: 0 <= k < n ==> !Replaces(c, dbName, calls[k], p, store[p]))
  {
    if n == 0 {
      assert calls[..0] == [];
    } else {
      ContentStaysExactlyWhen(c, dbName, store, calls, p, n - 1);
      if ContentAfter(c, dbName, store, calls, p, n - 1) == Some(store[p]) {
        OneMoreCall(c, dbName, store, calls, p, n - 1);
      }
    }
  }

  lemma {:induction false} AfterCallsSnoc(c: Codec, dbName: string, store: Store, calls: seq<Call>)
    requires |calls| > 0
    ensures AfterCalls(c, dbName, store, calls) ==
            AfterCall(c, dbName, AfterCalls(c, dbName, store, calls[..|calls| - 1]), calls[|calls| - 1])
    decreases |calls|
  {
    if |calls| > 1 {
      assert calls[1..][..|calls| - 2] == calls[..|calls| - 1][1..];
      AfterCallsSnoc(c, dbName, AfterCall(c, dbName, store, calls[0]), calls[1..]);
    }
  }

  /** Archive a segment for the first time, then make any further archive calls, then fetch it with the same
      key setting: the bytes of the first call come back. */
  lemma FetchReturnsTheFirstContent(c: Codec, dbName: string, store: Store, first: Call, later: seq<Call>)
    requires Lawful(c) && |first.iv| == IV_LENGTH && first.uploads
    requires first.listing.Some? ==> !AlreadyArchived(first.listing.value, first.name)
    requires Listed(c, dbName, AfterCall(c, dbName, store, first), later)
    requires first.compress || (first.raw != [] && !Gzipped(first.raw))
    ensures var p := RemotePath(dbName, first.name);
            var after := AfterCalls(c, dbName, AfterCall(c, dbName, store, first), later);
            p in after && Decoded(c, first.key, after[p]) == first.raw
  {
    FirstContentStays(c, dbName, AfterCall(c, dbName, store, first), later, RemotePath(dbName, first.name));
    FetchAfterArchive(c, first.compress, first.key, first.iv, first.raw);
  }

  // ---------- Finding a segment ----------

  function FirstMatch(files: seq<Path>, name: WalName): Option<Path> {
    if |files| == 0 then None
    else if EndsWith(files[0], name) then Some(files[0])
    else FirstMatch(files[1..], name)
  }

  /** Where the fetch reads from; a listed file may be gone when it is downloaded. */
  function Located(store: Store, own: Path, allFiles: seq<Path>, name: WalName): (r: Option<Path>)
    ensures r.Some? ==> r.value in store
  {
    if own in store then Some(own)
    else
      match FirstMatch(allFiles, name)
      case None => None
      case Some(p) => if p in store then Some(p) else None
  }

  lemma {:induction false} FirstMatchMatches(files: seq<Path>, name: WalName)
    ensures FirstMatch(files, name).Some? <==> exists i :: 0 <= i < |files| && EndsWith(files[i], name)
    ensures FirstMatch(files, name).Some? ==> FirstMatch(files, name).value in files && EndsWith(FirstMatch(files, name).value, name)
    decreases |files|
  {
    if |files| > 0 {
      FirstMatchMatches(files[1..], name);
      if i :| 0 <= i < |files[1..]| && EndsWith(files[1..][i], name) { assert files[i + 1] == files[1..][i]; }
      if i :| 0 < i < |files| && EndsWith(files[i], name) { assert files[1..][i - 1] == files[i]; }
    }
  }

  /** `p` is the file `m` in some directory. */
  predicate FileNamed(p: Path, m: string) {
    |m| < |p| && p[|p| - |m| - 1] == '/' && p[|p| - |m|..] == m
  }

  /** In a store of archived files with a complete listing, a segment is found exactly if a file of that very
      name is stored, under its own timeline or elsewhere, and then such a file is what is read. */
  lemma SegmentIsLocatedByName(store: Store, dbName: string, allFiles: seq<Path>, name: WalName)
    requires SegmentName(name) && forall p :: p in allFiles <==> p in store
    requires forall p :: p in store ==> exists m :: ArchiveName(m) && FileNamed(p, m)
    ensures var r := Located(store, RemotePath(dbName, name), allFiles, name);
            && (r.Some? <==> exists p :: p in store && FileNamed(p, name))
            && (r.Some? ==> FileNamed(r.value, name))
  {
    FirstMatchMatches(allFiles, name);
    var own := RemotePath(dbName, name);
    assert FileNamed(own, name);
    if own !in store {
      if FirstMatch(allFiles, name).Some? {
        var p := FirstMatch(allFiles, name).value;
        var m :| ArchiveName(m) && FileNamed(p, m);
        assert p == p[..|p| - |m|] + m;
        SuffixTestIsNameEquality(p[..|p| - |m|], m, name);
      }
      if p :| p in store && FileNamed(p, name) {
        assert EndsWith(p, name);
        var i :| 0 <= i < |allFiles| && allFiles[i] == p;
      }
    }
  }

  // ---------- The service object ----------

  class PostgresPitrService {
    const codec: Codec
    const dbName: string
    var store: Store

    constructor (codec: Codec, dbName: string)
      ensures this.codec == codec && this.dbName == dbName && store == map[]
    {
      this.codec := codec;
      this.dbName := dbName;
      store := map[];
    }

    /** True if the segment is in the archive afterwards as far as the service knows; the store changes as `AfterCall` says. */
    method ArchiveWal(call: Call) returns (ok: bool)
      modifies this
      ensures store == AfterCall(codec, dbName, old(store), call)
      ensures ok <==> call.uploads || (call.listing.Some? && AlreadyArchived(call.listing.value, call.name))
      ensures ArchivesSegment(dbName, call) ==>
                var own := RemotePath(dbName, call.name);
                var listed := call.listing.Some? && own in call.listing.value;
                && (ok <==> listed || call.uploads)
                && store == if listed || !call.uploads then old(store)
                            else old(store)[own := Encoded(codec, call.compress, call.key, call.iv, call.raw)]
    {
      if ArchivesSegment(dbName, call) { SkippedExactlyWhenListed(codec, dbName, store, call); }
      if call.listing.Some? {
        var files := call.listing.value;
        for i := 0 to |files|
          invariant store == old(store)
          invariant forall k :: 0 <= k < i ==> !EndsWith(files[k], call.name)
        {
          if EndsWith(files[i], call.name) {
            return true;
          }
        }
      }
      var processed := call.raw;
      if call.compress {
        processed := codec.gzip(processed);
      }
      if call.key.Some? {
        var e := codec.encrypt(call.key.value, call.iv, processed);
        processed := call.iv + e.tag + e.cipher;
      }
      if !call.uploads {
        return false;
      }
      store := store[RemotePath(dbName, call.name) := processed];
      ok := true;
    }

    /** The object under the name's own path, otherwise the first file anywhere under the WAL directory that
        ends with the name; decoded by guessing. */
    method FetchWal(name: WalName, key: Option<Key>, allFiles: seq<Path>) returns (r: Option<Bytes>)
      ensures var source := Located(store, RemotePath(dbName, name), allFiles, name);
              r == if source.Some? then Some(Decoded(codec, key, store[source.value])) else None
    {
      var source := RemotePath(dbName, name);
      if source !in store {
        var i := 0;
        while i < |allFiles| && !EndsWith(allFiles[i], name)
          invariant i <= |allFiles|
          invariant FirstMatch(allFiles, name) == FirstMatch(allFiles[i..], name)
        {
          i := i + 1;
        }
        if i == |allFiles| || allFiles[i] !in store {
          return None;
        }
        source := allFiles[i];
      }
      var buffer := store[source];
      if key.Some? && |buffer| > IV_LENGTH + TAG_LENGTH {
        var iv := buffer[..IV_LENGTH];
        var tag := buffer[IV_LENGTH..IV_LENGTH + TAG_LENGTH];
        var decrypted := codec.decrypt(key.value, iv, tag, buffer[IV_LENGTH + TAG_LENGTH..]);
        if decrypted.Some? {
          buffer := decrypted.value;
        }
      }
      if |buffer| >= 2 && buffer[0] == 0x1f && buffer[1] == 0x8b {
        var unzipped := codec.gunzip(buffer);
        if unzipped.Some? {
          buffer := unzipped.value;
        }
      }
      r := Some(buffer);
    }
  }
}
