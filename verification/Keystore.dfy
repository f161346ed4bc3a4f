/**
 The key manager: a list of key entries cached in memory over an encrypted file, used as a map from
 backup id to entry.
 */
module Keystore {
  import opened Wrappers

  type BackupId = string
  type Blob = seq<bv8>

  /** `note` stands for the remaining columns (database, creation time, algorithm); `keyId` is kept when an entry is replaced. */
  datatype KeyEntry = KeyEntry(backupId: BackupId, key: string, note: string, keyId: string)

  // ---------- The list as a map ----------

  function Find(keys: seq<KeyEntry>, id: BackupId): (r: Option<KeyEntry>)
    ensures r.Some? ==> r.value in keys && r.value.backupId == id
    ensures r.None? <==> forall e :: e in keys ==> e.backupId != id
  {
    if |keys| == 0 then None
    else if keys[0].backupId == id then Some(keys[0])
    else Find(keys[1..], id)
  }

  ghost predicate Unique(keys: seq<KeyEntry>) {
    forall i, j :: 0 <= i < j < |keys| ==> keys[i].backupId != keys[j].backupId
  }

  function Ids(keys: seq<KeyEntry>): set<BackupId> {
    set e | e in keys :: e.backupId
  }

  /** What the list means: each id maps to its first entry. */
  function View(keys: seq<KeyEntry>): map<BackupId, KeyEntry> {
    map id | id in Ids(keys) :: Find(keys, id).value
  }

  lemma ViewIsFind(keys: seq<KeyEntry>, id: BackupId)
    ensures id in View(keys) <==> Find(keys, id).Some?
    ensures id in View(keys) ==> View(keys)[id] == Find(keys, id).value
  {
  }

  lemma {:induction false} FindAppend(keys: seq<KeyEntry>, more: seq<KeyEntry>, id: BackupId)
    ensures Find(keys + more, id) == if Find(keys, id).Some? then Find(keys, id) else Find(more, id)
    decreases |keys|
  {
    if |keys| == 0 {
      assert keys + more == more;
    } else {
      assert (keys + more)[1..] == keys[1..] + more;
      FindAppend(keys[1..], more, id);
    }
  }

  lemma {:induction false} FindAt(keys: seq<KeyEntry>, i: nat)
    requires Unique(keys) && i < |keys|
    ensures Find(keys, keys[i].backupId) == Some(keys[i])
    decreases |keys|
  {
    if i > 0 {
      FindAt(keys[1..], i - 1);
    }
  }

  /** Two lists with the same lookups mean the same map. */
  lemma SameLookups(keys: seq<KeyEntry>, m: map<BackupId, KeyEntry>)
    requires forall id :: Find(keys, id) == if id in m then Some(m[id]) else None
    ensures View(keys) == m
  {
    forall id ensures id in View(keys) <==> id in m {
      ViewIsFind(keys, id);
      assert Find(keys, id).Some? <==> id in m;
    }
    forall id | id in m ensures View(keys)[id] == m[id] {
      ViewIsFind(keys, id);
      assert Find(keys, id) == Some(m[id]);
    }
  }

  // ---------- The operations on the list ----------

  function IndexOf(keys: seq<KeyEntry>, id: BackupId): (i: int)
    ensures -1 <= i < |keys|
    ensures i >= 0 ==> keys[i].backupId == id
    ensures forall j :: 0 <= j < (if i < 0 then |keys| else i) ==> keys[j].backupId != id
  {
    if |keys| == 0 then -1
    else if keys[0].backupId == id then 0
    else var i := IndexOf(keys[1..], id); if i < 0 then -1 else i + 1
  }

  /** Replace the entry in place, keeping its key id unless that is empty, or append a new one. */
  function Put(keys: seq<KeyEntry>, e: KeyEntry): seq<KeyEntry> {
    var i := IndexOf(keys, e.backupId);
    if i >= 0 then keys[i := e.(keyId := if keys[i].keyId != "" then keys[i].keyId else e.keyId)]
    else keys + [e]
  }

  function Without(keys: seq<KeyEntry>, id: BackupId): seq<KeyEntry> {
    if |keys| == 0 then []
    else (if keys[0].backupId != id then [keys[0]] else []) + Without(keys[1..], id)
  }

  /** Entries of `extra` whose id is not present yet, in order; the ones already there stay. */
  function Merge(keys: seq<KeyEntry>, extra: seq<KeyEntry>): seq<KeyEntry>
    decreases |extra|
  {
    if |extra| == 0 then keys
    else Merge(if Find(keys, extra[0].backupId).None? then keys + [extra[0]] else keys, extra[1..])
  }

  /** What `Put` stores for its id. */
  function Stored(keys: seq<KeyEntry>, e: KeyEntry): KeyEntry {
    var old' := Find(keys, e.backupId);
    if old'.Some? && old'.value.keyId != "" then e.(keyId := old'.value.keyId) else e
  }

  lemma {:induction false} PutIsUpdate(keys: seq<KeyEntry>, e: KeyEntry)
    requires Unique(keys)
    ensures Unique(Put(keys, e))
    ensures View(Put(keys, e)) == View(keys)[e.backupId := Stored(keys, e)]
  {
    var i := IndexOf(keys, e.backupId);
    var after := Put(keys, e);
    if i >= 0 {
      FindAt(keys, i);
    }
    forall id ensures Find(after, id) == if id == e.backupId then Some(Stored(keys, e)) else Find(keys, id) {
      if i < 0 {
        FindAppend(keys, [e], id);
      } else {
        FindUpdated(keys, i, after[i], id);
      }
    }
    var m := View(keys)[e.backupId := Stored(keys, e)];
    forall id ensures Find(after, id) == if id in m then Some(m[id]) else None {
      ViewIsFind(keys, id);
    }
    SameLookups(after, m);
  }

  /** The new entry brings key and note; a key id that was there stays. */
  lemma PutKeepsKeyIds(keys: seq<KeyEntry>, e: KeyEntry)
    requires Unique(keys)
    ensures e.backupId in View(Put(keys, e))
    ensures var now := View(Put(keys, e))[e.backupId];
            && now.key == e.key && now.note == e.note
            && now.keyId == if e.backupId in View(keys) && View(keys)[e.backupId].keyId != "" then View(keys)[e.backupId].keyId else e.keyId
  {
    PutIsUpdate(keys, e);
    ViewIsFind(keys, e.backupId);
  }

  lemma {:induction false} FindUpdated(keys: seq<KeyEntry>, i: nat, e: KeyEntry, id: BackupId)
    requires Unique(keys) && i < |keys| && keys[i].backupId == e.backupId
    ensures Find(keys[i := e], id) == if id == e.backupId then Some(e) else Find(keys, id)
    decreases |keys|
  {
    if i > 0 {
      assert keys[i := e][1..] == keys[1..][i - 1 := e];
      FindUpdated(keys[1..], i - 1, e, id);
    } else {
      assert keys[0 := e][1..] == keys[1..];
      if id == e.backupId { assert Find(keys[1..], id).None?; }
    }
  }

  lemma {:induction false} FindWithout(keys: seq<KeyEntry>, id: BackupId, other: BackupId)
    ensures Find(Without(keys, id), other) == if other == id then None else Find(keys, other)
    ensures forall e :: e in Without(keys, id) ==> e in keys
    decreases |keys|
  {
    if |keys| > 0 {
      FindWithout(keys[1..], id, other);
      var head := if keys[0].backupId != id then [keys[0]] else [];
      FindAppend(head, Without(keys[1..], id), other);
    }
  }

  lemma {:induction false} WithoutIsUnique(keys: seq<KeyEntry>, id: BackupId)
    requires Unique(keys)
    ensures Unique(Without(keys, id)) && |Without(keys, id)| <= |keys|
    ensures |Without(keys, id)| < |keys| <==> Find(keys, id).Some?
    decreases |keys|
  {
    if |keys| > 0 {
      WithoutIsUnique(keys[1..], id);
      FindWithout(keys[1..], id, id);
      assert forall e :: e in keys[1..] ==> e.backupId != keys[0].backupId;
      assert forall e :: e in Without(keys[1..], id) ==> e.backupId != keys[0].backupId;
    }
  }

  lemma WithoutIsRemoval(keys: seq<KeyEntry>, id: BackupId)
    requires Unique(keys)
    ensures Unique(Without(keys, id))
    ensures View(Without(keys, id)) == View(keys) - {id}
    ensures |Without(keys, id)| < |keys| <==> id in View(keys)
  {
    WithoutIsUnique(keys, id);
    ViewIsFind(keys, id);
    var m := View(keys) - {id};
    forall x ensures Find(Without(keys, id), x) == if x in m then Some(m[x]) else None {
      FindWithout(keys, id, x);
      ViewIsFind(keys, x);
    }
    SameLookups(Without(keys, id), m);
  }

  lemma {:induction false} FindMerged(keys: seq<KeyEntry>, extra: seq<KeyEntry>, id: BackupId)
    ensures Find(Merge(keys, extra), id) == if Find(keys, id).Some? then Find(keys, id) else Find(extra, id)
    decreases |extra|
  {
    if |extra| > 0 {
      var next := if Find(keys, extra[0].backupId).None? then keys + [extra[0]] else keys;
      FindMerged(next, extra[1..], id);
      FindAppend(keys, [extra[0]], id);
    }
  }

  lemma {:induction false} MergeIsUnique(keys: seq<KeyEntry>, extra: seq<KeyEntry>)
    requires Unique(keys)
    ensures Unique(Merge(keys, extra)) && keys <= Merge(keys, extra)
    decreases |extra|
  {
    if |extra| > 0 {
      var next := if Find(keys, extra[0].backupId).None? then keys + [extra[0]] else keys;
      MergeIsUnique(next, extra[1..]);
    }
  }

  /** Import keeps what is there and adds what is missing, without duplicates. */
  lemma MergeIsUnion(keys: seq<KeyEntry>, extra: seq<KeyEntry>)
    requires Unique(keys)
    ensures Unique(Merge(keys, extra))
    ensures View(Merge(keys, extra)) == View(extra) + View(keys)
  {
    MergeIsUnique(keys, extra);
    var m := View(extra) + View(keys);
    forall id ensures Find(Merge(keys, extra), id) == if id in m then Some(m[id]) else None {
      FindMerged(keys, extra, id);
      ViewIsFind(keys, id);
      ViewIsFind(extra, id);
    }
    SameLookups(Merge(keys, extra), m);
  }

  /** Into an empty store an import of unique entries restores them one by one, in order. */
  lemma {:induction false} MergeIntoEmpty(keys: seq<KeyEntry>, extra: seq<KeyEntry>)
    requires Unique(keys + extra)
    ensures Merge(keys, extra) == keys + extra
    decreases |extra|
  {
    if |extra| == 0 {
      assert keys + extra == keys;
    } else {
      assert forall i :: 0 <= i < |keys| ==> (keys + extra)[i] == keys[i];
      assert (keys + extra)[|keys|] == extra[0];
      assert Find(keys, extra[0].backupId).None?;
      assert (keys + [extra[0]]) + extra[1..] == keys + extra;
      MergeIntoEmpty(keys + [extra[0]], extra[1..]);
    }
  }

  // ---------- Sealing ----------

  /** JSON and AES-256-GCM over a list of entries, with the one law needed: opening inverts sealing. */
  datatype Sealer = Sealer(seal: (string, Blob, seq<KeyEntry>) -> Blob, open: (string, Blob) -> Option<seq<KeyEntry>>)

  ghost predicate SealerLaw(c: Sealer) {
    forall k, iv, keys :: c.open(k, c.seal(k, iv, keys)) == Some(keys)
  }

  /** The two files in the keystore directory. */
  class Disk {
    var masterKey: Option<string>
    var keystoreFile: Option<Blob>

    constructor ()
      ensures masterKey == None && keystoreFile == None
    {
      masterKey, keystoreFile := None, None;
    }
  }

  datatype ImportError = WrongPassword

  class KeyManager {
    const sealer: Sealer
    const disk: Disk
    var masterKey: Option<string>
    var keystore: Option<seq<KeyEntry>>

    /** A fresh manager has nothing in memory. */
    constructor (sealer: Sealer, disk: Disk)
      ensures this.sealer == sealer && this.disk == disk && masterKey == None && keystore == None
    {
      this.sealer, this.disk := sealer, disk;
      masterKey, keystore := None, None;
    }

    /** What a manager without a cache would read from disk. An unreadable file counts as empty. */
    ghost function OnDisk(): seq<KeyEntry>
      reads this, disk
    {
      if disk.keystoreFile.None? || disk.masterKey.None? then []
      else
        var plain := sealer.open(disk.masterKey.value, disk.keystoreFile.value);
        if plain.Some? then plain.value else []
    }

    /** The entries this manager works with. */
    ghost function Keys(): seq<KeyEntry>
      reads this, disk
    {
      if keystore.Some? then keystore.value else OnDisk()
    }

    /** Ids are unique, and whatever is cached is what the disk holds. */
    ghost predicate Valid()
      reads this, disk
    {
      && SealerLaw(sealer)
      && Unique(Keys())
      && (keystore.Some? ==> disk.keystoreFile.Some? && disk.masterKey.Some? && OnDisk() == keystore.value)
      && (masterKey.Some? ==> disk.masterKey == masterKey)
    }

    /** A key drawn at random does not open a file sealed before. */
    predicate Random(random: string)
      reads this, disk
    {
      disk.masterKey.None? && disk.keystoreFile.Some? ==> sealer.open(random, disk.keystoreFile.value).None?
    }

    method GetOrCreateMasterKey(random: string) returns (k: string)
      modifies this`masterKey, disk`masterKey
      requires masterKey.Some? ==> disk.masterKey == masterKey
      ensures masterKey == Some(k) && disk.masterKey == Some(k)
      ensures k == if old(disk.masterKey).Some? then old(disk.masterKey).value else random
    {
      if masterKey.Some? {
        return masterKey.value;
      }
      if disk.masterKey.Some? {
        masterKey := disk.masterKey;
        return masterKey.value;
      }
      disk.masterKey := Some(random);
      masterKey := Some(random);
      k := random;
    }

    method SaveKeystore(keys: seq<KeyEntry>, iv: Blob, random: string)
      requires SealerLaw(sealer) && (masterKey.Some? ==> disk.masterKey == masterKey)
      modifies this, disk
      ensures keystore == Some(keys) && disk.keystoreFile.Some? && disk.masterKey.Some?
      ensures disk.masterKey == masterKey && OnDisk() == keys
      ensures old(disk.masterKey).Some? ==> disk.masterKey == old(disk.masterKey)
      ensures Unique(keys) ==> Valid()
    {
      var k := GetOrCreateMasterKey(random);
      disk.keystoreFile := Some(sealer.seal(k, iv, keys));
      keystore := Some(keys);
    }

    /** After loading, the cache holds what the manager's entries were; a missing or unreadable file has become an empty one. */
    method LoadKeystore(iv: Blob, random: string) returns (keys: seq<KeyEntry>)
      requires Valid() && Random(random)
      modifies this, disk
      ensures Valid() && keystore == Some(keys) && keys == old(Keys())
      ensures old(disk.masterKey).Some? ==> disk.masterKey == old(disk.masterKey)
    {
      if keystore.Some? {
        return keystore.value;
      }
      if disk.keystoreFile.None? {
        SaveKeystore([], iv, random);
        return [];
      }
      var k := GetOrCreateMasterKey(random);
      var plain := sealer.open(k, disk.keystoreFile.value);
      if plain.Some? {
        keystore := plain;
        return plain.value;
      }
      SaveKeystore([], iv, random);
      keys := [];
    }

    /** `entry` carries the key id to use if the id is new. */
    method AddKey(entry: KeyEntry, iv: Blob, random: string)
      requires Valid() && Random(random)
      modifies this, disk
      ensures Valid() && Keys() == Put(old(Keys()), entry)
      ensures View(Keys()) == View(old(Keys()))[entry.backupId := Stored(old(Keys()), entry)]
      ensures OnDisk() == Keys() && keystore.Some?
    {
      var keys := LoadKeystore(iv, random);
      PutIsUpdate(keys, entry);
      var index := IndexOf(keys, entry.backupId);
      if index != -1 {
        keys := keys[index := entry.(keyId := if keys[index].keyId != "" then keys[index].keyId else entry.keyId)];
      } else {
        keys := keys + [entry];
      }
      keystore := Some(keys);
      SaveKeystore(keys, iv, random);
    }

    method GetKey(id: BackupId, iv: Blob, random: string) returns (r: Option<KeyEntry>)
      requires Valid() && Random(random)
      modifies this, disk
      ensures Valid() && Keys() == old(Keys()) && keystore.Some?
      ensures old(disk.masterKey).Some? ==> disk.masterKey == old(disk.masterKey)
      ensures r == if id in View(Keys()) then Some(View(Keys())[id]) else None
    {
      var keys := LoadKeystore(iv, random);
      ViewIsFind(keys, id);
      r := Find(keys, id);
    }

    /** The file is rewritten only if something was removed. */
    method DeleteKey(id: BackupId, iv: Blob, random: string) returns (ok: bool)
      requires Valid() && Random(random)
      modifies this, disk
      ensures Valid() && View(Keys()) == View(old(Keys())) - {id}
      ensures ok <==> id in View(old(Keys()))
      ensures OnDisk() == Keys() && keystore.Some?
    {
      var keys := LoadKeystore(iv, random);
      WithoutIsRemoval(keys, id);
      var rest := Without(keys, id);
      ok := |rest| < |keys|;
      keystore := Some(rest);
      if ok {
        SaveKeystore(rest, iv, random);
        assert Keys() == rest;
      } else {
        WithoutNothing(keys, id);
        assert rest == keys;
      }
    }

    /** The entries sealed under a key drawn for this export, which becomes the import password. */
    method ExportKeystore(iv: Blob, random: string, tempKey: string, exportIv: Blob) returns (file: Blob)
      requires Valid() && Random(random)
      modifies this, disk
      ensures Valid() && Keys() == old(Keys())
      ensures sealer.open(tempKey, file) == Some(Keys())
    {
      var keys := LoadKeystore(iv, random);
      file := sealer.seal(tempKey, exportIv, keys);
    }

    static method MergeInto(keys: seq<KeyEntry>, imported: seq<KeyEntry>) returns (merged: seq<KeyEntry>)
      ensures merged == Merge(keys, imported)
    {
      merged := keys;
      for i := 0 to |imported|
        invariant Merge(merged, imported[i..]) == Merge(keys, imported)
      {
        var existing := Find(merged, imported[i].backupId);
        if existing.None? {
          merged := merged + [imported[i]];
        }
        assert imported[i..][1..] == imported[i + 1..];
      }
    }

    /** A wrong password changes nothing. Otherwise existing entries win and missing ones are added. */
    method ImportKeystore(file: Blob, password: string, iv: Blob, random: string) returns (r: Result<nat, ImportError>)
      requires Valid() && Random(random)
      modifies this, disk
      ensures Valid()
      ensures r.Failure? <==> sealer.open(password, file).None?
      ensures r.Failure? ==> Keys() == old(Keys()) && disk.keystoreFile == old(disk.keystoreFile)
      ensures r.Success? ==>
                var imported := sealer.open(password, file).value;
                && r.value == |imported|
                && View(Keys()) == View(imported) + View(old(Keys()))
                && (old(Keys()) == [] && Unique(imported) ==> Keys() == imported)
                && OnDisk() == Keys()
    {
      var plain := sealer.open(password, file);
      if plain.None? {
        return Failure(WrongPassword);
      }
      var imported := plain.value;
      var current := LoadKeystore(iv, random);
      MergeIsUnion(current, imported);
      if current == [] && Unique(imported) {
        assert current + imported == imported;
        MergeIntoEmpty(current, imported);
      }
      var merged := MergeInto(current, imported);
      SaveKeystore(merged, iv, random);
      r := Success(|imported|);
    }
  }

  lemma {:induction false} WithoutNothing(keys: seq<KeyEntry>, id: BackupId)
    requires |Without(keys, id)| >= |keys|
    ensures Without(keys, id) == keys
    decreases |keys|
  {
    if |keys| > 0 {
      WithoutIsNoLonger(keys[1..], id);
      WithoutNothing(keys[1..], id);
    }
  }

  lemma {:induction false} WithoutIsNoLonger(keys: seq<KeyEntry>, id: BackupId)
    ensures |Without(keys, id)| <= |keys|
    decreases |keys|
  {
    if |keys| > 0 {
      WithoutIsNoLonger(keys[1..], id);
    }
  }

  /** A manager started anew on the same disk answers every `getKey` like the running one. */
  method GetKeyAfterRestart(running: KeyManager, id: BackupId, iv: Blob, random: string)
    returns (restarted: KeyManager, r: Option<KeyEntry>)
    requires running.Valid() && running.Random(random)
    modifies running.disk
    ensures running.Valid() && running.Keys() == old(running.Keys())
    ensures restarted.Valid() && restarted.Keys() == running.Keys()
    ensures r == if id in View(running.Keys()) then Some(View(running.Keys())[id]) else None
  {
    restarted := new KeyManager(running.sealer, running.disk);
    r := restarted.GetKey(id, iv, random);
  }
}
