/** The default flag of storage locations: every handler first clears all flags and then sets one, without a transaction. */
module StorageDefaults {
  import opened Wrappers

  type Id = string

  datatype Row = Row(name: string, kind: string, enabled: bool, isDefault: bool)

  type Rows = map<Id, Row>

  function Defaults(rows: Rows): set<Id> {
    set id | id in rows && rows[id].isDefault
  }

  function Cleared(rows: Rows): Rows {
    map id | id in rows :: rows[id].(isDefault := false)
  }

  lemma ClearedHasNone(rows: Rows)
    ensures Defaults(Cleared(rows)) == {} && Cleared(rows).Keys == rows.Keys
  {
  }

  lemma FlagsAfterSet(rows: Rows, id: Id, row: Row)
    ensures Defaults(rows[id := row]) == (if row.isDefault then Defaults(rows) + {id} else Defaults(rows) - {id})
  {
  }

  /** Row by id, otherwise by name. */
  ghost predicate Names(rows: Rows, idOrName: string, id: Id) {
    id in rows && (id == idOrName || (idOrName !in rows && rows[id].name == idOrName))
  }

  // ---------- One request at a time ----------

  datatype Error = NotFound | Invalid | Conflict

  /** The table when a request that makes a row the default has cleared the flags. */
  function AfterClearing(rows: Rows, makesDefault: bool): Rows {
    if makesDefault then Cleared(rows) else rows
  }

  predicate NameTaken(rows: Rows, name: string) {
    exists i :: i in rows && rows[i].name == name
  }

  predicate UniqueNames(rows: Rows) {
    forall i, j :: i in rows && j in rows && rows[i].name == rows[j].name ==> i == j
  }

  /** Every row but `id` keeps its columns, apart from the flag, which it loses if the request makes a row the default. */
  predicate OthersKept(before: Rows, after: Rows, id: Id, makesDefault: bool) {
    && before.Keys - {id} == after.Keys - {id}
    && forall i :: i in before && i != id ==>
         && i in after && after[i].name == before[i].name && after[i].kind == before[i].kind && after[i].enabled == before[i].enabled
         && after[i].isDefault == (before[i].isDefault && !makesDefault)
  }

  datatype Patch = Patch(name: Option<string>, kind: Option<string>, enabled: Option<bool>, isDefault: Option<bool>)

  /** Columns that are sent are taken over, the others stay. */
  predicate ColumnsFollow(was: Row, p: Patch, now: Row) {
    && (if p.name.Some? then Some(now.name) == p.name else now.name == was.name)
    && (if p.kind.Some? then Some(now.kind) == p.kind else now.kind == was.kind)
    && (if p.enabled.Some? then Some(now.enabled) == p.enabled else now.enabled == was.enabled)
    && (if p.isDefault.Some? then Some(now.isDefault) == p.isDefault else now.isDefault == was.isDefault)
  }

  lemma PatchFollows(rows: Rows, id: Id, p: Patch)
    requires id in rows
    ensures var cleared := AfterClearing(rows, p.isDefault == Some(true));
            id in cleared && ColumnsFollow(rows[id], p, Patched(cleared[id], p))
  {
  }

  lemma SettingKeepsOthers(rows: Rows, id: Id, row: Row, makesDefault: bool)
    ensures OthersKept(rows, AfterClearing(rows, makesDefault)[id := row], id, makesDefault)
    ensures OthersKept(rows, AfterClearing(rows, makesDefault), id, makesDefault)
  {
  }

  function Patched(row: Row, p: Patch): Row {
    Row(if p.name.Some? then p.name.value else row.name,
        if p.kind.Some? then p.kind.value else row.kind,
        if p.enabled.Some? then p.enabled.value else row.enabled,
        if p.isDefault.Some? then p.isDefault.value else row.isDefault)
  }

  class MetadataService {
    var rows: Rows

    constructor ()
      ensures rows == map[]
    {
      rows := map[];
    }

    /** Names are unique in the table, so at most one row has a given name. */
    ghost predicate Valid()
      reads this
    {
      UniqueNames(rows)
    }

    /** The unique row of that name. */
    method FindName(name: string) returns (id: Option<Id>)
      ensures id.Some? ==> id.value in rows && rows[id.value].name == name
      ensures id.None? <==> !NameTaken(rows, name)
    {
      var left := rows.Keys;
      while left != {}
        invariant left <= rows.Keys
        invariant forall i :: i in rows && i !in left ==> rows[i].name != name
        decreases left
      {
        var i :| i in left;
        if rows[i].name == name {
          return Some(i);
        }
        left := left - {i};
      }
      id := None;
    }

    method FindRow(idOrName: string) returns (id: Option<Id>)
      ensures id.Some? ==> Names(rows, idOrName, id.value)
      ensures id.None? <==> idOrName !in rows && forall i :: i in rows ==> rows[i].name != idOrName
    {
      if idOrName in rows {
        assert Names(rows, idOrName, idOrName);
        return Some(idOrName);
      }
      id := FindName(idOrName);
      assert id.Some? ==> Names(rows, idOrName, id.value);
    }

    /** Upsert by name; `newId` is the id a created row would get. The flags are cleared before anything else
        can fail: a request refused because its id is taken leaves no default at all. */
    method PostStorage(name: string, kind: string, enabled: bool, isDefault: bool, newId: Id) returns (r: Result<Id, Error>)
      requires Valid()
      modifies this
      ensures Valid()
      ensures r.Success? <==> name != "" && kind != "" && (NameTaken(old(rows), name) || newId !in old(rows))
      ensures name == "" || kind == "" ==> r == Failure(Invalid) && rows == old(rows)
      ensures name != "" && kind != "" && r.Failure? ==> r == Failure(Conflict) && rows == AfterClearing(old(rows), isDefault)
      ensures r.Success? ==>
                && (if NameTaken(old(rows), name) then r.value in old(rows) && old(rows)[r.value].name == name else r.value == newId)
                && rows == AfterClearing(old(rows), isDefault)[r.value := Row(name, kind, enabled, isDefault)]
      ensures name != "" && kind != "" && isDefault ==> Defaults(rows) == if r.Success? then {r.value} else {}
      ensures r.Success? ==> OthersKept(old(rows), rows, r.value, isDefault)
    {
      if name == "" || kind == "" {
        return Failure(Invalid);
      }
      if isDefault {
        ClearedHasNone(rows);
        rows := Cleared(rows);
      }
      var id := FindName(name);
      if id.None? {
        if newId in rows {
          return Failure(Conflict);
        }
        id := Some(newId);
      }
      FlagsAfterSet(rows, id.value, Row(name, kind, enabled, isDefault));
      rows := rows[id.value := Row(name, kind, enabled, isDefault)];
      r := Success(id.value);
    }

    /** The flags are cleared before the row is looked up: making an unknown id the default leaves no default. */
    method PatchStorage(id: Id, p: Patch) returns (r: Result<Id, Error>)
      requires Valid()
      modifies this
      ensures Valid()
      ensures r == if id !in old(rows) then Failure(NotFound)
                   else if p.name.Some? && p.name.value != old(rows)[id].name && NameTaken(old(rows), p.name.value) then Failure(Conflict)
                   else Success(id)
      ensures rows == if r.Success? then AfterClearing(old(rows), p.isDefault == Some(true))[id := Patched(AfterClearing(old(rows), p.isDefault == Some(true))[id], p)]
                      else AfterClearing(old(rows), p.isDefault == Some(true))
      ensures p.isDefault == Some(true) ==> Defaults(rows) == if r.Success? then {id} else {}
      ensures OthersKept(old(rows), rows, id, p.isDefault == Some(true))
      ensures r.Success? ==>
                ColumnsFollow(old(rows)[id], p, rows[id])
    {
      if id in rows {
        PatchFollows(rows, id, p);
        SettingKeepsOthers(rows, id, Patched(AfterClearing(rows, p.isDefault == Some(true))[id], p), p.isDefault == Some(true));
      }
      if p.isDefault == Some(true) {
        ClearedHasNone(rows);
        rows := Cleared(rows);
      }
      if id !in rows {
        return Failure(NotFound);
      }
      if p.name.Some? && p.name.value != rows[id].name {
        var other := FindName(p.name.value);
        if other.Some? {
          return Failure(Conflict);
        }
      }
      FlagsAfterSet(rows, id, Patched(rows[id], p));
      rows := rows[id := Patched(rows[id], p)];
      r := Success(id);
    }

    /** Looks the row up first, so an unknown name changes nothing; a known one becomes the only default. */
    method SetDefault(idOrName: string) returns (r: Result<Id, Error>)
      modifies this
      ensures r.Failure? <==> idOrName !in old(rows) && forall i :: i in old(rows) ==> old(rows)[i].name != idOrName
      ensures r.Failure? ==> rows == old(rows)
      ensures r.Success? ==> r.value in old(rows) && (if idOrName in old(rows) then r.value == idOrName else old(rows)[r.value].name == idOrName)
      ensures r.Success? ==> Defaults(rows) == {r.value}
      ensures r.Success? ==> rows == Cleared(old(rows))[r.value := old(rows)[r.value].(isDefault := true)]
      ensures r.Success? ==> OthersKept(old(rows), rows, r.value, true)
    {
      var id := FindRow(idOrName);
      if id.None? {
        return Failure(NotFound);
      }
      ClearedHasNone(rows);
      rows := Cleared(rows);
      FlagsAfterSet(rows, id.value, rows[id.value].(isDefault := true));
      rows := rows[id.value := rows[id.value].(isDefault := true)];
      r := Success(id.value);
    }

    method DeleteStorage(idOrName: string) returns (r: Result<Id, Error>)
      modifies this
      ensures r.Failure? <==> idOrName !in old(rows) && forall i :: i in old(rows) ==> old(rows)[i].name != idOrName
      ensures r.Failure? ==> rows == old(rows)
      ensures r.Success? ==> r.value in old(rows) && (if idOrName in old(rows) then r.value == idOrName else old(rows)[r.value].name == idOrName)
      ensures r.Success? ==> rows == old(rows) - {r.value}
      ensures Defaults(rows) <= Defaults(old(rows))
    {
      var id := FindRow(idOrName);
      if id.None? {
        return Failure(NotFound);
      }
      rows := rows - {id.value};
      r := Success(id.value);
    }

    /** Some enabled default, if there is one. */
    method GetDefault() returns (r: Option<Id>)
      ensures r.Some? ==> r.value in Defaults(rows) && rows[r.value].enabled
      ensures r.None? ==> forall i :: i in Defaults(rows) ==> !rows[i].enabled
    {
      var left := rows.Keys;
      while left != {}
        invariant left <= rows.Keys
        invariant forall i :: i in Defaults(rows) && i !in left ==> !rows[i].enabled
        decreases left
      {
        var i :| i in left;
        if rows[i].isDefault && rows[i].enabled {
          return Some(i);
        }
        left := left - {i};
      }
      r := None;
    }
  }

  // ---------- Overlapping requests ----------

  /** `begun` handlers have not cleared the flags yet, `cleared` ones have, and will set one next. */
  datatype State = State(rows: Rows, begun: nat, cleared: nat)

  /** `Put` is any write of a row without the flag, `Drop` a deletion. */
  datatype Event = Begin | Clear | Flag(id: Id, row: Row) | FlagFails | Put(id: Id, row: Row) | Drop(id: Id)

  predicate Enabled(s: State, e: Event, n: nat) {
    match e
    case Begin => s.begun + s.cleared < n
    case Clear => s.begun > 0
    case Flag(_, row) => s.cleared > 0 && row.isDefault
    case FlagFails => s.cleared > 0
    case Put(_, row) => !row.isDefault
    case Drop(_) => true
  }

  function Next(s: State, e: Event, n: nat): State
    requires Enabled(s, e, n)
  {
    match e
    case Begin => s.(begun := s.begun + 1)
    case Clear => State(Cleared(s.rows), s.begun - 1, s.cleared + 1)
    case Flag(id, row) => State(s.rows[id := row], s.begun, s.cleared - 1)
    case FlagFails => s.(cleared := s.cleared - 1)
    case Put(id, row) => s.(rows := s.rows[id := row])
    case Drop(id) => s.(rows := s.rows - {id})
  }

  predicate Runs(s: State, events: seq<Event>, n: nat, t: State)
    decreases |events|
  {
    if |events| == 0 then s == t
    else Enabled(s, events[0], n) && Runs(Next(s, events[0], n), events[1..], n, t)
  }

  lemma SmallerSet(a: set<Id>, b: set<Id>)
    requires a <= b
    ensures |a| <= |b|
  {
    if a != b {
      assert b == a + (b - a);
    }
  }

  ghost predicate Bounded(s: State, n: nat) {
    s.begun + s.cleared <= n && |Defaults(s.rows)| + s.cleared <= n
  }

  lemma StepStaysBounded(s: State, e: Event, n: nat)
    requires Bounded(s, n) && Enabled(s, e, n)
    ensures Bounded(Next(s, e, n), n)
  {
    match e
    case Clear => ClearedHasNone(s.rows);
    case Flag(id, row) => FlagsAfterSet(s.rows, id, row);
    case Put(id, row) =>
      FlagsAfterSet(s.rows, id, row);
      SmallerSet(Defaults(s.rows) - {id}, Defaults(s.rows));
    case Drop(id) => SmallerSet(Defaults(s.rows - {id}), Defaults(s.rows));
    case _ =>
  }

  /** With at most n overlapping default-setting requests, at most n locations are default; so when requests
      come one at a time (n = 1) there is at most one. */
  lemma {:induction false} DefaultsAreBounded(s: State, events: seq<Event>, n: nat, t: State)
    requires Runs(s, events, n, t) && Bounded(s, n)
    ensures |Defaults(t.rows)| <= n && Bounded(t, n)
    decreases |events|
  {
    if |events| > 0 {
      StepStaysBounded(s, events[0], n);
      DefaultsAreBounded(Next(s, events[0], n), events[1..], n, t);
    }
  }

  // ---------- The bound is attained ----------

  lemma {:induction false} RunsCompose(s: State, a: seq<Event>, m: State, b: seq<Event>, n: nat, t: State)
    requires Runs(s, a, n, m) && Runs(m, b, n, t)
    ensures Runs(s, a + b, n, t)
    decreases |a|
  {
    if |a| == 0 {
      assert a + b == b;
    } else {
      assert (a + b)[1..] == a[1..] + b;
      RunsCompose(Next(s, a[0], n), a[1..], m, b, n, t);
    }
  }

  lemma {:induction false} BeginAll(s: State, k: nat, n: nat) returns (events: seq<Event>)
    requires s.begun + s.cleared + k <= n
    ensures Runs(s, events, n, s.(begun := s.begun + k))
    decreases k
  {
    if k == 0 { return []; }
    var rest := BeginAll(s.(begun := s.begun + 1), k - 1, n);
    events := [Begin] + rest;
    assert events[1..] == rest;
  }

  lemma {:induction false} ClearAll(s: State, n: nat) returns (events: seq<Event>)
    requires s.rows == Cleared(s.rows)
    ensures Runs(s, events, n, State(s.rows, 0, s.cleared + s.begun))
    decreases s.begun
  {
    if s.begun == 0 { return []; }
    var rest := ClearAll(State(s.rows, s.begun - 1, s.cleared + 1), n);
    events := [Clear] + rest;
    assert events[1..] == rest;
  }

  /** Each of the rows `ids` gets the flag; those already flagged keep it. */
  lemma {:induction false} FlagAll(s: State, ids: seq<Id>, n: nat) returns (events: seq<Event>, t: State)
    requires s.cleared >= |ids| && s.begun == 0 && forall i :: 0 <= i < |ids| ==> ids[i] in s.rows
    ensures Runs(s, events, n, t) && t.rows.Keys == s.rows.Keys
    ensures Defaults(t.rows) == Defaults(s.rows) + (set i | 0 <= i < |ids| :: ids[i])
    ensures t.begun == 0 && t.cleared == s.cleared - |ids|
    decreases |ids|
  {
    if |ids| == 0 { return [], s; }
    var row := s.rows[ids[0]].(isDefault := true);
    FlagsAfterSet(s.rows, ids[0], row);
    var rest;
    rest, t := FlagAll(State(s.rows[ids[0] := row], 0, s.cleared - 1), ids[1..], n);
    events := [Flag(ids[0], row)] + rest;
    assert events[1..] == rest;
    assert (set i | 0 <= i < |ids| :: ids[i]) == {ids[0]} + (set i | 0 <= i < |ids[1..]| :: ids[1..][i]) by {
      forall i | 1 <= i < |ids| ensures ids[i] == ids[1..][i - 1] {}
      forall i | 0 <= i < |ids[1..]| ensures ids[1..][i] == ids[i + 1] {}
    }
  }

  /** n requests that all clear before any sets leave every one of their rows default, whatever the table held. */
  lemma OverlappingRequestsLeaveManyDefaults(rows: Rows, ids: seq<Id>) returns (events: seq<Event>, t: State)
    requires forall i :: 0 <= i < |ids| ==> ids[i] in rows
    requires |ids| > 0
    ensures Runs(State(rows, 0, 0), events, |ids|, t) && t.begun == 0 && t.cleared == 0
    ensures Defaults(t.rows) == set i | 0 <= i < |ids| :: ids[i]
  {
    var n := |ids|;
    var s := State(rows, 0, 0);
    var begins := BeginAll(s, n, n);
    ClearedHasNone(rows);
    var m := State(rows, n, 0);
    var one := State(Cleared(rows), n - 1, 1);
    assert Runs(m, [Clear], n, one) by { assert [Clear][1..] == []; }
    var clears := ClearAll(one, n);
    var flags;
    flags, t := FlagAll(State(Cleared(rows), 0, n), ids, n);
    RunsCompose(one, clears, State(Cleared(rows), 0, n), flags, n, t);
    RunsCompose(m, [Clear], one, clears + flags, n, t);
    RunsCompose(s, begins, m, [Clear] + (clears + flags), n, t);
    events := begins + ([Clear] + (clears + flags));
  }
}
