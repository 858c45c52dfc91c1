/**
 The PostgreSQL store of a view projection: one transaction applies an event's
 upserts, then its deletes, and records the consumer's position.
 */
module ProjectionStore {
  import opened Wrappers

  /** A key of one or two parts; other keys are refused. */
  type Key = seq<string>

  predicate ValidKey(key: Key) {
    |key| == 1 || |key| == 2
  }

  /** An upsert with its encoded value, or None where the value cannot be encoded. */
  datatype Upsert = Upsert(kind: string, key: Key, value: Option<string>)
  datatype Delete = Delete(kind: string, key: Key)
  datatype Reduction = Reduction(upserts: seq<Upsert>, deletes: seq<Delete>)
  datatype Change = Change(upserts: seq<Upsert>, deletes: seq<Delete>, version: int)

  datatype Entry = Entry(value: string, version: int)

  /** The two entry tables of a projection, for keys of one and of two parts. */
  datatype Tables = Tables(
    single: map<(string, string), Entry>,
    composite: map<(string, string, string), Entry>)

  const NO_ENTRIES := Tables(map[], map[])

  datatype Database = Database(tables: Tables, positions: map<string, int>)

  function Lookup(t: Tables, kind: string, key: Key): Option<Entry> {
    if |key| == 1 then
      if (kind, key[0]) in t.single then Some(t.single[(kind, key[0])]) else None
    else if |key| == 2 then
      if (kind, key[0], key[1]) in t.composite then Some(t.composite[(kind, key[0], key[1])]) else None
    else None
  }

  predicate Storable(u: Upsert) {
    u.value.Some? && ValidKey(u.key)
  }

  function Put(t: Tables, u: Upsert, version: int): Tables
    requires Storable(u)
  {
    if |u.key| == 1 then t.(single := t.single[(u.kind, u.key[0]) := Entry(u.value.value, version)])
    else t.(composite := t.composite[(u.kind, u.key[0], u.key[1]) := Entry(u.value.value, version)])
  }

  function Remove(t: Tables, d: Delete): Tables
    requires ValidKey(d.key)
  {
    if |d.key| == 1 then t.(single := t.single - {(d.kind, d.key[0])})
    else t.(composite := t.composite - {(d.kind, d.key[0], d.key[1])})
  }

  predicate ValidUpserts(us: seq<Upsert>) {
    forall i :: 0 <= i < |us| ==> Storable(us[i])
  }

  predicate ValidDeletes(ds: seq<Delete>) {
    forall i :: 0 <= i < |ds| ==> ValidKey(ds[i].key)
  }

  predicate Acceptable(r: Reduction) {
    ValidUpserts(r.upserts) && ValidDeletes(r.deletes)
  }

  function PutAll(t: Tables, us: seq<Upsert>, version: int): Tables
    requires ValidUpserts(us)
  {
    if us == [] then t else Put(PutAll(t, us[..|us| - 1], version), us[|us| - 1], version)
  }

  function RemoveAll(t: Tables, ds: seq<Delete>): Tables
    requires ValidDeletes(ds)
  {
    if ds == [] then t else Remove(RemoveAll(t, ds[..|ds| - 1]), ds[|ds| - 1])
  }

  function Apply(t: Tables, r: Reduction, version: int): Tables
    requires Acceptable(r)
  {
    RemoveAll(PutAll(t, r.upserts, version), r.deletes)
  }

  /** A missing result counts as an empty one. */
  function Effective(r: Option<Reduction>): Reduction {
    if r.Some? then r.value else Reduction([], [])
  }

  function StoredPosition(positions: map<string, int>, consumer: string): int {
    if consumer in positions then positions[consumer] else 0
  }

  /** A position is only ever raised. */
  function RaisePosition(positions: map<string, int>, consumer: string, eventID: int): map<string, int> {
    if consumer in positions && positions[consumer] > eventID then positions else positions[consumer := eventID]
  }

  function PersistTx(db: Database, consumer: string, r: Option<Reduction>, eventID: int): Database {
    if Acceptable(Effective(r)) then
      Database(Apply(db.tables, Effective(r), eventID), RaisePosition(db.positions, consumer, eventID))
    else db
  }

  /**
   An accepted persist leaves the consumer the larger of its stored position and the event's ID, and
   the others theirs; a refused one changes nothing.
   */
  lemma PersistPositions(db: Database, consumer: string, r: Option<Reduction>, eventID: int, other: string)
    ensures !Acceptable(Effective(r)) ==> PersistTx(db, consumer, r, eventID) == db
    ensures Acceptable(Effective(r)) ==>
      var positions := PersistTx(db, consumer, r, eventID).positions;
      && consumer in positions && positions[consumer] >= eventID
      && (consumer in db.positions ==> positions[consumer] >= db.positions[consumer])
      && (positions[consumer] == eventID || (consumer in db.positions && positions[consumer] == db.positions[consumer]))
      && (other != consumer ==>
            (other in positions <==> other in db.positions)
            && (other in positions ==> positions[other] == db.positions[other]))
  {
    hide Apply, Acceptable;
  }

  // What a reduction does to each entity.

  predicate Upserts(us: seq<Upsert>, kind: string, key: Key) {
    exists i :: 0 <= i < |us| && us[i].kind == kind && us[i].key == key
  }

  predicate Deletes(ds: seq<Delete>, kind: string, key: Key) {
    exists i :: 0 <= i < |ds| && ds[i].kind == kind && ds[i].key == key
  }

  /** The value of the last upsert of an entity. */
  function LastValue(us: seq<Upsert>, kind: string, key: Key): string
    requires ValidUpserts(us) && Upserts(us, kind, key)
  {
    var u := us[|us| - 1];
    if u.kind == kind && u.key == key then u.value.value
    else
      assert Upserts(us[..|us| - 1], kind, key) by {
        var i :| 0 <= i < |us| && us[i].kind == kind && us[i].key == key;
        assert us[..|us| - 1][i] == us[i];
      }
      LastValue(us[..|us| - 1], kind, key)
  }

  lemma PutMeaning(t: Tables, u: Upsert, version: int, kind: string, key: Key)
    requires Storable(u) && ValidKey(key)
    ensures Lookup(Put(t, u, version), kind, key) ==
            if u.kind == kind && u.key == key then Some(Entry(u.value.value, version)) else Lookup(t, kind, key)
  {
    if |key| == 1 && key != u.key {
      assert key == [key[0]];
    } else if |key| == 2 && key != u.key {
      assert key == [key[0], key[1]];
    }
  }

  lemma RemoveMeaning(t: Tables, d: Delete, kind: string, key: Key)
    requires ValidKey(d.key) && ValidKey(key)
    ensures Lookup(Remove(t, d), kind, key) == if d.kind == kind && d.key == key then None else Lookup(t, kind, key)
  {
    if |key| == 1 && key != d.key {
      assert key == [key[0]];
    } else if |key| == 2 && key != d.key {
      assert key == [key[0], key[1]];
    }
  }

  lemma {:induction false} PutAllMeaning(t: Tables, us: seq<Upsert>, version: int, kind: string, key: Key)
    requires ValidUpserts(us) && ValidKey(key)
    ensures Lookup(PutAll(t, us, version), kind, key) ==
            if Upserts(us, kind, key) then Some(Entry(LastValue(us, kind, key), version)) else Lookup(t, kind, key)
  {
    hide Lookup, Put;
    if us != [] {
      var n := |us| - 1;
      PutAllMeaning(t, us[..n], version, kind, key);
      PutMeaning(PutAll(t, us[..n], version), us[n], version, kind, key);
      if i :| 0 <= i < n && us[i].kind == kind && us[i].key == key {
        assert us[..n][i] == us[i];
      }
      if i :| 0 <= i < n && us[..n][i].kind == kind && us[..n][i].key == key {
        assert us[i] == us[..n][i];
      }
    }
  }

  lemma {:induction false} RemoveAllMeaning(t: Tables, ds: seq<Delete>, kind: string, key: Key)
    requires ValidDeletes(ds) && ValidKey(key)
    ensures Lookup(RemoveAll(t, ds), kind, key) == if Deletes(ds, kind, key) then None else Lookup(t, kind, key)
  {
    hide Lookup, Remove;
    if ds != [] {
      var n := |ds| - 1;
      RemoveAllMeaning(t, ds[..n], kind, key);
      RemoveMeaning(RemoveAll(t, ds[..n]), ds[n], kind, key);
      if i :| 0 <= i < n && ds[i].kind == kind && ds[i].key == key {
        assert ds[..n][i] == ds[i];
      }
      if i :| 0 <= i < n && ds[..n][i].kind == kind && ds[..n][i].key == key {
        assert ds[i] == ds[..n][i];
      }
    }
  }

  /** Entity by entity: a delete wins, then the last upsert, stamped with the event; the rest stays. */
  lemma ApplyMeaning(t: Tables, r: Reduction, version: int, kind: string, key: Key)
    requires Acceptable(r) && ValidKey(key)
    ensures Lookup(Apply(t, r, version), kind, key) ==
            if Deletes(r.deletes, kind, key) then None
            else if Upserts(r.upserts, kind, key) then Some(Entry(LastValue(r.upserts, kind, key), version))
            else Lookup(t, kind, key)
  {
    hide Lookup;
    PutAllMeaning(t, r.upserts, version, kind, key);
    RemoveAllMeaning(PutAll(t, r.upserts, version), r.deletes, kind, key);
  }

  class PGStore {
    var single: map<(string, string), Entry>
    var composite: map<(string, string, string), Entry>
    var positions: map<string, int>

    constructor ()
      ensures View() == Database(NO_ENTRIES, map[])
    {
      single := map[];
      composite := map[];
      positions := map[];
    }

    ghost function View(): Database
      reads this
    {
      Database(Tables(single, composite), positions)
    }

    method ApplyUpsert(u: Upsert, eventID: int) returns (ok: bool)
      modifies this
      ensures ok == Storable(u)
      ensures View() == if ok then Database(Put(old(View()).tables, u, eventID), old(positions)) else old(View())
    {
      if u.value == None {
        return false;
      }
      if |u.key| == 0 || |u.key| > 2 {
        return false;
      }
      if |u.key| == 1 {
        single := single[(u.kind, u.key[0]) := Entry(u.value.value, eventID)];
      } else {
        composite := composite[(u.kind, u.key[0], u.key[1]) := Entry(u.value.value, eventID)];
      }
      ok := true;
    }

    method ApplyDelete(d: Delete) returns (ok: bool)
      modifies this
      ensures ok == ValidKey(d.key)
      ensures View() == if ok then Database(Remove(old(View()).tables, d), old(positions)) else old(View())
    {
      if |d.key| == 0 || |d.key| > 2 {
        return false;
      }
      if |d.key| == 1 {
        single := single - {(d.kind, d.key[0])};
      } else {
        composite := composite - {(d.kind, d.key[0], d.key[1])};
      }
      ok := true;
    }

    /** Upserts first, then deletes, stopping at the first value or key that is refused. */
    method ApplyMutations(r: Reduction, eventID: int) returns (change: Option<Change>)
      modifies this
      ensures change == if Acceptable(r) then Some(Change(r.upserts, r.deletes, eventID)) else None
      ensures Acceptable(r) ==> View() == Database(Apply(old(View()).tables, r, eventID), old(positions))
    {
      hide Put, Remove;
      var upserts: seq<Upsert> := [];
      for i := 0 to |r.upserts|
        invariant upserts == r.upserts[..i] && ValidUpserts(r.upserts[..i])
        invariant View() == Database(PutAll(old(View()).tables, r.upserts[..i], eventID), old(positions))
      {
        var ok := ApplyUpsert(r.upserts[i], eventID);
        if !ok {
          return None;
        }
        upserts := upserts + [r.upserts[i]];
        assert r.upserts[..i + 1][..i] == r.upserts[..i];
      }
      assert r.upserts[..|r.upserts|] == r.upserts;
      ghost var put := PutAll(old(View()).tables, r.upserts, eventID);
      var deletes: seq<Delete> := [];
      for i := 0 to |r.deletes|
        invariant deletes == r.deletes[..i] && ValidDeletes(r.deletes[..i])
        invariant View() == Database(RemoveAll(put, r.deletes[..i]), old(positions))
      {
        var ok := ApplyDelete(r.deletes[i]);
        if !ok {
          return None;
        }
        deletes := deletes + [r.deletes[i]];
        assert r.deletes[..i + 1][..i] == r.deletes[..i];
      }
      assert r.deletes[..|r.deletes|] == r.deletes;
      change := Some(Change(upserts, deletes, eventID));
    }

    method WritePosition(consumer: string, eventID: int)
      modifies this
      ensures View() == Database(old(View()).tables, RaisePosition(old(positions), consumer, eventID))
    {
      if !(consumer in positions && positions[consumer] > eventID) {
        positions := positions[consumer := eventID];
      }
    }

    /** The whole transaction: everything or, on a refused value or key or a missing stream, nothing. */
    method Persist(streamFound: bool, consumer: string, result: Option<Reduction>, eventID: int) returns (change: Option<Change>)
      modifies this
      ensures change.Some? <==> streamFound && Acceptable(Effective(result))
      ensures change.Some? ==> change.value == Change(Effective(result).upserts, Effective(result).deletes, eventID)
      ensures View() == if streamFound then PersistTx(old(View()), consumer, result, eventID) else old(View())
    {
      hide Apply, Acceptable;
      var wasSingle, wasComposite, wasPositions := single, composite, positions;
      change := None;
      if streamFound {
        change := ApplyMutations(Effective(result), eventID);
        if change.Some? {
          WritePosition(consumer, eventID);
        }
      }
      if change.None? {
        single, composite, positions := wasSingle, wasComposite, wasPositions;
      }
    }
  }
}
