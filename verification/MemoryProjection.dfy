/**
 The in-memory store of a view projection, and how far it agrees with the PostgreSQL one.
 Values are encoded while they are written, so a value that cannot be encoded leaves the
 upserts before it in the store.
 */
module MemoryProjection {
  import opened Wrappers
  import opened ProjectionStore

  type Entities = map<(string, Key), Entry>

  predicate Encoded(us: seq<Upsert>) {
    forall i :: 0 <= i < |us| ==> us[i].value.Some?
  }

  predicate KeysValid(r: Reduction) {
    && (forall i :: 0 <= i < |r.upserts| ==> ValidKey(r.upserts[i].key))
    && (forall i :: 0 <= i < |r.deletes| ==> ValidKey(r.deletes[i].key))
  }

  /** How many upserts come before the first whose value cannot be encoded. */
  function EncodedFirst(us: seq<Upsert>): (n: nat)
    ensures n <= |us| && Encoded(us[..n]) && (n < |us| ==> us[n].value == None)
  {
    if us == [] || us[0].value == None then 0
    else
      var n := EncodedFirst(us[1..]);
      assert us[..n + 1] == [us[0]] + us[1..][..n];
      n + 1
  }

  function PutEntities(m: Entities, us: seq<Upsert>, version: int): Entities
    requires Encoded(us)
  {
    if us == [] then m
    else
      var u := us[|us| - 1];
      PutEntities(m, us[..|us| - 1], version)[(u.kind, u.key) := Entry(u.value.value, version)]
  }

  function RemoveEntities(m: Entities, ds: seq<Delete>): Entities {
    if ds == [] then m
    else RemoveEntities(m, ds[..|ds| - 1]) - {(ds[|ds| - 1].kind, ds[|ds| - 1].key)}
  }

  function Reduce(m: Entities, r: Reduction, version: int): Entities
    requires Encoded(r.upserts)
  {
    RemoveEntities(PutEntities(m, r.upserts, version), r.deletes)
  }

  function Find(m: Entities, kind: string, key: Key): Option<Entry> {
    if (kind, key) in m then Some(m[(kind, key)]) else None
  }

  lemma AcceptableMeans(r: Reduction)
    ensures Acceptable(r) <==> KeysValid(r) && Encoded(r.upserts)
    ensures Encoded(r.upserts) <==> EncodedFirst(r.upserts) == |r.upserts|
  {
    var n := EncodedFirst(r.upserts);
    if n == |r.upserts| {
      assert r.upserts[..n] == r.upserts;
    }
  }

  /** What the store holds after a persist: nothing is undone when a value fails to encode. */
  function Persisted(m: Entities, r: Reduction, version: int): Entities {
    AcceptableMeans(r);
    if Acceptable(r) then Reduce(m, r, version)
    else if KeysValid(r) then PutEntities(m, r.upserts[..EncodedFirst(r.upserts)], version)
    else m
  }

  class MemoryStore {
    var entities: Entities
    var version: int

    constructor ()
      ensures entities == map[] && version == 0
    {
      entities := map[];
      version := 0;
    }

    /** Writes upserts until one whose value cannot be encoded. */
    method WriteUpserts(us: seq<Upsert>, eventID: int) returns (ok: bool)
      modifies this`entities
      ensures ok == Encoded(us)
      ensures entities == PutEntities(old(entities), us[..EncodedFirst(us)], eventID)
    {
      hide EncodedFirst;
      for i := 0 to |us|
        invariant Encoded(us[..i]) && entities == PutEntities(old(entities), us[..i], eventID)
      {
        if us[i].value == None {
          return false;
        }
        entities := entities[(us[i].kind, us[i].key) := Entry(us[i].value.value, eventID)];
        assert us[..i + 1][..i] == us[..i];
      }
      NeverStops(us);
      ok := true;
    }

    method RemoveDeleted(ds: seq<Delete>)
      modifies this`entities
      ensures entities == RemoveEntities(old(entities), ds)
    {
      for i := 0 to |ds|
        invariant entities == RemoveEntities(old(entities), ds[..i])
      {
        entities := entities - {(ds[i].kind, ds[i].key)};
        assert ds[..i + 1][..i] == ds[..i];
      }
      assert ds[..|ds|] == ds;
    }

    /** All keys are validated before anything is written; values are encoded one by one as they are written. */
    method Persist(result: Option<Reduction>, eventID: int) returns (change: Option<Change>)
      modifies this
      ensures change == if Acceptable(Effective(result))
                        then Some(Change(Effective(result).upserts, Effective(result).deletes, eventID)) else None
      ensures entities == Persisted(old(entities), Effective(result), eventID)
      ensures version == if change.Some? then eventID else old(version)
    {
      hide PutEntities, RemoveEntities, EncodedFirst, Acceptable;
      var r := Effective(result);
      AcceptableMeans(r);
      var valid := ValidateReduceResult(r);
      if !valid {
        return None;
      }
      var ok := WriteUpserts(r.upserts, eventID);
      if !ok {
        return None;
      }
      assert r.upserts[..|r.upserts|] == r.upserts;
      RemoveDeleted(r.deletes);
      version := eventID;
      change := Some(Change(r.upserts, r.deletes, eventID));
    }
  }

  lemma NeverStops(us: seq<Upsert>)
    requires Encoded(us[..|us|])
    ensures Encoded(us) && EncodedFirst(us) == |us| && us[..|us|] == us
  {
    hide EncodedFirst;
    assert us[..|us|] == us;
    var n := EncodedFirst(us);
  }

  method ValidateReduceResult(r: Reduction) returns (valid: bool)
    ensures valid == KeysValid(r)
  {
    for i := 0 to |r.upserts|
      invariant forall k :: 0 <= k < i ==> ValidKey(r.upserts[k].key)
    {
      if |r.upserts[i].key| == 0 || |r.upserts[i].key| > 2 {
        return false;
      }
    }
    for i := 0 to |r.deletes|
      invariant forall k :: 0 <= k < |r.upserts| ==> ValidKey(r.upserts[k].key)
      invariant forall k :: 0 <= k < i ==> ValidKey(r.deletes[k].key)
    {
      if |r.deletes[i].key| == 0 || |r.deletes[i].key| > 2 {
        return false;
      }
    }
    valid := true;
  }

  /** Some upserts are written before one whose value cannot be encoded. */
  predicate Halfway(r: Reduction) {
    KeysValid(r) && 0 < EncodedFirst(r.upserts) < |r.upserts|
  }

  /** The last upsert that is written before the failure is there afterwards, under the event's version. */
  lemma HalfwayIsVisible(m: Entities, r: Reduction, version: int)
    requires Halfway(r)
    ensures
      var u := r.upserts[EncodedFirst(r.upserts) - 1];
      !Acceptable(r) && u.value.Some? && ValidKey(u.key) && Find(Persisted(m, r, version), u.kind, u.key) == Some(Entry(u.value.value, version))
  {
    AcceptableMeans(r);
    var n := EncodedFirst(r.upserts);
    assert r.upserts[..n][n - 1] == r.upserts[n - 1];
  }

  lemma NotHalfwayIsClean(m: Entities, r: Reduction, version: int)
    requires !Halfway(r)
    ensures Persisted(m, r, version) == if Acceptable(r) then Reduce(m, r, version) else m
  {
    AcceptableMeans(r);
    if KeysValid(r) && !Acceptable(r) {
      assert r.upserts[..0] == [];
    }
  }

  /** Whatever the store holds, the reduction is persisted wholly or not at all. */
  ghost predicate AllOrNothing(r: Reduction, version: int) {
    forall m: Entities :: Acceptable(r) || Persisted(m, r, version) == m
  }

  /** The in-memory store persists a reduction wholly or not at all if and only if no value fails after another was written. */
  lemma AllOrNothingIff(r: Reduction, version: int)
    ensures AllOrNothing(r, version) <==> !Halfway(r)
  {
    if Halfway(r) {
      HalfwayIsVisible(map[], r, version);
      assert Persisted(map[], r, version) != map[];
    } else {
      forall m: Entities
        ensures Acceptable(r) || Persisted(m, r, version) == m
      {
        NotHalfwayIsClean(m, r, version);
      }
    }
  }

  /** Both stores answer alike. */
  ghost predicate Alike(m: Entities, t: Tables) {
    forall kind: string, key: Key :: ValidKey(key) ==> Find(m, kind, key) == Lookup(t, kind, key)
  }

  lemma {:induction false} PutsAlike(m: Entities, t: Tables, us: seq<Upsert>, version: int)
    requires Alike(m, t) && ValidUpserts(us)
    ensures Encoded(us) && Alike(PutEntities(m, us, version), PutAll(t, us, version))
  {
    hide Lookup, Put;
    if us != [] {
      var n := |us| - 1;
      PutsAlike(m, t, us[..n], version);
      forall kind: string, key: Key | ValidKey(key)
        ensures Find(PutEntities(m, us, version), kind, key) == Lookup(PutAll(t, us, version), kind, key)
      {
        PutMeaning(PutAll(t, us[..n], version), us[n], version, kind, key);
      }
    }
  }

  lemma {:induction false} RemovesAlike(m: Entities, t: Tables, ds: seq<Delete>)
    requires Alike(m, t) && ValidDeletes(ds)
    ensures Alike(RemoveEntities(m, ds), RemoveAll(t, ds))
  {
    hide Lookup, Remove;
    if ds != [] {
      var n := |ds| - 1;
      RemovesAlike(m, t, ds[..n]);
      forall kind: string, key: Key | ValidKey(key)
        ensures Find(RemoveEntities(m, ds), kind, key) == Lookup(RemoveAll(t, ds), kind, key)
      {
        RemoveMeaning(RemoveAll(t, ds[..n]), ds[n], kind, key);
      }
    }
  }

  /** Applied to like stores, a reduction both accept leaves like stores. */
  lemma ReductionsAgree(m: Entities, t: Tables, r: Reduction, version: int)
    requires Alike(m, t) && Acceptable(r)
    ensures Encoded(r.upserts) && Alike(Reduce(m, r, version), Apply(t, r, version))
  {
    hide Alike;
    PutsAlike(m, t, r.upserts, version);
    RemovesAlike(PutEntities(m, r.upserts, version), PutAll(t, r.upserts, version), r.deletes);
  }

  /** The PostgreSQL tables after a persist: rolled back unless everything is accepted. */
  function Committed(t: Tables, r: Reduction, version: int): Tables {
    if Acceptable(r) then Apply(t, r, version) else t
  }

  /** Like stores are still alike after the reduction, whatever they hold. */
  ghost predicate StaysAlike(r: Reduction, version: int) {
    forall m: Entities, t: Tables :: Alike(m, t) ==> Alike(Persisted(m, r, version), Committed(t, r, version))
  }

  /** The two stores stay alike through a reduction if and only if it does not fail halfway. */
  lemma StoresAgreeIff(r: Reduction, version: int)
    ensures StaysAlike(r, version) <==> !Halfway(r)
  {
    hide Alike, Persisted, Reduce, Apply;
    if Halfway(r) {
      EmptyIsAlike();
      HalfwayIsVisible(map[], r, version);
      var u := r.upserts[EncodedFirst(r.upserts) - 1];
      NotAlike(Persisted(map[], r, version), Committed(NO_ENTRIES, r, version), u.kind, u.key);
    } else {
      forall m: Entities, t: Tables | Alike(m, t)
        ensures Alike(Persisted(m, r, version), Committed(t, r, version))
      {
        NotHalfwayIsClean(m, r, version);
        if Acceptable(r) {
          ReductionsAgree(m, t, r, version);
        }
      }
    }
  }

  lemma EmptyIsAlike()
    ensures Alike(map[], NO_ENTRIES)
  {
  }

  lemma NotAlike(m: Entities, t: Tables, kind: string, key: Key)
    requires ValidKey(key) && Find(m, kind, key) != Lookup(t, kind, key)
    ensures !Alike(m, t)
  {
  }

  /** What a persist writes bears the event's version; the rest is as before. */
  lemma PersistedVersions(m: Entities, r: Reduction, version: int, k: (string, Key))
    requires k in Persisted(m, r, version)
    ensures Persisted(m, r, version)[k].version == version || (k in m && Persisted(m, r, version)[k] == m[k])
  {
    AcceptableMeans(r);
    if Acceptable(r) {
      RemoveKeeps(PutEntities(m, r.upserts, version), r.deletes, k);
      PutVersions(m, r.upserts, version, k);
    } else if KeysValid(r) {
      PutVersions(m, r.upserts[..EncodedFirst(r.upserts)], version, k);
    }
  }

  lemma {:induction false} RemoveKeeps(m: Entities, ds: seq<Delete>, k: (string, Key))
    requires k in RemoveEntities(m, ds)
    ensures k in m && RemoveEntities(m, ds)[k] == m[k]
  {
    if ds != [] {
      RemoveKeeps(m, ds[..|ds| - 1], k);
    }
  }

  lemma {:induction false} PutVersions(m: Entities, us: seq<Upsert>, version: int, k: (string, Key))
    requires Encoded(us) && k in PutEntities(m, us, version)
    ensures PutEntities(m, us, version)[k].version == version || (k in m && PutEntities(m, us, version)[k] == m[k])
  {
    if us != [] {
      var n := |us| - 1;
      if k != (us[n].kind, us[n].key) {
        PutVersions(m, us[..n], version, k);
      }
    }
  }
}
