/**
 The two lock services agree: run side by side on the same commands and clock,
 they give the same verdicts and keep the same live leases and positions,
 although each forgets expired locks at its own times.
 */
module LockSimulation {
  import opened LockTypes
  import M = MemoryLeases
  import P = ConsumerStore

  predicate Live(now: int, heldUntil: int) {
    now < heldUntil
  }

  function AsRow(l: M.Lock): P.LockRow {
    P.LockRow(l.holder, l.acquiredAt, l.heartbeatAt, l.ttl, l.guaranteeUntil, l.heldUntil)
  }

  function LiveLeases(m: M.State): map<ConsumerKey, P.LockRow> {
    map k | k in m.locks && Live(m.now, m.locks[k].heldUntil) :: AsRow(m.locks[k])
  }

  function StoreLeases(p: P.Tables): map<ConsumerKey, P.LockRow> {
    map k | k in p.locks && Live(p.now, p.locks[k].heldUntil) :: p.locks[k]
  }

  ghost predicate Agree(m: M.State, p: P.Tables) {
    m.now == p.now && m.positions == p.positions && LiveLeases(m) == StoreLeases(p)
  }

  /** Same outcome; refusals may differ in the error and in the deadlines they report. */
  predicate SameVerdict(a: Reply, b: Reply) {
    match (a, b)
    case (Lease(x), Lease(y)) =>
      if x.acquired then x == y else !y.acquired && x.heldBy == y.heldBy && x.position == y.position
    case (Failed(e), Failed(f)) =>
      (e.HeartbeatConflict? || f.HeartbeatConflict? || e.BackwardPosition? || f.BackwardPosition?) ==> e == f
    case _ => a == b
  }

  predicate OffDeadline(m: M.State, p: P.Tables, key: ConsumerKey) {
    && (key in m.locks ==> m.locks[key].heldUntil != m.now)
    && (key in p.locks ==> p.locks[key].heldUntil != p.now)
  }

  /** A release carries no empty name, and what needs its stream finds it. */
  predicate WellPosed(p: P.Tables, c: Command) {
    && (c.Release? ==> c.key.domain != "" && c.key.stream != "" && c.key.consumer != "" && c.holder != "")
    && (c.TryAcquire? || c.SetPosition? ==> P.StreamExists(p, c.key))
  }

  /** A well-posed command, off the deadline of the lock it touches. */
  ghost predicate Comparable(m: M.State, p: P.Tables, c: Command, ms: set<ConsumerKey>, ps: set<ConsumerKey>) {
    && OffDeadline(m, p, c.key) && WellPosed(p, c)
    && (c.TryAcquire? ==> M.ValidSweep(m, c.key, ms) && P.ValidSweep(p, c.key, ps))
  }

  lemma LeaseIsShared(m: M.State, p: P.Tables, key: ConsumerKey)
    requires Agree(m, p)
    ensures key in m.locks && m.now < m.locks[key].heldUntil <==> P.Active(p, key)
    ensures P.Active(p, key) ==> p.locks[key] == AsRow(m.locks[key])
  {
    assert key in LiveLeases(m) <==> key in StoreLeases(p);
    if P.Active(p, key) {
      assert LiveLeases(m)[key] == StoreLeases(p)[key];
    }
  }

  lemma LeasesAgreeAt(m: M.State, p: P.Tables)
    requires forall k :: k in LiveLeases(m) <==> k in StoreLeases(p)
    requires forall k :: k in LiveLeases(m) ==> LiveLeases(m)[k] == StoreLeases(p)[k]
    ensures LiveLeases(m) == StoreLeases(p)
  {
  }

  lemma AcquireVerdicts(m: M.State, p: P.Tables, key: ConsumerKey, holder: string, ttl: int,
                        ms: set<ConsumerKey>, ps: set<ConsumerKey>)
    requires Agree(m, p) && Comparable(m, p, TryAcquire(key, holder, ttl), ms, ps)
    ensures SameVerdict(M.AcquireStep(m, key, holder, ttl, ms).1, P.AcquireTx(p, key, holder, ttl, ps).1)
    ensures ttl >= LOCK_MINIMUM_TTL ==> (M.Refused(m, key, holder) <==> !P.MayTake(p, key, holder))
  {
    LeaseIsShared(m, p, key);
    hide M.ValidSweep, P.ValidSweep;
  }

  /** The acquirer's own lease: new in both, or as before in both. */
  lemma AcquireOwnLease(m: M.State, p: P.Tables, key: ConsumerKey, holder: string, ttl: int,
                        ms: set<ConsumerKey>, ps: set<ConsumerKey>)
    requires Agree(m, p) && Comparable(m, p, TryAcquire(key, holder, ttl), ms, ps)
    ensures LeaseAgrees(M.AcquireStep(m, key, holder, ttl, ms).0, P.AcquireTx(p, key, holder, ttl, ps).0, key)
  {
    AcquireVerdicts(m, p, key, holder, ttl, ms, ps);
    LeaseIsShared(m, p, key);
    hide M.ValidSweep, P.ValidSweep, Agree, SameVerdict, M.StopTimers, M.TimersOf, M.Refused, P.MayTake;
  }

  /** What an acquisition leaves of another consumer's lock, in each service. */
  lemma AcquireOtherEffect(m: M.State, p: P.Tables, key: ConsumerKey, holder: string, ttl: int,
                           ms: set<ConsumerKey>, ps: set<ConsumerKey>, k: ConsumerKey)
    requires k != key
    ensures
      var m', p' := M.AcquireStep(m, key, holder, ttl, ms).0, P.AcquireTx(p, key, holder, ttl, ps).0;
      && m'.now == m.now && p'.now == p.now
      && (k in m'.locks ==> k in m.locks && m'.locks[k] == m.locks[k]) && (k in m.locks && k !in m'.locks ==> k in ms)
      && (k in p'.locks ==> k in p.locks && p'.locks[k] == p.locks[k]) && (k in p.locks && k !in p'.locks ==> k in ps)
  {
  }

  lemma AcquireOtherLease(m: M.State, p: P.Tables, key: ConsumerKey, holder: string, ttl: int,
                          ms: set<ConsumerKey>, ps: set<ConsumerKey>, k: ConsumerKey)
    requires Agree(m, p) && Comparable(m, p, TryAcquire(key, holder, ttl), ms, ps) && k != key
    ensures LeaseAgrees(M.AcquireStep(m, key, holder, ttl, ms).0, P.AcquireTx(p, key, holder, ttl, ps).0, k)
  {
    LeaseIsShared(m, p, k);
    AcquireOtherEffect(m, p, key, holder, ttl, ms, ps, k);
    hide M.AcquireStep, P.AcquireTx, M.ValidSweep, P.ValidSweep, Agree;
  }

  ghost predicate LeaseAgrees(m: M.State, p: P.Tables, k: ConsumerKey) {
    && (k in LiveLeases(m) <==> k in StoreLeases(p))
    && (k in LiveLeases(m) ==> LiveLeases(m)[k] == StoreLeases(p)[k])
  }

  lemma AcquireAgrees(m: M.State, p: P.Tables, key: ConsumerKey, holder: string, ttl: int,
                      ms: set<ConsumerKey>, ps: set<ConsumerKey>)
    requires Agree(m, p) && Comparable(m, p, TryAcquire(key, holder, ttl), ms, ps)
    ensures SameVerdict(M.AcquireStep(m, key, holder, ttl, ms).1, P.AcquireTx(p, key, holder, ttl, ps).1)
    ensures Agree(M.AcquireStep(m, key, holder, ttl, ms).0, P.AcquireTx(p, key, holder, ttl, ps).0)
  {
    var m', p' := M.AcquireStep(m, key, holder, ttl, ms).0, P.AcquireTx(p, key, holder, ttl, ps).0;
    AcquireVerdicts(m, p, key, holder, ttl, ms, ps);
    assert m'.now == p'.now && m'.positions == p'.positions;
    hide M.AcquireStep, P.AcquireTx, LiveLeases, StoreLeases, SameVerdict, Comparable;
    forall k
      ensures k in LiveLeases(m') <==> k in StoreLeases(p')
      ensures k in LiveLeases(m') ==> LiveLeases(m')[k] == StoreLeases(p')[k]
    {
      assert LeaseAgrees(m', p', k) by {
        if k == key {
          AcquireOwnLease(m, p, key, holder, ttl, ms, ps);
        } else {
          AcquireOtherLease(m, p, key, holder, ttl, ms, ps, k);
        }
      }
    }
    LeasesAgreeAt(m', p');
  }

  lemma HeartbeatAgrees(m: M.State, p: P.Tables, key: ConsumerKey, holder: string, position: int)
    requires Agree(m, p) && OffDeadline(m, p, key)
    ensures SameVerdict(M.HeartbeatStep(m, key, holder, position).1, P.HeartbeatTx(p, key, holder, position).1)
    ensures Agree(M.HeartbeatStep(m, key, holder, position).0, P.HeartbeatTx(p, key, holder, position).0)
  {
    var m', p' := M.HeartbeatStep(m, key, holder, position).0, P.HeartbeatTx(p, key, holder, position).0;
    LeaseIsShared(m, p, key);
    forall k
      ensures k in LiveLeases(m') <==> k in StoreLeases(p')
      ensures k in LiveLeases(m') ==> LiveLeases(m')[k] == StoreLeases(p')[k]
    {
      LeaseIsShared(m, p, k);
    }
    LeasesAgreeAt(m', p');
  }

  lemma ReleaseAgrees(m: M.State, p: P.Tables, key: ConsumerKey, holder: string)
    requires Agree(m, p) && OffDeadline(m, p, key) && WellPosed(p, Release(key, holder))
    ensures SameVerdict(M.ReleaseStep(m, key, holder).1, P.ReleaseTx(p, key, holder).1)
    ensures Agree(M.ReleaseStep(m, key, holder).0, P.ReleaseTx(p, key, holder).0)
  {
    var m', p' := M.ReleaseStep(m, key, holder).0, P.ReleaseTx(p, key, holder).0;
    LeaseIsShared(m, p, key);
    forall k
      ensures k in LiveLeases(m') <==> k in StoreLeases(p')
      ensures k in LiveLeases(m') ==> LiveLeases(m')[k] == StoreLeases(p')[k]
    {
      LeaseIsShared(m, p, k);
    }
    LeasesAgreeAt(m', p');
  }

  /** One command off its deadline: same verdict, and the services still agree. */
  lemma CommandsAgree(m: M.State, p: P.Tables, c: Command, ms: set<ConsumerKey>, ps: set<ConsumerKey>)
    requires Agree(m, p) && Comparable(m, p, c, ms, ps)
    ensures SameVerdict(M.ClientStep(m, c, ms).1, P.Execute(p, c, ps).1)
    ensures Agree(M.ClientStep(m, c, ms).0, P.Execute(p, c, ps).0)
  {
    match c
    case TryAcquire(key, holder, ttl) => AcquireAgrees(m, p, key, holder, ttl, ms, ps);
    case Heartbeat(key, holder, position) => HeartbeatAgrees(m, p, key, holder, position);
    case Release(key, holder) => ReleaseAgrees(m, p, key, holder);
    case Submit(key, _) => LeaseIsShared(m, p, key);
    case _ =>
      var m', p' := M.ClientStep(m, c, ms).0, P.Execute(p, c, ps).0;
      assert LiveLeases(m') == LiveLeases(m) && StoreLeases(p') == StoreLeases(p);
  }

  // At the deadline itself.

  /** The commands on which the services part at the deadline of a lock held by `owner`. */
  predicate PartsAtDeadline(owner: string, c: Command) {
    match c
    case Heartbeat(_, h, _) => h == owner
    case Submit(_, h) => h == owner
    case Release(_, h) => h != owner
    case TryAcquire(_, h, ttl) => h != owner && owner != "" && ttl >= LOCK_MINIMUM_TTL
    case _ => false
  }

  /**
   On a lock both services have alike, up to and at its deadline, they give different
   verdicts if and only if it is the instant of the deadline and the command is the owner's
   heartbeat or submission, or another's release or acquisition.
   */
  lemma VerdictsPartIff(m: M.State, p: P.Tables, c: Command, ms: set<ConsumerKey>, ps: set<ConsumerKey>)
    requires m.now == p.now && m.positions == p.positions
    requires M.Held(m, c.key) && c.key in p.locks && p.locks[c.key] == AsRow(m.locks[c.key])
    requires WellPosed(p, c)
    ensures SameVerdict(M.ClientStep(m, c, ms).1, P.Execute(p, c, ps).1)
            <==> !(m.now == m.locks[c.key].heldUntil && PartsAtDeadline(m.locks[c.key].holder, c))
  {
  }
}
