/**
 What a KeepAlive stream knows about the loss of its lock, and what that is worth.
 Releases are announced apart from the store, so an announcement can come too early
 for a stream that has yet to subscribe, or too late for a lock that is held again.
 */
module KeepAliveLosses {
  import opened LockTypes
  import opened ConsumerStore
  import opened KeepAlive

  /** The bound lock's release was announced, while the stream was bound, by the first `n` inputs. */
  ghost predicate AnnouncedWhileBound(sessions: seq<Session>, inputs: seq<Input>, n: nat, released: LockReleased)
    requires n <= |inputs| && n <= |sessions|
  {
    exists i :: 0 <= i < n && sessions[i].phase == Bound && inputs[i] == Announce(released)
  }

  /** Once bound, a stream stays with its lock. */
  lemma BoundStaysWithLock(s: Session, i: Input)
    requires Possible(s, i) && s.phase == Bound
    ensures Next(s, i).key == s.key && Next(s, i).holder == s.holder
    ensures Next(s, i).lost == (s.lost || i == Announce(LockReleased(s.key, s.holder)))
  {
    hide Execute, Releases, HeartbeatTx, ReleaseTx;
  }

  lemma UnboundLearnsNothing(s: Session, i: Input)
    requires Inv(s) && Possible(s, i) && s.phase != Bound && s.phase != Closed
    ensures !Next(s, i).lost
  {
    hide Execute, Releases, BeatStep, ReleaseStep;
  }

  lemma ClosedStaysClosed(s: Session, i: Input)
    requires Possible(s, i) && s.phase == Closed
    ensures Next(s, i).phase == Closed
  {
    hide Execute, Releases;
  }

  /**
   In every run a bound stream knows its lock to be lost if and only if a release of exactly
   that lock was announced since its subscription.
   */
  lemma {:induction false} LossKnownIff(sessions: seq<Session>, inputs: seq<Input>, n: nat)
    requires IsRun(sessions, inputs) && n < |sessions| && sessions[n].phase == Bound
    ensures sessions[n].lost <==> AnnouncedWhileBound(sessions, inputs, n, LockReleased(sessions[n].key, sessions[n].holder))
  {
    hide Next, Possible, Inv;
    if n > 0 {
      var s, i := sessions[n - 1], inputs[n - 1];
      assert Possible(s, i) && sessions[n] == Next(s, i);
      if s.phase == Bound {
        LossKnownIff(sessions, inputs, n - 1);
        BoundStaysWithLock(s, i);
      } else if s.phase == Closed {
        ClosedStaysClosed(s, i);
      } else {
        RunKeepsInv(sessions, inputs, n - 1);
        UnboundLearnsNothing(s, i);
        UnboundBefore(sessions, inputs, n - 1);
      }
    }
  }

  /** A stream that is not bound and not closed never was bound. */
  lemma {:induction false} UnboundBefore(sessions: seq<Session>, inputs: seq<Input>, n: nat)
    requires IsRun(sessions, inputs) && n < |sessions| && sessions[n].phase != Bound && sessions[n].phase != Closed
    ensures forall i :: 0 <= i <= n ==> sessions[i].phase != Bound
  {
    hide Next, Possible;
    if n > 0 {
      assert Possible(sessions[n - 1], inputs[n - 1]) && sessions[n] == Next(sessions[n - 1], inputs[n - 1]);
      PhasesGoForward(sessions[n - 1], inputs[n - 1]);
      UnboundBefore(sessions, inputs, n - 1);
    }
  }

  lemma PhasesGoForward(s: Session, i: Input)
    requires Possible(s, i)
    ensures s.phase == Bound || s.phase == Closed ==> Next(s, i).phase == Bound || Next(s, i).phase == Closed
  {
    hide Execute, Releases, HeartbeatTx, ReleaseTx;
  }

  /** A lock held by `holder`, and what happens to it while a bind is between its check and its subscription. */
  function RacingInputs(key: ConsumerKey, holder: string): seq<Input> {
    [Client(Bind(key, holder), true), Other(Release(key, holder), {}), Announce(LockReleased(key, holder)), Confirm(true)]
  }

  predicate Nameable(key: ConsumerKey, holder: string) {
    key.domain != "" && key.stream != "" && key.consumer != "" && holder != ""
  }

  /** The run of that race: the lock is released, the release announced, and the stream bound without knowing. */
  lemma ReleaseDuringBindGoesUnnoticed(s: Session, key: ConsumerKey, holder: string) returns (sessions: seq<Session>)
    requires IsStart(s) && Nameable(key, holder) && Active(s.store, key) && s.store.locks[key].holder == holder
    ensures IsRun(sessions, RacingInputs(key, holder)) && sessions[0] == s
    ensures
      var told := sessions[4];
      && told.phase == Bound && told.key == key && told.holder == holder
      && key !in told.store.locks && LockReleased(key, holder) in told.announced && !told.lost
  {
    var inputs := RacingInputs(key, holder);
    var s1 := Next(s, inputs[0]);
    var s2 := Next(s1, inputs[1]);
    var s3 := Next(s2, inputs[2]);
    assert s2.store != s1.store by {
      assert key in s1.store.locks && key !in s2.store.locks;
    }
    assert LockReleased(key, holder) in s2.owed;
    sessions := [s, s1, s2, s3, Next(s3, inputs[3])];
  }

  // What a loss notice says about the lock.

  ghost predicate Continues(s: Session, sessions: seq<Session>, inputs: seq<Input>) {
    && |sessions| == |inputs| + 1 && sessions[0] == s
    && forall i :: 0 <= i < |inputs| ==> Possible(sessions[i], inputs[i]) && sessions[i + 1] == Next(sessions[i], inputs[i])
  }

  /** The bound holder has a row for the bound lock. */
  predicate OwnLock(s: Session) {
    s.key in s.store.locks && s.store.locks[s.key].holder == s.holder
  }

  predicate Reacquires(i: Input, key: ConsumerKey, holder: string) {
    i.Other? && i.command.TryAcquire? && i.command.key == key && i.command.holder == holder
  }

  ghost predicate NoneReacquires(inputs: seq<Input>, key: ConsumerKey, holder: string) {
    forall i :: 0 <= i < |inputs| ==> !Reacquires(inputs[i], key, holder)
  }

  /** As long as its holder does not acquire again, a stream that knows of a loss has lost its lock. */
  ghost predicate LossMeansGone(s: Session) {
    forall sessions: seq<Session>, inputs: seq<Input>, n: nat ::
      && Continues(s, sessions, inputs) && NoneReacquires(inputs, s.key, s.holder)
      && n < |sessions| && sessions[n].phase == Bound && sessions[n].lost
      ==> !OwnLock(sessions[n])
  }

  /** A loss known or still to be announced is real. */
  predicate Truthful(s: Session) {
    s.lost || LockReleased(s.key, s.holder) in s.owed ==> !OwnLock(s)
  }

  /** A command of another client makes the lock the holder's own only by acquiring it, and owes its release only when it takes it away. */
  lemma OtherKeepsTruth(t: Tables, c: Command, swept: set<ConsumerKey>, key: ConsumerKey, holder: string)
    requires !(c.TryAcquire? && c.key == key && c.holder == holder)
    requires c.TryAcquire? ==> ValidSweep(t, c.key, swept)
    ensures
      var own := key in t.locks && t.locks[key].holder == holder;
      var t' := Execute(t, c, swept).0;
      var own' := key in t'.locks && t'.locks[key].holder == holder;
      (own' ==> own) && (LockReleased(key, holder) in Releases(t, c, swept) ==> !own')
  {
  }

  lemma ReleaseTakesLock(s: Session)
    ensures
      var t' := ReleaseTx(s.store, s.key, s.holder).0;
      && (s.key in t'.locks ==> s.key in s.store.locks && t'.locks[s.key] == s.store.locks[s.key])
      && (LockReleased(s.key, s.holder) in Releases(s.store, Release(s.key, s.holder), {}) ==> s.key !in t'.locks)
  {
  }

  lemma ClientKeepsTruth(s: Session, m: Message, sendOK: bool)
    requires s.phase == Bound && Truthful(s)
    ensures Truthful(ClientStep(s, m, sendOK))
  {
    match m
    case Beat(key, holder, position) =>
      hide HeartbeatTx;
    case ReleaseRequest =>
      ReleaseTakesLock(s);
      hide ReleaseTx, Releases;
    case _ =>
  }

  lemma StepKeepsTruth(s: Session, i: Input)
    requires (s.phase == Bound || s.phase == Closed) && Truthful(s) && Possible(s, i) && !Reacquires(i, s.key, s.holder)
    ensures
      var s' := Next(s, i);
      Truthful(s') && s'.key == s.key && s'.holder == s.holder && (s'.phase == Bound || s'.phase == Closed)
  {
    PhasesGoForward(s, i);
    match i
    case Client(m, sendOK) =>
      ClientKeepsTruth(s, m, sendOK);
      BoundStaysWithLock(s, i);
      hide ClientStep;
    case Other(c, swept) =>
      OtherKeepsTruth(s.store, c, swept, s.key, s.holder);
      hide Execute, Releases;
    case _ =>
      hide Execute, Releases, ClientStep;
  }

  lemma {:induction false} TruthLasts(s: Session, sessions: seq<Session>, inputs: seq<Input>, n: nat)
    requires s.phase == Bound && Truthful(s) && Continues(s, sessions, inputs) && NoneReacquires(inputs, s.key, s.holder)
    requires n < |sessions|
    ensures Truthful(sessions[n]) && sessions[n].key == s.key && sessions[n].holder == s.holder
    ensures sessions[n].phase == Bound || sessions[n].phase == Closed
  {
    hide Next, Possible, Truthful;
    if n > 0 {
      assert !Reacquires(inputs[n - 1], s.key, s.holder);
      TruthLasts(s, sessions, inputs, n - 1);
      StepKeepsTruth(sessions[n - 1], inputs[n - 1]);
    }
  }

  /**
   For a stream bound to its holder's lock: in every continuation without another acquisition
   by its holder a loss it knows of is real, if and only if no earlier release of the same
   lock is still to be announced.
   */
  lemma LossMeansGoneIff(s: Session)
    requires s.phase == Bound && !s.lost && OwnLock(s)
    ensures LossMeansGone(s) <==> LockReleased(s.key, s.holder) !in s.owed
  {
    var released := LockReleased(s.key, s.holder);
    if released in s.owed {
      var late := Announce(released);
      var sessions, inputs := [s, Next(s, late)], [late];
      assert Continues(s, sessions, inputs) && NoneReacquires(inputs, s.key, s.holder);
      assert sessions[1].phase == Bound && sessions[1].lost && OwnLock(sessions[1]);
    } else {
      hide Continues, NoneReacquires;
      forall sessions: seq<Session>, inputs: seq<Input>, n: nat |
        && Continues(s, sessions, inputs) && NoneReacquires(inputs, s.key, s.holder)
        && n < |sessions| && sessions[n].phase == Bound && sessions[n].lost
        ensures !OwnLock(sessions[n])
      {
        TruthLasts(s, sessions, inputs, n);
      }
    }
  }

  /** A release and a new acquisition before the bind, the release announced only after it. */
  function LateInputs(key: ConsumerKey, holder: string, ttl: int): seq<Input> {
    [Other(Release(key, holder), {}), Other(TryAcquire(key, holder, ttl), {}),
     Client(Bind(key, holder), true), Confirm(true), Announce(LockReleased(key, holder))]
  }

  /** The first half of that run: released and acquired again, with the release still to be announced. */
  lemma HeldAgain(s: Session, key: ConsumerKey, holder: string, ttl: int)
    requires IsStart(s) && Nameable(key, holder) && Active(s.store, key) && s.store.locks[key].holder == holder
    requires ttl >= LOCK_MINIMUM_TTL && StreamExists(s.store, key)
    ensures
      var s1 := Next(s, Other(Release(key, holder), {}));
      var s2 := Next(s1, Other(TryAcquire(key, holder, ttl), {}));
      && Possible(s, Other(Release(key, holder), {})) && Possible(s1, Other(TryAcquire(key, holder, ttl), {}))
      && IsStart(s2) && Active(s2.store, key) && s2.store.locks[key].holder == holder && LockReleased(key, holder) in s2.owed
  {
    hide BindStep, BeatStep, ReleaseStep, ClientStep;
    var s1 := Next(s, Other(Release(key, holder), {}));
    assert key in s.store.locks && key !in s1.store.locks;
    assert LockReleased(key, holder) in s1.owed;
  }

  /** The second half: bound to a lock in hand, and told of the old release. */
  lemma ToldOfOldRelease(s: Session, key: ConsumerKey, holder: string)
    requires IsStart(s) && Nameable(key, holder) && Active(s.store, key) && s.store.locks[key].holder == holder
    requires LockReleased(key, holder) in s.owed
    ensures
      var s1 := Next(s, Client(Bind(key, holder), true));
      var s2 := Next(s1, Confirm(true));
      var s3 := Next(s2, Announce(LockReleased(key, holder)));
      && Possible(s, Client(Bind(key, holder), true)) && Possible(s1, Confirm(true)) && Possible(s2, Announce(LockReleased(key, holder)))
      && s3.phase == Bound && s3.lost && OwnLock(s3) && Active(s3.store, key)
  {
    hide Execute, Releases, BeatStep, ReleaseStep;
  }

  /** The run of a late announcement: the stream believes a lock lost that its holder has. */
  lemma LateAnnouncementRun(s: Session, key: ConsumerKey, holder: string, ttl: int) returns (sessions: seq<Session>)
    requires IsStart(s) && Nameable(key, holder) && Active(s.store, key) && s.store.locks[key].holder == holder
    requires ttl >= LOCK_MINIMUM_TTL && StreamExists(s.store, key)
    ensures IsRun(sessions, LateInputs(key, holder, ttl)) && sessions[0] == s
    ensures sessions[5].phase == Bound && sessions[5].lost && OwnLock(sessions[5]) && Active(sessions[5].store, key)
  {
    hide Next, Possible;
    var inputs := LateInputs(key, holder, ttl);
    var s1 := Next(s, inputs[0]);
    var s2 := Next(s1, inputs[1]);
    HeldAgain(s, key, holder, ttl);
    var s3 := Next(s2, inputs[2]);
    var s4 := Next(s3, inputs[3]);
    ToldOfOldRelease(s2, key, holder);
    sessions := [s, s1, s2, s3, s4, Next(s4, inputs[4])];
  }
}
