/**
 The KeepAlive stream: a client binds it to a lock it holds, then renews or releases
 that lock through it, and is told when the lock is released.
 */
module KeepAlive {
  import opened Wrappers
  import opened LockTypes
  import opened ConsumerStore

  datatype Message =
    | Bind(key: ConsumerKey, holder: string)
    | Beat(key: ConsumerKey, holder: string, position: int)
    | ReleaseRequest
    | Unexpected

  datatype Reason = Renewed | Expired | Stolen | Conflict(target: int, current: int)

  /** What the stream does that others can see: its notices, and its commands to the store. */
  datatype Act =
    | BoundTo(key: ConsumerKey, holder: string)
    | Status(reason: Reason)
    | ReleaseAck
    | LockLost
    | ToStore(command: Command, reply: Reply)

  datatype Phase = AwaitingBind | Binding | Bound | Closed

  /** The `owed` releases are still to be announced; `announced` and `acts` record the history. */
  datatype Session = Session(
    store: Tables, phase: Phase, key: ConsumerKey, holder: string, lost: bool,
    owed: multiset<LockReleased>, announced: set<LockReleased>, acts: seq<Act>)

  /** What can happen next: a message, the second half of a bind, a bus event, other clients, the clock, or the end. */
  datatype Input =
    | Client(message: Message, sendOK: bool)
    | Confirm(sendOK: bool)
    | TellLost(sendOK: bool)
    | Announce(released: LockReleased)
    | Other(command: Command, swept: set<ConsumerKey>)
    | Clock(time: int)
    | Hangup

  ghost predicate Possible(s: Session, i: Input) {
    match i
    case Client(_, _) => s.phase == AwaitingBind || s.phase == Bound
    case Confirm(_) => s.phase == Binding
    case TellLost(_) => s.phase == Bound && s.lost
    case Announce(r) => r in s.owed
    case Other(c, swept) => c.TryAcquire? ==> ValidSweep(s.store, c.key, swept)
    case Clock(time) => s.store.now <= time
    case Hangup => true
  }

  /** A lock that GetLock reports: present and not past its deadline. */
  predicate Reported(t: Tables, key: ConsumerKey) {
    key in t.locks && !(t.locks[key].heldUntil < t.now)
  }

  function Do(s: Session, acts: seq<Act>, phase: Phase): Session {
    s.(acts := s.acts + acts, phase := phase)
  }

  /** An act followed by its notice; a notice that cannot be sent ends the stream. */
  function Tell(s: Session, before: seq<Act>, notice: Act, sendOK: bool): Session {
    if sendOK then Do(s, before + [notice], s.phase) else Do(s, before, Closed)
  }

  function BindStep(s: Session, key: ConsumerKey, holder: string, sendOK: bool): Session {
    if key.domain == "" || key.stream == "" || key.consumer == "" || holder == "" then
      s.(phase := Closed)
    else
      var named := s.(key := key, holder := holder);
      if !Reported(s.store, key) then Do(named, if sendOK then [Status(Expired)] else [], Closed)
      else if s.store.locks[key].holder != holder then Do(named, if sendOK then [Status(Stolen)] else [], Closed)
      else named.(phase := Binding)
  }

  /** The status that answers a heartbeat, when the stream goes on. */
  function Verdict(reply: Reply): Option<Reason> {
    match reply
    case Done => Some(Renewed)
    case Failed(HeartbeatConflict(target, current)) => Some(Conflict(target, current))
    case Failed(LockExpired) => Some(Expired)
    case Failed(LockNotFound) => Some(Expired)
    case Failed(LockNotHeld) => Some(Stolen)
    case _ => None
  }

  function BeatStep(s: Session, key: ConsumerKey, holder: string, position: int, sendOK: bool): Session {
    if key != s.key then s.(phase := Closed)
    else if holder != s.holder then Tell(s, [], Status(Stolen), sendOK)
    else
      var (store, reply) := HeartbeatTx(s.store, key, holder, position);
      var asked := ToStore(Heartbeat(key, holder, position), reply);
      match Verdict(reply)
      case None => Do(s.(store := store), [asked], Closed)
      case Some(reason) => Tell(s.(store := store), [asked], Status(reason), sendOK)
  }

  function ReleaseStep(s: Session, sendOK: bool): Session {
    var c := Release(s.key, s.holder);
    var (store, reply) := ReleaseTx(s.store, s.key, s.holder);
    var after := s.(store := store, owed := s.owed + Releases(s.store, c, {}));
    if reply.Failed? then Do(after, [ToStore(c, reply)], Closed)
    else Tell(after, [ToStore(c, reply)], ReleaseAck, sendOK)
  }

  function ClientStep(s: Session, m: Message, sendOK: bool): Session {
    if s.phase == AwaitingBind then
      match m
      case Bind(key, holder) => BindStep(s, key, holder, sendOK)
      case _ => s.(phase := Closed)
    else
      match m
      case Beat(key, holder, position) => BeatStep(s, key, holder, position, sendOK)
      case ReleaseRequest => ReleaseStep(s, sendOK)
      case _ => s.(phase := Closed)
  }

  function Next(s: Session, i: Input): Session {
    match i
    case Client(m, sendOK) => ClientStep(s, m, sendOK)
    case Confirm(sendOK) => Do(s, if sendOK then [BoundTo(s.key, s.holder)] else [], if sendOK then Bound else Closed)
    case TellLost(sendOK) => Do(s, if sendOK then [LockLost] else [], Closed)
    case Announce(r) =>
      s.(owed := s.owed - multiset{r}, announced := s.announced + {r},
         lost := s.lost || (s.phase == Bound && r == LockReleased(s.key, s.holder)))
    case Other(c, swept) =>
      s.(store := Execute(s.store, c, swept).0, owed := s.owed + Releases(s.store, c, swept))
    case Clock(time) => s.(store := s.store.(now := time))
    case Hangup => s.(phase := Closed)
  }

  predicate IsStart(s: Session) {
    s.phase == AwaitingBind && !s.lost && s.acts == [] && s.announced == {}
  }

  ghost predicate IsRun(sessions: seq<Session>, inputs: seq<Input>) {
    && |sessions| == |inputs| + 1
    && IsStart(sessions[0])
    && forall i :: 0 <= i < |inputs| ==> Possible(sessions[i], inputs[i]) && sessions[i + 1] == Next(sessions[i], inputs[i])
  }

  // What the acts of a stream look like, in any order of events.

  /** Every command to the store follows a successful bind and names exactly what was bound. */
  ghost predicate CommandsFollowBind(acts: seq<Act>) {
    forall i :: 0 <= i < |acts| && acts[i].ToStore? ==>
      && (acts[i].command.Heartbeat? || acts[i].command.Release?)
      && exists j :: 0 <= j < i && acts[j] == BoundTo(acts[i].command.key, acts[i].command.holder)
  }

  predicate BoundOnce(acts: seq<Act>) {
    forall i, j :: 0 <= i < |acts| && 0 <= j < |acts| && acts[i].BoundTo? && acts[j].BoundTo? ==> i == j
  }

  predicate NothingAfterLoss(acts: seq<Act>) {
    forall i :: 0 <= i < |acts| && acts[i] == LockLost ==> i == |acts| - 1
  }

  /** Whatever follows a command is its own answer; so a release's ack comes before a loss notice. */
  ghost predicate AnsweredAtOnce(acts: seq<Act>) {
    forall i, j :: 0 <= i < j < |acts| && j == i + 1 && acts[i].ToStore? ==> Answers(acts[i], acts[j])
  }

  predicate Answers(asked: Act, answer: Act)
    requires asked.ToStore?
  {
    if asked.command.Release? then asked.reply == Done && answer == ReleaseAck
    else Verdict(asked.reply).Some? && answer == Status(Verdict(asked.reply).value)
  }

  /**
   A refused bind's only status is Expired or Stolen.  In a bound stream a status other than
   Stolen directly follows a heartbeat to the store with that outcome; so a status that follows
   no command is Stolen.
   */
  ghost predicate StatusesAnswer(acts: seq<Act>) {
    && (|acts| > 0 && acts[0].Status? ==> |acts| == 1 && (acts[0].reason == Expired || acts[0].reason == Stolen))
    && forall i :: 1 <= i < |acts| && acts[i].Status? && acts[i].reason != Stolen ==> Earned(acts[i - 1], acts[i].reason)
  }

  /** The act is a heartbeat to the store, and the status tells its outcome. */
  predicate Earned(asked: Act, reason: Reason) {
    && asked.ToStore? && asked.command.Heartbeat?
    && match reason
       case Renewed => asked.reply == Done
       case Expired => asked.reply == Failed(LockExpired) || asked.reply == Failed(LockNotFound)
       case Stolen => asked.reply == Failed(LockNotHeld)
       case Conflict(target, current) => asked.reply == Failed(HeartbeatConflict(target, current))
  }

  ghost predicate LossWasAnnounced(acts: seq<Act>, announced: set<LockReleased>) {
    forall i, j :: 0 <= i < |acts| && 0 <= j < |acts| && acts[i] == LockLost && acts[j].BoundTo?
      ==> LockReleased(acts[j].key, acts[j].holder) in announced
  }

  ghost predicate Protocol(s: Session) {
    && CommandsFollowBind(s.acts) && BoundOnce(s.acts) && NothingAfterLoss(s.acts)
    && AnsweredAtOnce(s.acts) && StatusesAnswer(s.acts) && LossWasAnnounced(s.acts, s.announced)
  }

  /** The acts of a bound stream so far: the bind, then commands and answers, none left open. */
  ghost predicate Open(acts: seq<Act>, key: ConsumerKey, holder: string) {
    && acts != [] && acts[0] == BoundTo(key, holder)
    && (forall i :: 1 <= i < |acts| ==> !acts[i].BoundTo? && acts[i] != LockLost)
    && (forall i :: 0 <= i < |acts| && acts[i].ToStore? ==>
          && (acts[i].command.Heartbeat? || acts[i].command.Release?)
          && acts[i].command.key == key && acts[i].command.holder == holder)
    && AnsweredAtOnce(acts) && StatusesAnswer(acts) && !acts[|acts| - 1].ToStore?
  }

  ghost predicate Inv(s: Session) {
    match s.phase
    case AwaitingBind => s.acts == [] && !s.lost
    case Binding => s.acts == [] && !s.lost
    case Bound => Open(s.acts, s.key, s.holder) && (s.lost ==> LockReleased(s.key, s.holder) in s.announced)
    case Closed => Protocol(s)
  }

  lemma OpenIsProtocol(s: Session)
    requires Open(s.acts, s.key, s.holder)
    ensures Protocol(s)
  {
  }

  /** A bound stream that ends with one more act. */
  lemma LastAct(s: Session, act: Act)
    requires Open(s.acts, s.key, s.holder)
    requires act.ToStore? ==> (act.command.Heartbeat? || act.command.Release?) && act.command.key == s.key && act.command.holder == s.holder
    requires act == LockLost ==> LockReleased(s.key, s.holder) in s.announced
    requires !act.BoundTo? && !act.Status?
    ensures Protocol(s.(acts := s.acts + [act]))
  {
    var acts := s.acts + [act];
    assert forall i :: 0 <= i < |s.acts| ==> acts[i] == s.acts[i];
    assert acts[0] == BoundTo(s.key, s.holder);
  }

  /** A bound stream stays well-formed through a command and its answer, or a notice alone. */
  lemma OneExchange(acts: seq<Act>, key: ConsumerKey, holder: string, more: seq<Act>)
    requires Open(acts, key, holder) && AnsweredAtOnce(more)
    requires forall i :: 0 <= i < |more| && more[i].Status? && more[i].reason != Stolen ==> i > 0 && Earned(more[i - 1], more[i].reason)
    requires more != [] && (more[|more| - 1].Status? || more[|more| - 1].ReleaseAck?)
    requires forall i :: 0 <= i < |more| ==>
               !more[i].BoundTo? && more[i] != LockLost
               && (more[i].ToStore? ==> && (more[i].command.Heartbeat? || more[i].command.Release?)
                                        && more[i].command.key == key && more[i].command.holder == holder)
    ensures Open(acts + more, key, holder)
  {
    var all := acts + more;
    assert all[0] == acts[0] && all[|all| - 1] == more[|more| - 1];
  }

  lemma BeatKeepsProtocol(s: Session, key: ConsumerKey, holder: string, position: int, sendOK: bool)
    requires Inv(s) && s.phase == Bound
    ensures Inv(BeatStep(s, key, holder, position, sendOK))
  {
    hide Protocol;
    OpenIsProtocol(s);
    OpenIsProtocol(s.(phase := Closed));
    if key == s.key && holder == s.holder {
      var (store, reply) := HeartbeatTx(s.store, key, holder, position);
      var asked := ToStore(Heartbeat(key, holder, position), reply);
      LastAct(s.(store := store, phase := Closed), asked);
      if Verdict(reply).Some? {
        OneExchange(s.acts, s.key, s.holder, [asked] + [Status(Verdict(reply).value)]);
      }
    } else {
      OneExchange(s.acts, s.key, s.holder, [] + [Status(Stolen)]);
      assert s.acts + [] == s.acts;
    }
  }

  lemma ReleaseKeepsProtocol(s: Session, sendOK: bool)
    requires Inv(s) && s.phase == Bound
    ensures Inv(ReleaseStep(s, sendOK))
  {
    hide Protocol;
    var c := Release(s.key, s.holder);
    var (store, reply) := ReleaseTx(s.store, s.key, s.holder);
    LastAct(s.(store := store, owed := s.owed + Releases(s.store, c, {}), phase := Closed), ToStore(c, reply));
    if reply == Done {
      OneExchange(s.acts, s.key, s.holder, [ToStore(c, reply)] + [ReleaseAck]);
    }
  }

  lemma NoActs(s: Session)
    requires |s.acts| == 0 || s.acts == [Status(Expired)] || s.acts == [Status(Stolen)]
    ensures Protocol(s)
  {
  }

  lemma BindKeepsInv(s: Session, key: ConsumerKey, holder: string, sendOK: bool)
    requires Inv(s) && s.phase == AwaitingBind
    ensures Inv(BindStep(s, key, holder, sendOK))
  {
    hide Protocol, Open;
    NoActs(BindStep(s, key, holder, sendOK));
  }

  lemma ClientKeepsInv(s: Session, m: Message, sendOK: bool)
    requires Inv(s) && (s.phase == AwaitingBind || s.phase == Bound)
    ensures Inv(ClientStep(s, m, sendOK))
  {
    hide BeatStep, ReleaseStep, BindStep, Open, Protocol;
    if s.phase == AwaitingBind {
      NoActs(s.(phase := Closed));
      if m.Bind? {
        BindKeepsInv(s, m.key, m.holder, sendOK);
      }
    } else {
      match m {
        case Beat(key, holder, position) => BeatKeepsProtocol(s, key, holder, position, sendOK);
        case ReleaseRequest => ReleaseKeepsProtocol(s, sendOK);
        case _ => OpenIsProtocol(s.(phase := Closed));
      }
    }
  }

  lemma LossKeepsInv(s: Session, sendOK: bool)
    requires Inv(s) && s.phase == Bound && s.lost
    ensures Inv(Next(s, TellLost(sendOK)))
  {
    hide Protocol, Open;
    OpenIsProtocol(s.(phase := Closed));
    LastAct(s.(phase := Closed), LockLost);
    assert s.acts + [] == s.acts;
  }

  lemma StepKeepsInv(s: Session, i: Input)
    requires Inv(s) && Possible(s, i)
    ensures Inv(Next(s, i))
  {
    match i
    case Client(m, sendOK) => ClientKeepsInv(s, m, sendOK);
    case TellLost(sendOK) => LossKeepsInv(s, sendOK);
    case Hangup =>
      if s.phase == Bound {
        OpenIsProtocol(s.(phase := Closed));
      }
    case Confirm(_) =>
      hide Execute, Releases, ClientStep;
    case Announce(_) =>
      hide Execute, Releases, ClientStep, AnsweredAtOnce, CommandsFollowBind, BoundOnce, NothingAfterLoss, Open;
    case _ =>
      hide Execute, Releases, ClientStep, AnsweredAtOnce, CommandsFollowBind, BoundOnce, NothingAfterLoss, Open, LossWasAnnounced;
  }

  lemma {:induction false} RunKeepsInv(sessions: seq<Session>, inputs: seq<Input>, n: nat)
    requires IsRun(sessions, inputs) && n < |sessions|
    ensures Inv(sessions[n])
  {
    if n > 0 {
      hide Possible, Next, Inv;
      RunKeepsInv(sessions, inputs, n - 1);
      StepKeepsInv(sessions[n - 1], inputs[n - 1]);
    }
  }

  /**
   For every sequence of client messages, interleaved with releases, other clients and
   failures: nothing reaches the store before a bind or after the loss notice, every
   command names the bound lock, no second bind succeeds, each command's own answer
   comes first, every status is earned by the heartbeat before it or is Stolen, and a
   loss notice follows a release of exactly the bound lock.
   */
  lemma StreamKeepsProtocol(sessions: seq<Session>, inputs: seq<Input>, n: nat)
    requires IsRun(sessions, inputs) && n < |sessions|
    ensures Protocol(sessions[n])
  {
    hide IsRun, Inv;
    RunKeepsInv(sessions, inputs, n);
    InvIsProtocol(sessions[n]);
  }

  lemma InvIsProtocol(s: Session)
    requires Inv(s)
    ensures Protocol(s)
  {
    if s.phase == Bound {
      OpenIsProtocol(s);
    }
  }

  /** In particular, between a release and the loss notice lies the release's ack. */
  lemma AckPrecedesLoss(sessions: seq<Session>, inputs: seq<Input>, n: nat, i: nat, j: nat)
    requires IsRun(sessions, inputs) && n < |sessions| && i < j < |sessions[n].acts|
    requires sessions[n].acts[i].ToStore? && sessions[n].acts[i].command.Release? && sessions[n].acts[j] == LockLost
    ensures i + 1 < j && sessions[n].acts[i + 1] == ReleaseAck
  {
    hide IsRun;
    StreamKeepsProtocol(sessions, inputs, n);
  }

  /** What the status of the bound holder's heartbeat tells the client about its lock and its position. */
  lemma StatusMeaning(s: Session, position: int)
    requires s.phase == Bound
    ensures
      var t, s' := s.store, BeatStep(s, s.key, s.holder, position, true);
      var mine := Active(t, s.key) && t.locks[s.key].holder == s.holder;
      var stored := if s.key in t.positions then t.positions[s.key] else position;
      && |s'.acts| == |s.acts| + 2 && s'.acts[|s.acts| + 1].Status?
      && match s'.acts[|s.acts| + 1].reason
         case Renewed => mine && stored <= position && s'.store.positions == t.positions[s.key := position]
                         && s'.store.locks[s.key].heldUntil == t.now + t.locks[s.key].ttl
         case Conflict(target, current) => mine && target == position < stored == current && s'.store == t
         case Stolen => s.key in t.locks && t.locks[s.key].holder != s.holder && s'.store == t
         case Expired => !mine && (s.key in t.locks ==> t.locks[s.key].holder == s.holder) && s'.store == t
  {
  }

  /**
   A heartbeat in another holder's name is told Stolen and does nothing else; one for another
   lock ends the stream unanswered.  Whatever is named, a status that cannot be sent ends it.
   */
  lemma ForeignBeatMeaning(s: Session, key: ConsumerKey, holder: string, position: int, sendOK: bool)
    requires s.phase == Bound
    ensures
      var s' := BeatStep(s, key, holder, position, sendOK);
      && (key != s.key ==> s' == s.(phase := Closed))
      && (key == s.key && holder != s.holder && sendOK ==> s' == s.(acts := s.acts + [Status(Stolen)]))
      && (key == s.key && holder != s.holder && !sendOK ==> s' == s.(phase := Closed))
      && (!sendOK ==> s'.phase == Closed)
  {
    assert s.acts + [] == s.acts;
  }

  /**
   A release by the holder of a standing lock frees it and owes exactly its announcement; after the
   lock's deadline there is nothing to free and it is acknowledged all the same; against another's
   standing lock it changes nothing and ends the stream without an ack.
   */
  lemma ReleaseMeaning(s: Session, sendOK: bool)
    requires s.phase == Bound && s.key.domain != "" && s.key.stream != "" && s.key.consumer != "" && s.holder != ""
    ensures
      var t, s' := s.store, ReleaseStep(s, sendOK);
      var mine := Active(t, s.key) && t.locks[s.key].holder == s.holder;
      && s'.store == (if mine then t.(locks := t.locks - {s.key}) else t)
      && s'.owed == s.owed + (if mine then multiset{LockReleased(s.key, s.holder)} else multiset{})
      && |s'.acts| > |s.acts| && s'.acts[|s.acts|].ToStore?
      && (s'.acts[|s'.acts| - 1] == ReleaseAck <==> s'.phase == Bound)
      && (s'.phase == Bound <==> sendOK && (mine || !Active(t, s.key)))
  {
    var t := s.store;
    assert s.key in t.locks ==> t.locks != t.locks - {s.key};
  }

  /** A message that has no place in the phase, or a bind with a name missing, ends the stream and does nothing else. */
  lemma MisplacedMessageEnds(s: Session, m: Message, sendOK: bool)
    requires s.phase == AwaitingBind || s.phase == Bound
    requires
      match m
      case Bind(key, holder) =>
        s.phase == Bound || key.domain == "" || key.stream == "" || key.consumer == "" || holder == ""
      case Beat(_, _, _) => s.phase == AwaitingBind
      case ReleaseRequest => s.phase == AwaitingBind
      case Unexpected => true
    ensures ClientStep(s, m, sendOK) == s.(phase := Closed)
  {
    hide BeatStep, ReleaseStep;
  }

  /** A notice that could not be sent is not among the acts, and the stream is over or has none to send. */
  lemma UnsentEndsStream(s: Session, i: Input)
    requires Possible(s, i) && (i.Client? || i.Confirm? || i.TellLost?) && !i.sendOK
    ensures
      var s' := Next(s, i);
      && (s'.phase == Closed || (s.phase == AwaitingBind && s'.phase == Binding))
      && (s'.acts == s.acts || (|s'.acts| == |s.acts| + 1 && s'.acts[|s.acts|].ToStore?))
  {
    hide HeartbeatTx, ReleaseTx, Releases, Execute;
  }

  /** What a refused bind tells the client; only the holder of a lock that still stands gets past it. */
  lemma BindMeaning(s: Session, key: ConsumerKey, holder: string)
    requires s.phase == AwaitingBind && s.acts == []
    requires key.domain != "" && key.stream != "" && key.consumer != "" && holder != ""
    ensures
      var t, s' := s.store, BindStep(s, key, holder, true);
      var stands := key in t.locks && t.now <= t.locks[key].heldUntil;
      && (s'.phase == Binding <==> stands && t.locks[key].holder == holder)
      && (s'.acts == [Status(Stolen)] <==> stands && t.locks[key].holder != holder)
      && (s'.acts == [Status(Expired)] <==> !stands)
  {
    assert [] + [Status(Stolen)] == [Status(Stolen)] && [] + [Status(Expired)] == [Status(Expired)];
    assert [Status(Stolen)][0] != [Status(Expired)][0];
  }
}
