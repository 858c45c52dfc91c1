/** The KeepAlive stream as the object that serves it, step for step the session of `KeepAlive`. */
module KeepAliveService {
  import opened Wrappers
  import opened LockTypes
  import opened ConsumerStore
  import opened KeepAlive

  /** What a receive can return to the loop, and releases arriving on the bus meanwhile. */
  datatype Event = Received(message: Message, sendOK: bool) | Released(released: LockReleased) | LossChosen(sendOK: bool) | IdleOut

  class KeepAliveStream {
    const store: Store
    var phase: Phase
    var key: ConsumerKey
    var holder: string
    var lost: bool
    var acts: seq<Act>
    var owed: multiset<LockReleased>
    ghost var announced: set<LockReleased>

    constructor (store: Store, owed: multiset<LockReleased>)
      ensures this.store == store && IsStart(View()) && this.owed == owed
    {
      this.store := store;
      this.owed := owed;
      phase, lost, acts, announced := AwaitingBind, false, [], {};
      key, holder := ConsumerKey("", "", ""), "";
    }

    ghost function View(): Session
      reads this, store
    {
      Session(store.View(), phase, key, holder, lost, owed, announced, acts)
    }

    method Send(notice: Act, sendOK: bool)
      modifies this
      ensures View() == Tell(old(View()), [], notice, sendOK)
    {
      if sendOK {
        acts := acts + [notice];
      } else {
        phase := Closed;
      }
    }

    method BindHolder(wantedKey: ConsumerKey, wantedHolder: string, sendOK: bool)
      modifies this
      ensures View() == BindStep(old(View()), wantedKey, wantedHolder, sendOK)
    {
      if wantedKey.domain == "" || wantedKey.stream == "" || wantedKey.consumer == "" || wantedHolder == "" {
        phase := Closed;
        return;
      }
      key, holder := wantedKey, wantedHolder;
      if key !in store.locks || store.locks[key].heldUntil < store.now {
        Send(Status(Expired), sendOK);
        phase := Closed;
      } else if store.locks[key].holder != holder {
        Send(Status(Stolen), sendOK);
        phase := Closed;
      } else {
        phase := Binding;
      }
    }

    /** Subscribes to releases and confirms the bind. */
    method ConfirmBind(sendOK: bool)
      requires phase == Binding
      modifies this
      ensures View() == Next(old(View()), Confirm(sendOK))
    {
      phase := Bound;
      Send(BoundTo(key, holder), sendOK);
    }

    method HandleHeartbeat(named: ConsumerKey, beatHolder: string, position: int, sendOK: bool)
      requires phase == Bound
      modifies this, store
      ensures View() == BeatStep(old(View()), named, beatHolder, position, sendOK)
    {
      hide HeartbeatTx;
      if named != key {
        phase := Closed;
        return;
      }
      if beatHolder != holder {
        Send(Status(Stolen), sendOK);
        return;
      }
      var reply := store.HeartbeatWithPosition(named, beatHolder, position);
      acts := acts + [ToStore(Heartbeat(named, beatHolder, position), reply)];
      var reason := Verdict(reply);
      if reason == None {
        phase := Closed;
      } else {
        Send(Status(reason.value), sendOK);
      }
    }

    method HandleReleaseRequest(sendOK: bool)
      requires phase == Bound
      modifies this, store
      ensures View() == ReleaseStep(old(View()), sendOK)
    {
      hide ReleaseTx;
      owed := owed + Releases(store.View(), Release(key, holder), {});
      var reply := store.Release(key, holder);
      acts := acts + [ToStore(Release(key, holder), reply)];
      if reply.Failed? {
        phase := Closed;
      } else {
        Send(ReleaseAck, sendOK);
      }
    }

    method OnLockReleased(released: LockReleased)
      requires released in owed
      modifies this
      ensures View() == Next(old(View()), Announce(released))
    {
      hide ClientStep, Execute, Releases, Do, BindStep, BeatStep, ReleaseStep;
      owed, announced := owed - multiset{released}, announced + {released};
      var own := released.key == key && released.holder == holder;
      assert own <==> released == LockReleased(key, holder);
      if phase == Bound && own {
        lost := true;
      }
    }

    method NotifyLockLost(sendOK: bool)
      modifies this
      ensures View() == Next(old(View()), TellLost(sendOK))
    {
      if sendOK {
        acts := acts + [LockLost];
      }
      phase := Closed;
    }

    method Dispatch(m: Message, sendOK: bool)
      requires phase == AwaitingBind || phase == Bound
      modifies this, store
      ensures View() == ClientStep(old(View()), m, sendOK)
    {
      if phase == AwaitingBind {
        if m.Bind? {
          BindHolder(m.key, m.holder, sendOK);
        } else {
          phase := Closed;
        }
      } else {
        match m
        case Beat(k, h, position) => HandleHeartbeat(k, h, position, sendOK);
        case ReleaseRequest => HandleReleaseRequest(sendOK);
        case _ => phase := Closed;
      }
    }

    /** A message to a stream that awaits its bind or is bound; a bind that holds is confirmed at once. */
    method Take(m: Message, sendOK: bool)
      requires (phase == AwaitingBind || phase == Bound) && KeepAlive.Inv(View())
      modifies this, store
      ensures phase != Binding && KeepAlive.Inv(View())
    {
      hide KeepAlive.Inv, ClientStep;
      StepKeepsInv(View(), Client(m, sendOK));
      Dispatch(m, sendOK);
      if phase == Binding {
        StepKeepsInv(View(), Confirm(sendOK));
        ConfirmBind(sendOK);
      }
    }

    /** The whole stream: bind first, then messages and losses until it closes. */
    method Run(events: seq<Event>)
      requires IsStart(View())
      modifies this, store
      ensures Protocol(View())
    {
      assert KeepAlive.Inv(View());
      hide KeepAlive.Inv, Protocol;
      for i := 0 to |events|
        invariant KeepAlive.Inv(View()) && phase != Binding
      {
        if phase == Closed {
          break;
        }
        match events[i]
        case Received(m, sendOK) => Take(m, sendOK);
        case Released(r) =>
          if r in owed {
            StepKeepsInv(View(), Announce(r));
            OnLockReleased(r);
          }
        case LossChosen(sendOK) =>
          if phase == Bound && lost {
            StepKeepsInv(View(), TellLost(sendOK));
            NotifyLockLost(sendOK);
          }
        case IdleOut =>
          StepKeepsInv(View(), Hangup);
          phase := Closed;
      }
      InvIsProtocol(View());
    }
  }
}
