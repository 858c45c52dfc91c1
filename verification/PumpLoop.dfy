/** The pump's watch loop: which positions its heartbeats carry, and how long it waits between them. */
module PumpLoop {
  import opened Wrappers
  import opened LockTypes

  /** What one tick of the watch brings; the handler has run by the time an event is reported. */
  datatype Tick = Delivered(eventID: int) | TimedOut | Broken

  datatype BeatReply = Accepted | Conflict(current: int) | Lost

  /** The service's reply to the n-th heartbeat, given the position it carries. */
  type Replies = (nat, int) -> BeatReply

  /** The service reports a conflict only when it stores a later position. */
  ghost predicate Plausible(beat: Replies) {
    forall n: nat, position: int :: beat(n, position).Conflict? ==> position < beat(n, position).current
  }

  /** The pump's position after a heartbeat; a lost lock ends the loop. */
  function Reconcile(position: int, reply: BeatReply): Option<int> {
    match reply
    case Accepted => Some(position)
    case Conflict(current) => Some(current)
    case Lost => None
  }

  /** The heartbeat waits at most the TTL, and a tick nine tenths of that. */
  function HeartbeatInterval(ttl: int): int {
    if GuaranteePeriod(ttl) > ttl then ttl else GuaranteePeriod(ttl)
  }

  function WatchTimeout(ttl: int): int {
    HeartbeatInterval(ttl) * 9 / 10
  }

  /** What a tick leaves of the TTL is at least 19 and barely over 19 hundredths of it. */
  lemma SlackIsNineteenPercent(ttl: int)
    requires ttl >= 0
    ensures 0 <= WatchTimeout(ttl) <= ttl
    ensures 19 * ttl <= 100 * (ttl - WatchTimeout(ttl)) < 19 * ttl + 190
  {
    var g := ttl * 9 / 10;
    assert 10 * g <= 9 * ttl < 10 * g + 10;
    assert g <= ttl;
    var w := g * 9 / 10;
    assert 10 * w <= 9 * g < 10 * w + 10;
  }

  // The loop, turn by turn.

  /** Where the loop stands: its position, the heartbeats it has sent, and whether it goes on. */
  datatype Loop = Loop(position: int, beats: seq<int>, running: bool)

  /** A heartbeat carrying `position`, and the service's reply to it. */
  function Beat(s: Loop, position: int, beat: Replies): Loop {
    match Reconcile(position, beat(|s.beats|, position))
    case None => Loop(position, s.beats + [position], false)
    case Some(reconciled) => Loop(reconciled, s.beats + [position], true)
  }

  function Turn(s: Loop, tick: Tick, beat: Replies): Loop {
    if !s.running then s
    else
      match tick
      case Broken => s.(running := false)
      case TimedOut => Beat(s, s.position, beat)
      case Delivered(eventID) => if eventID > s.position then Beat(s, eventID, beat) else s
  }

  function Turns(start: int, ticks: seq<Tick>, beat: Replies): Loop {
    if ticks == [] then Loop(start, [], true)
    else Turn(Turns(start, ticks[..|ticks| - 1], beat), ticks[|ticks| - 1], beat)
  }

  class Pump {
    var position: int

    constructor (lockPosition: int)
      ensures position == lockPosition
    {
      position := lockPosition;
    }

    method ApplyHeartbeat(reply: BeatReply) returns (ok: bool)
      modifies this
      ensures ok == Reconcile(old(position), reply).Some?
      ensures position == if ok then Reconcile(old(position), reply).value else old(position)
    {
      match reply
      case Accepted => return true;
      case Conflict(current) =>
        position := current;
        return true;
      case Lost => return false;
    }

    /** Runs the loop over the ticks it meets, asking `beat` for the service's replies. */
    method RunWatchLoop(ticks: seq<Tick>, beat: Replies) returns (beats: seq<int>, running: bool)
      modifies this
      ensures Loop(position, beats, running) == Turns(old(position), ticks, beat)
    {
      beats, running := [], true;
      for i := 0 to |ticks|
        invariant running && Loop(position, beats, running) == Turns(old(position), ticks[..i], beat)
      {
        assert ticks[..i + 1][..i] == ticks[..i];
        var tick := ticks[i];
        if tick == Broken {
          StoppedStays(old(position), ticks, i + 1, beat);
          return beats, false;
        }
        if tick.Delivered? {
          if tick.eventID <= position {
            continue;
          }
          position := tick.eventID;
        }
        var reply := beat(|beats|, position);
        beats := beats + [position];
        var ok := ApplyHeartbeat(reply);
        if !ok {
          StoppedStays(old(position), ticks, i + 1, beat);
          return beats, false;
        }
      }
      assert ticks[..|ticks|] == ticks;
    }
  }

  /** A loop that has ended stays as it is. */
  lemma {:induction false} StoppedStays(start: int, ticks: seq<Tick>, n: nat, beat: Replies)
    requires n <= |ticks| && !Turns(start, ticks[..n], beat).running
    ensures Turns(start, ticks, beat) == Turns(start, ticks[..n], beat)
  {
    if n < |ticks| {
      assert ticks[..|ticks| - 1][..n] == ticks[..n];
      StoppedStays(start, ticks[..|ticks| - 1], n, beat);
    } else {
      assert ticks[..n] == ticks;
    }
  }

  predicate NonDecreasing(s: seq<int>) {
    forall i, j :: 0 <= i < j < |s| ==> s[i] <= s[j]
  }

  /** Every event a loop still running has been brought, and every position it sent, is behind its position. */
  ghost predicate Ahead(start: int, ticks: seq<Tick>, s: Loop) {
    && start <= s.position && NonDecreasing(s.beats)
    && (forall k :: 0 <= k < |s.beats| ==> start <= s.beats[k] <= s.position)
    && (s.running ==> forall i :: 0 <= i < |ticks| ==> ticks[i] != Broken && (ticks[i].Delivered? ==> ticks[i].eventID <= s.position))
  }

  lemma {:induction false} LoopStaysAhead(start: int, ticks: seq<Tick>, beat: Replies)
    requires Plausible(beat)
    ensures Ahead(start, ticks, Turns(start, ticks, beat))
  {
    if ticks != [] {
      var n := |ticks| - 1;
      LoopStaysAhead(start, ticks[..n], beat);
      var s, s' := Turns(start, ticks[..n], beat), Turns(start, ticks, beat);
      assert forall i :: 0 <= i < n ==> ticks[..n][i] == ticks[i];
      var carried := if ticks[n].Delivered? then ticks[n].eventID else s.position;
      assert beat(|s.beats|, carried).Conflict? ==> carried < beat(|s.beats|, carried).current;
    }
  }

  /**
   A running loop at position p: a time-out sends one heartbeat carrying p, an event beyond p
   sends one carrying its ID, any other tick sends none.  An accepted heartbeat leaves the
   position at what it carried, a conflict moves it to the stored one, and a lost lock, or a
   broken watch, ends the loop.
   */
  lemma TickMeaning(start: int, ticks: seq<Tick>, n: nat, beat: Replies)
    requires n < |ticks| && Turns(start, ticks[..n], beat).running
    ensures
      var s, s' := Turns(start, ticks[..n], beat), Turns(start, ticks[..n + 1], beat);
      && (ticks[n] == TimedOut ==> s'.beats == s.beats + [s.position])
      && (ticks[n].Delivered? && ticks[n].eventID > s.position ==> s'.beats == s.beats + [ticks[n].eventID])
      && (ticks[n].Delivered? && ticks[n].eventID <= s.position ==> s' == s)
      && (ticks[n] == Broken ==> s'.beats == s.beats && s'.position == s.position && !s'.running)
      && (|s'.beats| > |s.beats| ==>
            var carried := s'.beats[|s.beats|];
            match beat(|s.beats|, carried)
            case Accepted => s'.running && s'.position == carried
            case Conflict(current) => s'.running && s'.position == current
            case Lost => !s'.running)
  {
    assert ticks[..n + 1][..n] == ticks[..n];
  }

  // How many heartbeats a sequence of ticks brings about, when the service accepts them all.

  /** The highest of the start position and the events delivered. */
  function Highest(start: int, ticks: seq<Tick>): int {
    if ticks == [] then start
    else
      var before, last := Highest(start, ticks[..|ticks| - 1]), ticks[|ticks| - 1];
      if last.Delivered? && last.eventID > before then last.eventID else before
  }

  lemma {:induction false} HighestMeaning(start: int, ticks: seq<Tick>)
    ensures start <= Highest(start, ticks)
    ensures forall i :: 0 <= i < |ticks| && ticks[i].Delivered? ==> ticks[i].eventID <= Highest(start, ticks)
    ensures Highest(start, ticks) == start || Delivered(Highest(start, ticks)) in ticks
  {
    if ticks != [] {
      var n := |ticks| - 1;
      HighestMeaning(start, ticks[..n]);
      assert forall i :: 0 <= i < n ==> ticks[..n][i] == ticks[i];
      assert ticks == ticks[..n] + [ticks[n]];
    }
  }

  /** An event above the start and every event before it. */
  predicate IsRecord(start: int, ticks: seq<Tick>, i: nat)
    requires i < |ticks|
  {
    && ticks[i].Delivered? && ticks[i].eventID > start
    && forall j :: 0 <= j < i && ticks[j].Delivered? ==> ticks[j].eventID < ticks[i].eventID
  }

  function TimeOuts(ticks: seq<Tick>): set<nat> {
    set i | 0 <= i < |ticks| && ticks[i] == TimedOut
  }

  function Records(start: int, ticks: seq<Tick>): set<nat> {
    set i | 0 <= i < |ticks| && IsRecord(start, ticks, i)
  }

  function AllAccepted(n: nat, position: int): BeatReply {
    Accepted
  }

  predicate Unbroken(ticks: seq<Tick>) {
    forall i :: 0 <= i < |ticks| ==> ticks[i] != Broken
  }

  /** One more tick adds itself to the time-outs, to the records, or to neither. */
  lemma OneMoreTick(start: int, ticks: seq<Tick>)
    requires ticks != []
    ensures
      var n := |ticks| - 1;
      && TimeOuts(ticks) == TimeOuts(ticks[..n]) + (if ticks[n] == TimedOut then {n} else {})
      && Records(start, ticks) == Records(start, ticks[..n]) + (if IsRecord(start, ticks, n) then {n} else {})
      && n !in TimeOuts(ticks[..n]) && n !in Records(start, ticks[..n])
  {
    var n := |ticks| - 1;
    assert forall i :: 0 <= i < n ==> ticks[..n][i] == ticks[i];
    forall i | 0 <= i < n
      ensures IsRecord(start, ticks[..n], i) <==> IsRecord(start, ticks, i)
    {
    }
  }

  lemma RecordIsHigher(start: int, ticks: seq<Tick>)
    requires ticks != []
    ensures
      var n := |ticks| - 1;
      IsRecord(start, ticks, n) <==> ticks[n].Delivered? && ticks[n].eventID > Highest(start, ticks[..n])
  {
    var n := |ticks| - 1;
    HighestMeaning(start, ticks[..n]);
    assert forall i :: 0 <= i < n ==> ticks[..n][i] == ticks[i];
    if Delivered(Highest(start, ticks[..n])) in ticks[..n] {
      var j :| 0 <= j < n && ticks[j] == Delivered(Highest(start, ticks[..n]));
    }
  }

  /** With every heartbeat accepted, one is sent for each time-out and one for each new highest event. */
  lemma {:induction false} BeatsAreCounted(start: int, ticks: seq<Tick>)
    requires Unbroken(ticks)
    ensures
      var s := Turns(start, ticks, AllAccepted);
      && s.running && s.position == Highest(start, ticks)
      && |s.beats| == |TimeOuts(ticks)| + |Records(start, ticks)|
  {
    if ticks != [] {
      BeatsAreCounted(start, ticks[..|ticks| - 1]);
      OneMoreTick(start, ticks);
      RecordIsHigher(start, ticks);
      hide TimeOuts, Records, IsRecord;
    }
  }

  /** Every tick times out or brings an event above the start and every event before it. */
  predicate Rising(start: int, ticks: seq<Tick>) {
    forall i :: 0 <= i < |ticks| ==> ticks[i] == TimedOut || IsRecord(start, ticks, i)
  }

  lemma RisingPrefix(start: int, ticks: seq<Tick>, n: nat)
    requires n <= |ticks| && Rising(start, ticks)
    ensures Rising(start, ticks[..n])
  {
    forall i | 0 <= i < n
      ensures ticks[..n][i] == TimedOut || IsRecord(start, ticks[..n], i)
    {
      assert ticks[i] == TimedOut || IsRecord(start, ticks, i);
    }
  }

  /** Then every iteration of the loop sends its heartbeat. */
  lemma {:induction false} OneBeatPerIteration(start: int, ticks: seq<Tick>)
    requires Rising(start, ticks)
    ensures
      var s := Turns(start, ticks, AllAccepted);
      s.running && s.position == Highest(start, ticks) && |s.beats| == |ticks|
  {
    if ticks != [] {
      var n := |ticks| - 1;
      RisingPrefix(start, ticks, n);
      OneBeatPerIteration(start, ticks[..n]);
      RecordIsHigher(start, ticks);
      assert ticks[n] == TimedOut || IsRecord(start, ticks, n);
      hide IsRecord, Rising;
    }
  }

  /** And each heartbeat carries the highest event so far. */
  lemma {:induction false} BeatCarriesHighest(start: int, ticks: seq<Tick>, k: nat)
    requires Rising(start, ticks) && k < |ticks|
    ensures |Turns(start, ticks, AllAccepted).beats| == |ticks|
    ensures Turns(start, ticks, AllAccepted).beats[k] == Highest(start, ticks[..k + 1])
  {
    var n := |ticks| - 1;
    RisingPrefix(start, ticks, n);
    OneBeatPerIteration(start, ticks);
    OneBeatPerIteration(start, ticks[..n]);
    if k < n {
      BeatCarriesHighest(start, ticks[..n], k);
      assert ticks[..n][..k + 1] == ticks[..k + 1];
    } else {
      assert ticks[..k + 1] == ticks;
    }
  }

  lemma {:induction false} HighestGrows(start: int, ticks: seq<Tick>, n: nat)
    requires n <= |ticks|
    ensures start <= Highest(start, ticks[..n]) <= Highest(start, ticks)
  {
    if n < |ticks| {
      HighestGrows(start, ticks[..|ticks| - 1], n);
      assert ticks[..|ticks| - 1][..n] == ticks[..n];
    } else {
      assert ticks[..n] == ticks;
      if n > 0 {
        HighestGrows(start, ticks[..n - 1], n - 1);
        assert ticks[..n - 1][..n - 1] == ticks[..n - 1];
      }
    }
  }
}
