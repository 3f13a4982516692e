/** The voice gateway: which of its messages the voice task gets to see, and when its socket task sends heartbeats. */
module VoiceGateway {
  import opened Prelude

  // What the voice task sees

  datatype Kind = Ready | SessionDescription | Speaking | ClientConnect | ClientDisconnect

  datatype ServerMessage =
    | Surfacing(kind: Kind, content: nat)
    | Hello(interval: real)
    | HeartbeatAck
    | Unexpected

  datatype ConnectionEvent = Received(message: ServerMessage) | SocketClosed

  datatype VoiceEvent = Seen(kind: Kind, content: nat) | Closed

  predicate IsHello(event: ConnectionEvent) {
    event.Received? && event.message.Hello?
  }

  /** The milliseconds `Duration::from_secs_f64` accepts when they come divided by 1000; it panics on all others. */
  predicate IntervalFits(interval: real) {
    0.0 <= interval < 1000.0 * (POW64 as real)
  }

  predicate PanicsOn(event: ConnectionEvent) {
    IsHello(event) && !IntervalFits(event.message.interval)
  }

  /** Events that end a call to `next_event` with an error. */
  predicate Fatal(event: ConnectionEvent, socketAlive: bool) {
    && !PanicsOn(event)
    && event.Received? && (event.message == Unexpected || (event.message.Hello? && !socketAlive))
  }

  function SeenIn(event: ConnectionEvent): seq<VoiceEvent> {
    match event
    case Received(Surfacing(kind, content)) => [Seen(kind, content)]
    case Received(_) => []
    case SocketClosed => [Closed]
  }

  function IntervalIn(event: ConnectionEvent): seq<real> {
    if IsHello(event) then [event.message.interval] else []
  }

  /** A panic for an interval out of range; an error for an unexpected message, or an interval nobody can be told. */
  lemma StopsExactly(event: ConnectionEvent, socketAlive: bool)
    ensures PanicsOn(event) <==>
            exists interval :: event == Received(Hello(interval)) && !(0.0 <= interval / 1000.0 < POW64 as real)
    ensures Fatal(event, socketAlive) <==>
            || event == Received(Unexpected)
            || (!socketAlive && exists interval :: event == Received(Hello(interval)) && 0.0 <= interval / 1000.0 < POW64 as real)
  {
    if IsHello(event) {
      assert event == Received(Hello(event.message.interval));
    }
  }

  /** How a call to `next_event` ends: with an event, an error, a panic, or because another branch of the select has won. */
  datatype Next = Event(event: VoiceEvent) | Failed | Panicked | Cancelled

  /** Events that are not for the voice task to see. */
  predicate IsPassedOver(event: ConnectionEvent) {
    event.Received? && (event.message.Hello? || event.message.HeartbeatAck?)
  }

  /** The message is seen as its own kind, with its own content; the end of the socket as the end. */
  predicate Shows(event: ConnectionEvent, seen: VoiceEvent) {
    match seen
    case Seen(kind, content) => event == Received(Surfacing(kind, content))
    case Closed => event == SocketClosed
  }

  predicate AllPassedOver(looked: seq<ConnectionEvent>) {
    looked == [] || (IsPassedOver(looked[|looked| - 1]) && AllPassedOver(looked[..|looked| - 1]))
  }

  /** The last event looked at is the one shown, if any is, and those before were nothing to see. */
  predicate ShowsLast(looked: seq<ConnectionEvent>, next: Next) {
    if next.Event? then
      looked != [] && Shows(looked[|looked| - 1], next.event) && AllPassedOver(looked[..|looked| - 1])
    else AllPassedOver(looked)
  }

  /** What the voice task sees of these events, in order. */
  function Surfaced(events: seq<ConnectionEvent>): seq<VoiceEvent> {
    if events == [] then [] else Surfaced(events[..|events| - 1]) + SeenIn(events[|events| - 1])
  }

  /** The heartbeat intervals announced by these events, in order. */
  function Intervals(events: seq<ConnectionEvent>): seq<real> {
    if events == [] then [] else Intervals(events[..|events| - 1]) + IntervalIn(events[|events| - 1])
  }

  lemma {:induction false} SurfacedAppend(a: seq<ConnectionEvent>, b: seq<ConnectionEvent>)
    ensures Surfaced(a + b) == Surfaced(a) + Surfaced(b)
  {
    if b == [] {
      assert a + b == a;
    } else {
      var n := |b| - 1;
      assert (a + b)[..|a + b| - 1] == a + b[..n];
      SurfacedAppend(a, b[..n]);
    }
  }

  lemma {:induction false} IntervalsAppend(a: seq<ConnectionEvent>, b: seq<ConnectionEvent>)
    ensures Intervals(a + b) == Intervals(a) + Intervals(b)
  {
    if b == [] {
      assert a + b == a;
    } else {
      var n := |b| - 1;
      assert (a + b)[..|a + b| - 1] == a + b[..n];
      IntervalsAppend(a, b[..n]);
    }
  }

  /** These events were looked at without an error: that is what was seen of them, and the settings passed on. */
  ghost predicate Passed(looked: seq<ConnectionEvent>, seen: seq<VoiceEvent>,
                         before: seq<real>, after: seq<real>, socketAlive: bool)
  {
    && seen == Surfaced(looked)
    && after == before + Intervals(looked)
    && forall i :: 0 <= i < |looked| ==> !Fatal(looked[i], socketAlive) && !PanicsOn(looked[i])
  }

  /** Looking stops after a prefix of the events: at the end of all, right before a fatal one, or with a panic. */
  ghost predicate EndsAt(events: seq<ConnectionEvent>, looked: seq<ConnectionEvent>, socketAlive: bool, panicked: bool) {
    && looked <= events
    && if panicked then looked < events && PanicsOn(events[|looked|])
       else looked == events || Fatal(events[|looked|], socketAlive)
  }

  function EventOf(next: Next): seq<VoiceEvent> {
    if next.Event? then [next.event] else []
  }

  /** What the world does to one call: is the channel still open, the socket task alive, and which interval has to wait
      for room long enough for another branch to win, if any. */
  datatype World = World(open: bool, socketAlive: bool, stalled: Option<nat>)

  /**
    What is lost with the end of a call that had looked at these events: nothing with an event; with an error the
    fatal event, unless the channel was closed and drained; with a panic the interval that is out of range; with a
    cancellation the interval that had to wait, unless the call was waiting for events.
   */
  predicate LostAtEnd(next: Next, looked: seq<ConnectionEvent>, lost: seq<ConnectionEvent>, rest: seq<ConnectionEvent>, w: World) {
    match next
    case Event(_) => lost == []
    case Failed => if lost == [] then rest == [] && !w.open else |lost| == 1 && Fatal(lost[0], w.socketAlive)
    case Panicked => |lost| == 1 && PanicsOn(lost[0])
    case Cancelled =>
      if lost == [] then rest == [] && w.open
      else
        && |lost| == 1 && IsHello(lost[0]) && !PanicsOn(lost[0])
        && w.socketAlive && w.stalled == Some(|Intervals(looked)|)
  }

  lemma PassedMore(a: seq<ConnectionEvent>, b: seq<ConnectionEvent>, seenA: seq<VoiceEvent>, seenB: seq<VoiceEvent>,
                   start: seq<real>, before: seq<real>, after: seq<real>, socketAlive: bool)
    requires Passed(a, seenA, start, before, socketAlive) && Passed(b, seenB, before, after, socketAlive)
    ensures Passed(a + b, seenA + seenB, start, after, socketAlive)
  {
    SurfacedAppend(a, b);
    IntervalsAppend(a, b);
  }

  lemma PassedOneMore(looked: seq<ConnectionEvent>, seen: seq<VoiceEvent>, start: seq<real>, before: seq<real>,
                      socketAlive: bool, event: ConnectionEvent)
    requires Passed(looked, seen, start, before, socketAlive) && !Fatal(event, socketAlive) && !PanicsOn(event)
    ensures Passed(looked + [event], seen + SeenIn(event), start, before + IntervalIn(event), socketAlive)
    ensures |Intervals(looked + [event])| == |Intervals(looked)| + |IntervalIn(event)|
  {
    assert (looked + [event])[..|looked|] == looked;
  }

  lemma LookedPast(looked: seq<ConnectionEvent>, start: seq<real>, before: seq<real>, socketAlive: bool, event: ConnectionEvent)
    requires Passed(looked, [], start, before, socketAlive) && AllPassedOver(looked)
    requires IsPassedOver(event) && !Fatal(event, socketAlive) && !PanicsOn(event)
    ensures Passed(looked + [event], [], start, before + IntervalIn(event), socketAlive) && AllPassedOver(looked + [event])
    ensures |Intervals(looked + [event])| == |Intervals(looked)| + |IntervalIn(event)|
  {
    PassedOneMore(looked, [], start, before, socketAlive, event);
    assert (looked + [event])[..|looked|] == looked;
  }

  lemma LookedAndSeen(looked: seq<ConnectionEvent>, start: seq<real>, before: seq<real>, socketAlive: bool,
                      event: ConnectionEvent, seen: VoiceEvent)
    requires Passed(looked, [], start, before, socketAlive) && AllPassedOver(looked)
    requires Shows(event, seen) && !Fatal(event, socketAlive)
    ensures Passed(looked + [event], [seen], start, before, socketAlive) && ShowsLast(looked + [event], Event(seen))
  {
    PassedOneMore(looked, [], start, before, socketAlive, event);
    assert [] + SeenIn(event) == [seen] && before + IntervalIn(event) == before;
    assert (looked + [event])[..|looked|] == looked;
  }

  lemma EndsLater(a: seq<ConnectionEvent>, events: seq<ConnectionEvent>, looked: seq<ConnectionEvent>, socketAlive: bool,
                  panicked: bool)
    requires EndsAt(events, looked, socketAlive, panicked)
    ensures EndsAt(a + events, a + looked, socketAlive, panicked)
  {
  }

  lemma CallEnds(events: seq<ConnectionEvent>, looked: seq<ConnectionEvent>, lost: seq<ConnectionEvent>,
                 rest: seq<ConnectionEvent>, next: Next, w: World)
    requires events == looked + lost + rest && LostAtEnd(next, looked, lost, rest, w)
    requires !next.Event? && !w.open && w.stalled == None
    ensures EndsAt(events, looked, w.socketAlive, next == Panicked)
  {
  }

  lemma NothingLost(a: seq<ConnectionEvent>, b: seq<ConnectionEvent>)
    ensures a + [] + b == a + b
  {
  }

  lemma SplitFirst(a: seq<ConnectionEvent>, b: seq<ConnectionEvent>)
    requires b != []
    ensures a + b == a + [b[0]] + b[1..]
  {
  }

  function LookedAt(next: Next, more: seq<ConnectionEvent>, lost: seq<ConnectionEvent>): seq<ConnectionEvent> {
    if next.Cancelled? && lost != [] then more + [lost[0]] else more
  }

  lemma LookedGrows(all: seq<ConnectionEvent>, looked: seq<ConnectionEvent>, before: seq<ConnectionEvent>,
                    next: Next, more: seq<ConnectionEvent>, lost: seq<ConnectionEvent>, after: seq<ConnectionEvent>, w: World)
    requires all == looked + before && before == more + lost + after && LostAtEnd(next, more, lost, after, w)
    ensures looked + LookedAt(next, more, lost) <= all
    ensures next.Event? || next.Cancelled? ==> all == looked + LookedAt(next, more, lost) + after
  {
  }

  function Stalled(w: World): nat {
    if w.stalled.Some? then 1 else 0
  }

  /** How many of the first calls have to wait to pass an interval on, and are cancelled over it. */
  function Stalls(worlds: seq<World>, calls: nat): nat
    requires calls <= |worlds|
  {
    if calls == 0 then 0 else Stalls(worlds, calls - 1) + Stalled(worlds[calls - 1])
  }

  /** The second sequence is the first with so many announced intervals left out, and nothing else. */
  predicate LeavesOut(looked: seq<ConnectionEvent>, kept: seq<ConnectionEvent>, n: nat) {
    if looked == [] then kept == [] && n == 0
    else
      var init, last := looked[..|looked| - 1], looked[|looked| - 1];
      || (kept != [] && kept[|kept| - 1] == last && LeavesOut(init, kept[..|kept| - 1], n))
      || (n > 0 && IsHello(last) && LeavesOut(init, kept, n - 1))
  }

  lemma {:induction false} LeavesOutMore(looked: seq<ConnectionEvent>, kept: seq<ConnectionEvent>, n: nat,
                                         more: seq<ConnectionEvent>)
    requires LeavesOut(looked, kept, n)
    ensures LeavesOut(looked + more, kept + more, n)
  {
    if more == [] {
      assert looked + more == looked && kept + more == kept;
    } else {
      var k := |more| - 1;
      LeavesOutMore(looked, kept, n, more[..k]);
      assert (looked + more)[..|looked| + k] == looked + more[..k];
      assert (kept + more)[..|kept| + k] == kept + more[..k];
    }
  }

  lemma LeavesOutLost(looked: seq<ConnectionEvent>, kept: seq<ConnectionEvent>, n: nat, lost: ConnectionEvent)
    requires LeavesOut(looked, kept, n) && IsHello(lost)
    ensures LeavesOut(looked + [lost], kept, n + 1)
  {
    assert (looked + [lost])[..|looked|] == looked;
  }

  /**
    After some calls, of which so many lost an interval: what was seen is all there was to see in what they looked at,
    and the intervals passed on are all in it but the lost ones.
   */
  predicate Tally(looked: seq<ConnectionEvent>, kept: seq<ConnectionEvent>, seen: seq<VoiceEvent>,
                  settings: seq<real>, now: seq<real>, gone: nat)
  {
    seen == Surfaced(looked) && now == settings + Intervals(kept) && LeavesOut(looked, kept, gone)
  }

  lemma SettingsGrow(settings: seq<real>, kept: seq<ConnectionEvent>, more: seq<ConnectionEvent>)
    ensures settings + Intervals(kept) + Intervals(more) == settings + Intervals(kept + more)
  {
    IntervalsAppend(kept, more);
    Regroup(settings, Intervals(kept), Intervals(more));
  }

  lemma SeenGrows(looked: seq<ConnectionEvent>, moreLooked: seq<ConnectionEvent>, seen: seq<VoiceEvent>, more: seq<VoiceEvent>)
    requires seen == Surfaced(looked) && more == Surfaced(moreLooked)
    ensures seen + more == Surfaced(looked + moreLooked)
  {
    SurfacedAppend(looked, moreLooked);
  }

  /** Whether a call was cancelled over an interval: that is one event lost that nobody would have seen. */
  function LostOne(next: Next, lost: seq<ConnectionEvent>): nat {
    if next.Cancelled? && lost != [] then 1 else 0
  }

  lemma LostUnseen(next: Next, more: seq<ConnectionEvent>, lost: seq<ConnectionEvent>, rest: seq<ConnectionEvent>, w: World)
    requires LostAtEnd(next, more, lost, rest, w)
    ensures Surfaced(LookedAt(next, more, lost)) == Surfaced(more)
    ensures LostOne(next, lost) <= Stalled(w)
  {
    if next.Cancelled? && lost != [] {
      assert (more + [lost[0]])[..|more|] == more;
    }
  }

  lemma LeavesOutCall(looked: seq<ConnectionEvent>, kept: seq<ConnectionEvent>, n: nat,
                      next: Next, more: seq<ConnectionEvent>, lost: seq<ConnectionEvent>, rest: seq<ConnectionEvent>, w: World)
    requires LeavesOut(looked, kept, n) && LostAtEnd(next, more, lost, rest, w)
    ensures LeavesOut(looked + LookedAt(next, more, lost), kept + more, n + LostOne(next, lost))
  {
    LeavesOutMore(looked, kept, n, more);
    if next.Cancelled? && lost != [] {
      LeavesOutLost(looked + more, kept + more, n, lost[0]);
      assert looked + (more + [lost[0]]) == looked + more + [lost[0]];
    }
  }

  lemma TallyOneMore(looked: seq<ConnectionEvent>, kept: seq<ConnectionEvent>, seen: seq<VoiceEvent>,
                     settings: seq<real>, before: seq<real>, after: seq<real>, gone: nat,
                     next: Next, more: seq<ConnectionEvent>, lost: seq<ConnectionEvent>, rest: seq<ConnectionEvent>, w: World)
    requires Tally(looked, kept, seen, settings, before, gone)
    requires Passed(more, EventOf(next), before, after, w.socketAlive) && LostAtEnd(next, more, lost, rest, w)
    ensures Tally(looked + LookedAt(next, more, lost), kept + more, seen + EventOf(next), settings, after,
                  gone + LostOne(next, lost))
  {
    LostUnseen(next, more, lost, rest, w);
    SeenGrows(looked, LookedAt(next, more, lost), seen, EventOf(next));
    SettingsGrow(settings, kept, more);
    LeavesOutCall(looked, kept, gone, next, more, lost, rest, w);
  }

  class GatewayConnection {
    /** Received and not yet looked at. */
    var events: seq<ConnectionEvent>
    /** Interval settings sent to the socket task. */
    var intervals: seq<real>

    constructor (events: seq<ConnectionEvent>)
      ensures this.events == events && intervals == []
    {
      this.events, intervals := events, [];
    }

    /**
      Skips acknowledgements, passes intervals on, and returns the next event there is to see. It fails when the
      channel is closed and drained, and on a fatal event, and panics on an interval out of range. It can be cancelled
      while it waits for an event, and while it waits for room to pass an interval on.
     */
    method NextEvent(w: World) returns (next: Next, ghost looked: seq<ConnectionEvent>, ghost lost: seq<ConnectionEvent>)
      modifies this
      ensures old(events) == looked + lost + events
      ensures Passed(looked, EventOf(next), old(intervals), intervals, w.socketAlive)
      ensures LostAtEnd(next, looked, lost, events, w) && ShowsLast(looked, next)
    {
      looked, lost := [], [];
      ghost var all, settings := events, intervals;
      var sent := 0;
      while events != []
        invariant all == looked + events && lost == []
        invariant Passed(looked, [], settings, intervals, w.socketAlive) && sent == |Intervals(looked)|
        invariant AllPassedOver(looked)
        decreases |events|
      {
        var first := events[0];
        SplitFirst(looked, events);
        events := events[1..];
        if PanicsOn(first) {
          return Panicked, looked, [first];
        }
        if Fatal(first, w.socketAlive) {
          return Failed, looked, [first];
        }
        if IsHello(first) && w.stalled == Some(sent) {
          return Cancelled, looked, [first];
        }
        NothingLost(looked + [first], events);
        match first {
          case Received(Surfacing(kind, content)) =>
            LookedAndSeen(looked, settings, intervals, w.socketAlive, first, Seen(kind, content));
            return Event(Seen(kind, content)), looked + [first], [];
          case SocketClosed =>
            LookedAndSeen(looked, settings, intervals, w.socketAlive, first, Closed);
            return Event(Closed), looked + [first], [];
          case Received(Hello(interval)) =>
            LookedPast(looked, settings, intervals, w.socketAlive, first);
            intervals := intervals + [interval];
            sent := sent + 1;
          case Received(HeartbeatAck) =>
            LookedPast(looked, settings, intervals, w.socketAlive, first);
        }
        looked := looked + [first];
      }
      NothingLost(looked, events);
      return if w.open then Cancelled else Failed, looked, [];
    }

    /**
      Asked again and again until it fails or panics, a connection shows everything there is to see, in order, up to
      the first fatal event, the first interval out of range, or the end.
     */
    method EverythingSeen(socketAlive: bool)
      returns (seen: seq<VoiceEvent>, panicked: bool, ghost looked: seq<ConnectionEvent>)
      modifies this
      ensures Passed(looked, seen, old(intervals), intervals, socketAlive)
      ensures EndsAt(old(events), looked, socketAlive, panicked)
    {
      seen, panicked, looked := [], false, [];
      ghost var all, start := events, intervals;
      while true
        invariant all == looked + events
        invariant Passed(looked, seen, start, intervals, socketAlive)
        decreases |events|
      {
        ghost var rest, settings := events, intervals;
        var next, more, lost := NextEvent(World(false, socketAlive, None));
        PassedMore(looked, more, seen, EventOf(next), start, settings, intervals, socketAlive);
        if !next.Event? {
          panicked := next == Panicked;
          CallEnds(rest, more, lost, events, next, World(false, socketAlive, None));
          EndsLater(looked, rest, more, socketAlive, panicked);
          looked, seen := looked + more, seen + [];
          return;
        }
        NothingLost(more, events);
        Regroup(looked, more, events);
        looked := looked + more;
        seen := seen + [next.event];
      }
    }

    /** One more call, with what the calls so far have added up to. */
    method AnotherCall(w: World, ghost all: seq<ConnectionEvent>, ghost settings: seq<real>, ghost looked: seq<ConnectionEvent>,
                       ghost kept: seq<ConnectionEvent>, ghost seen: seq<VoiceEvent>, ghost gone: nat)
      returns (next: Next, ghost nowLooked: seq<ConnectionEvent>, ghost nowKept: seq<ConnectionEvent>, ghost nowGone: nat)
      requires all == looked + events && Tally(looked, kept, seen, settings, intervals, gone)
      modifies this
      ensures nowLooked <= all && (next.Event? || next.Cancelled? ==> all == nowLooked + events)
      ensures Tally(nowLooked, nowKept, seen + EventOf(next), settings, intervals, nowGone)
      ensures nowGone <= gone + Stalled(w)
    {
      ghost var before, rest := intervals, events;
      ghost var more, lost;
      next, more, lost := NextEvent(w);
      nowLooked, nowKept, nowGone := looked + LookedAt(next, more, lost), kept + more, gone + LostOne(next, lost);
      LookedGrows(all, looked, rest, next, more, lost, events, w);
      LostUnseen(next, more, lost, events, w);
      TallyOneMore(looked, kept, seen, settings, before, intervals, gone, next, more, lost, events, w);
    }

    /** One call after another, whatever the world does to each, until one fails or panics, or they run out. */
    method SeveralCalls(worlds: seq<World>)
      returns (calls: nat, seen: seq<VoiceEvent>,
               ghost looked: seq<ConnectionEvent>, ghost kept: seq<ConnectionEvent>, ghost gone: nat)
      modifies this
      ensures calls <= |worlds| && gone <= Stalls(worlds, calls)
      ensures looked <= old(events) && Tally(looked, kept, seen, old(intervals), intervals, gone)
    {
      calls, seen, looked, kept, gone := 0, [], [], [], 0;
      ghost var all, settings := events, intervals;
      while calls < |worlds|
        invariant calls <= |worlds| && gone <= Stalls(worlds, calls)
        invariant all == looked + events && Tally(looked, kept, seen, settings, intervals, gone)
      {
        var next;
        next, looked, kept, gone := AnotherCall(worlds[calls], all, settings, looked, kept, seen, gone);
        calls, seen := calls + 1, seen + EventOf(next);
        if next == Failed || next == Panicked {
          return;
        }
      }
    }
  }

  // Heartbeats

  /** Ten hours, in milliseconds like the intervals a Hello announces. */
  const FIRST_INTERVAL: real := 36_000_000.0

  /** What the socket task wakes up for, and when. */
  datatype Wakeup = SetInterval(interval: real, at: real) | Timer(at: real) | Other(at: real)

  datatype Heart = Heart(interval: real, next: real)

  /** The timer fires at its deadline or later; everything else may happen at any time. */
  predicate Possible(heart: Heart, w: Wakeup) {
    w.Timer? ==> heart.next <= w.at
  }

  function Beat(heart: Heart, w: Wakeup): Heart {
    match w
    case SetInterval(interval, at) => Heart(interval, at + interval)
    case Timer(at) => Heart(heart.interval, at + heart.interval)
    case Other(_) => heart
  }

  function After(start: real, wakeups: seq<Wakeup>): Heart {
    if wakeups == [] then Heart(FIRST_INTERVAL, start + FIRST_INTERVAL)
    else Beat(After(start, wakeups[..|wakeups| - 1]), wakeups[|wakeups| - 1])
  }

  /** Time does not run backwards and the timer never fires early. */
  predicate Schedule(start: real, wakeups: seq<Wakeup>) {
    forall k :: 0 <= k < |wakeups| ==>
      && (if k == 0 then start else wakeups[k - 1].at) <= wakeups[k].at
      && Possible(After(start, wakeups[..k]), wakeups[k])
  }

  /** The index of the last wakeup that set the interval, or -1. */
  function LastSetting(wakeups: seq<Wakeup>): (i: int)
    ensures -1 <= i < |wakeups|
    ensures i >= 0 ==> wakeups[i].SetInterval?
    ensures forall k :: i < k < |wakeups| ==> !wakeups[k].SetInterval?
  {
    if wakeups == [] then -1
    else if wakeups[|wakeups| - 1].SetInterval? then |wakeups| - 1
    else LastSetting(wakeups[..|wakeups| - 1])
  }

  /** The index of the last wakeup that moved the deadline, or -1. */
  function LastReset(wakeups: seq<Wakeup>): (i: int)
    ensures -1 <= i < |wakeups|
    ensures i >= 0 ==> !wakeups[i].Other?
    ensures forall k :: i < k < |wakeups| ==> wakeups[k].Other?
  {
    if wakeups == [] then -1
    else if !wakeups[|wakeups| - 1].Other? then |wakeups| - 1
    else LastReset(wakeups[..|wakeups| - 1])
  }

  function IntervalInForce(wakeups: seq<Wakeup>): real {
    var i := LastSetting(wakeups);
    if i < 0 then FIRST_INTERVAL else wakeups[i].interval
  }

  /** The deadline is the interval in force after the last heartbeat or setting. */
  lemma {:induction false} DeadlineFromHistory(start: real, wakeups: seq<Wakeup>)
    ensures After(start, wakeups).interval == IntervalInForce(wakeups)
    ensures var i := LastReset(wakeups);
            After(start, wakeups).next == (if i < 0 then start else wakeups[i].at) + IntervalInForce(wakeups)
  {
    if wakeups != [] {
      DeadlineFromHistory(start, wakeups[..|wakeups| - 1]);
    }
  }

  lemma {:induction false} TimePasses(start: real, wakeups: seq<Wakeup>, i: nat, j: nat)
    requires Schedule(start, wakeups) && i <= j < |wakeups|
    ensures wakeups[i].at <= wakeups[j].at
    decreases j
  {
    if i < j {
      TimePasses(start, wakeups, i, j - 1);
    }
  }

  /** A heartbeat never follows an earlier heartbeat or setting by less than the interval in force. */
  lemma HeartbeatsSpaced(start: real, wakeups: seq<Wakeup>, i: nat, k: nat)
    requires Schedule(start, wakeups) && i < k < |wakeups| && wakeups[k].Timer? && !wakeups[i].Other?
    ensures wakeups[i].at + IntervalInForce(wakeups[..k]) <= wakeups[k].at
  {
    var last := LastReset(wakeups[..k]);
    DeadlineFromHistory(start, wakeups[..k]);
    assert wakeups[..k][i] == wakeups[i];
    assert i <= last;
    TimePasses(start, wakeups, i, last);
  }
}
