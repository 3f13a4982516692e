/**
  The bounded queue between a voice task and its call: the task reserves a slot
  before it takes a datagram from the socket, and gives the slot back whenever
  another branch of its select wins.
 */
module EventQueue {
  import opened DataChannel
  import opened Prelude

  const CAPACITY: nat := 32

  /** What travels through the queue: packets, and everything else by name. */
  datatype Item = PacketItem(packet: Received) | EventItem(event: nat)

  datatype Phase =
    /** Waiting for whichever branch is ready first. */
    | Selecting(reserved: bool)
    /** A packet was decrypted; its slot is still reserved. */
    | HoldingPacket(packet: Received)
    /** Another branch won; its events are sent one by one. */
    | Sending(events: seq<nat>)

  datatype System = System(
    phase: Phase,
    items: seq<Item>,
    consumed: seq<Item>,
    receiverAlive: bool,
    socket: seq<Received>,
    read: nat,
    sent: seq<Item>)
  {
    function Permits(): nat {
      if phase == Selecting(true) || phase.HoldingPacket? then 1 else 0
    }

    /** A slot is free; a closed queue hands out none. */
    predicate HasRoom() {
      receiverAlive && |items| + Permits() < CAPACITY
    }
  }

  datatype Action =
    // The voice task
    | Reserve
    | ReceiveDatagram
    | OtherBranch(events: seq<nat>)
    | ForwardPacket
    | SendEvent
    // The call
    | Consume
    | DropReceiver

  predicate IsPacket(r: Received) {
    r.Rtp? || r.Rtcp?
  }

  predicate Enabled(s: System, a: Action) {
    match a
    case Reserve => s.phase == Selecting(false) && s.HasRoom()
    case ReceiveDatagram => s.phase == Selecting(true) && s.read < |s.socket| && s.socket[s.read] != ReceivePanics
    case OtherBranch(_) => s.phase.Selecting?
    case ForwardPacket => s.phase.HoldingPacket?
    case SendEvent => s.phase.Sending? && s.phase.events != [] && (s.HasRoom() || !s.receiverAlive)
    case Consume => s.receiverAlive && s.items != []
    case DropReceiver => s.receiverAlive
  }

  function AfterSending(events: seq<nat>): Phase {
    if events == [] then Selecting(false) else Sending(events)
  }

  /** To a dropped receiver an item goes nowhere. */
  function Enqueue(s: System, item: Item): System {
    if s.receiverAlive then s.(items := s.items + [item], sent := s.sent + [item]) else s
  }

  function Apply(s: System, a: Action): System
    requires Enabled(s, a)
  {
    match a
    case Reserve => s.(phase := Selecting(true))
    case ReceiveDatagram =>
      var r := s.socket[s.read];
      s.(read := s.read + 1, phase := if IsPacket(r) then HoldingPacket(r) else Selecting(false))
    case OtherBranch(events) => s.(phase := AfterSending(events))
    case ForwardPacket => Enqueue(s.(phase := Selecting(false)), PacketItem(s.phase.packet))
    case SendEvent => Enqueue(s.(phase := AfterSending(s.phase.events[1..])), EventItem(s.phase.events[0]))
    case Consume => s.(items := s.items[1..], consumed := s.consumed + [s.items[0]])
    case DropReceiver => s.(items := [], receiverAlive := false)
  }

  predicate Reaches(s: System, actions: seq<Action>, end: System)
    decreases |actions|
  {
    if actions == [] then end == s
    else Enabled(s, actions[0]) && Reaches(Apply(s, actions[0]), actions[1..], end)
  }

  function Start(socket: seq<Received>): System {
    System(Selecting(false), [], [], true, socket, 0, [])
  }

  // What goes in comes out

  /** The packets among the queue's items. */
  function Packets(items: seq<Item>): seq<Received> {
    if items == [] then []
    else
      var n := |items| - 1;
      Packets(items[..n]) + if items[n].PacketItem? then [items[n].packet] else []
  }

  /** The datagrams that could be decrypted. */
  function Decrypted(datagrams: seq<Received>): seq<Received> {
    if datagrams == [] then []
    else
      var n := |datagrams| - 1;
      Decrypted(datagrams[..n]) + if IsPacket(datagrams[n]) then [datagrams[n]] else []
  }

  lemma PacketsSnoc(items: seq<Item>, item: Item)
    ensures Packets(items + [item]) == Packets(items) + if item.PacketItem? then [item.packet] else []
  {
    assert (items + [item])[..|items|] == items;
  }

  lemma DecryptedSnoc(datagrams: seq<Received>, n: nat)
    requires n < |datagrams|
    ensures Decrypted(datagrams[..n + 1]) == Decrypted(datagrams[..n]) + if IsPacket(datagrams[n]) then [datagrams[n]] else []
  {
    assert datagrams[..n + 1][..n] == datagrams[..n];
  }

  function InHand(phase: Phase): seq<Received> {
    if phase.HoldingPacket? then [phase.packet] else []
  }

  /** Room is there for whoever holds a permit. */
  predicate Bounded(s: System) {
    && s.read <= |s.socket|
    && |s.items| + s.Permits() <= CAPACITY
    && (s.phase.Sending? ==> s.phase.events != [])
    && (!s.receiverAlive ==> s.items == [])
  }

  /** The call has read what was sent, up to what is still queued. */
  predicate InOrder(consumed: seq<Item>, items: seq<Item>, sent: seq<Item>, alive: bool) {
    consumed <= sent && (alive ==> sent == consumed + items)
  }

  /** Nothing was lost, doubled or overtaken on the way, as long as somebody listened. */
  predicate Accounted(sent: seq<Item>, inHand: seq<Received>, datagrams: seq<Received>, alive: bool) {
    if alive then Packets(sent) + inHand == Decrypted(datagrams) else Packets(sent) <= Decrypted(datagrams)
  }

  predicate Invariant(s: System) {
    && Bounded(s)
    && InOrder(s.consumed, s.items, s.sent, s.receiverAlive)
    && Accounted(s.sent, InHand(s.phase), s.socket[..s.read], s.receiverAlive)
  }

  lemma DatagramAccounted(sent: seq<Item>, socket: seq<Received>, read: nat, alive: bool)
    requires read < |socket| && Accounted(sent, [], socket[..read], alive)
    ensures Accounted(sent, if IsPacket(socket[read]) then [socket[read]] else [], socket[..read + 1], alive)
  {
    DecryptedSnoc(socket, read);
  }

  lemma ItemAccounted(sent: seq<Item>, item: Item, datagrams: seq<Received>)
    requires Accounted(sent, if item.PacketItem? then [item.packet] else [], datagrams, true)
    ensures Accounted(sent + [item], [], datagrams, true)
  {
    PacketsSnoc(sent, item);
  }

  lemma ItemInOrder(consumed: seq<Item>, items: seq<Item>, sent: seq<Item>, item: Item)
    requires InOrder(consumed, items, sent, true)
    ensures InOrder(consumed, items + [item], sent + [item], true)
  {
  }

  lemma ConsumedInOrder(consumed: seq<Item>, items: seq<Item>, sent: seq<Item>)
    requires InOrder(consumed, items, sent, true) && items != []
    ensures InOrder(consumed + [items[0]], items[1..], sent, true)
  {
    assert items == [items[0]] + items[1..];
  }

  lemma StepKeepsOrder(s: System, a: Action)
    requires InOrder(s.consumed, s.items, s.sent, s.receiverAlive) && Enabled(s, a)
    ensures var s' := Apply(s, a); InOrder(s'.consumed, s'.items, s'.sent, s'.receiverAlive)
  {
    if a.Consume? {
      ConsumedInOrder(s.consumed, s.items, s.sent);
    } else if s.receiverAlive && a.ForwardPacket? {
      ItemInOrder(s.consumed, s.items, s.sent, PacketItem(s.phase.packet));
    } else if s.receiverAlive && a.SendEvent? {
      ItemInOrder(s.consumed, s.items, s.sent, EventItem(s.phase.events[0]));
    }
  }

  lemma StepKeepsAccount(s: System, a: Action)
    requires s.read <= |s.socket| && Accounted(s.sent, InHand(s.phase), s.socket[..s.read], s.receiverAlive) && Enabled(s, a)
    ensures var s' := Apply(s, a); Accounted(s'.sent, InHand(s'.phase), s.socket[..s'.read], s'.receiverAlive)
  {
    if a.ReceiveDatagram? {
      DatagramAccounted(s.sent, s.socket, s.read, s.receiverAlive);
    } else if s.receiverAlive && a.ForwardPacket? {
      ItemAccounted(s.sent, PacketItem(s.phase.packet), s.socket[..s.read]);
    } else if s.receiverAlive && a.SendEvent? {
      ItemAccounted(s.sent, EventItem(s.phase.events[0]), s.socket[..s.read]);
    }
  }

  lemma StepKeepsBounds(s: System, a: Action)
    requires Bounded(s) && Enabled(s, a)
    ensures Bounded(Apply(s, a)) && Apply(s, a).socket == s.socket
  {
    match a {
      case Reserve => assert Apply(s, a).Permits() == 1;
      case _ =>
    }
  }

  lemma StepKeepsInvariant(s: System, a: Action)
    requires Invariant(s) && Enabled(s, a)
    ensures Invariant(Apply(s, a)) && Apply(s, a).socket == s.socket
  {
    StepKeepsBounds(s, a);
    StepKeepsOrder(s, a);
    StepKeepsAccount(s, a);
  }

  /** However the branches win and whenever the call reads. */
  lemma {:induction false} EveryReachableState(s: System, actions: seq<Action>, end: System)
    requires Invariant(s) && Reaches(s, actions, end)
    ensures Invariant(end) && end.socket == s.socket
    decreases |actions|
  {
    if actions != [] {
      StepKeepsInvariant(s, actions[0]);
      EveryReachableState(Apply(s, actions[0]), actions[1..], end);
    }
  }

  lemma {:induction false} PacketsAppend(a: seq<Item>, b: seq<Item>)
    ensures Packets(a + b) == Packets(a) + Packets(b)
  {
    if b == [] {
      assert a + b == a;
    } else {
      var n := |b| - 1;
      assert (a + b)[..|a + b| - 1] == a + b[..n];
      PacketsAppend(a, b[..n]);
    }
  }

  /**
    Items and permits together never exceed the capacity. While the call listens, the packets it has read, those
    that are queued and the one in hand are exactly those decrypted so far, in order; afterwards, what it had read
    is a prefix of them.
   */
  lemma EveryPacketOnceInOrder(socket: seq<Received>, actions: seq<Action>, end: System)
    requires Reaches(Start(socket), actions, end)
    ensures |end.items| + end.Permits() <= 32 && end.read <= |socket|
    ensures !end.receiverAlive ==> end.items == []
    ensures end.receiverAlive ==>
              Packets(end.consumed) + Packets(end.items) + InHand(end.phase) == Decrypted(socket[..end.read])
    ensures Packets(end.consumed) <= Decrypted(socket[..end.read])
  {
    EveryReachableState(Start(socket), actions, end);
    PacketsAppend(end.consumed, end.items);
    PacketsAppend(end.consumed, end.sent[|end.consumed|..]);
    assert end.sent == end.consumed + end.sent[|end.consumed|..];
  }

  /** A packet in hand is never stuck: its slot is there. */
  lemma PacketHasItsSlot(socket: seq<Received>, actions: seq<Action>, end: System)
    requires Reaches(Start(socket), actions, end) && end.phase.HoldingPacket?
    ensures |end.items| < 32 && Enabled(end, ForwardPacket)
  {
    EveryReachableState(Start(socket), actions, end);
  }

  /** The task waits for room only when the queue is full of items, never on account of its own permit. */
  lemma WaitsOnlyForTheCall(socket: seq<Received>, actions: seq<Action>, end: System)
    requires Reaches(Start(socket), actions, end) && end.receiverAlive
    requires end.phase == Selecting(false) || end.phase.Sending?
    ensures (if end.phase.Sending? then Enabled(end, SendEvent) else Enabled(end, Reserve)) <==> |end.items| < 32
    ensures |end.items| == 32 ==> Enabled(end, Consume)
  {
    EveryReachableState(Start(socket), actions, end);
  }

  // The other events

  /** The events among the queue's items. */
  function Events(items: seq<Item>): seq<nat> {
    if items == [] then []
    else
      var rest, last := Events(items[..|items| - 1]), items[|items| - 1];
      if last.EventItem? then rest + [last.event] else rest
  }

  /** What the other branches that won had to say, in order. */
  function Said(actions: seq<Action>): seq<nat>
    decreases |actions|
  {
    if actions == [] then []
    else (if actions[0].OtherBranch? then actions[0].events else []) + Said(actions[1..])
  }

  function StillToSend(phase: Phase): seq<nat> {
    if phase.Sending? then phase.events else []
  }

  lemma EventsSnoc(items: seq<Item>, item: Item)
    ensures Events(items + [item]) == if item.EventItem? then Events(items) + [item.event] else Events(items)
  {
    assert (items + [item])[..|items|] == items;
  }

  lemma StepSaysInOrder(s: System, a: Action)
    requires Enabled(s, a) && Apply(s, a).receiverAlive
    ensures Events(Apply(s, a).sent) + StillToSend(Apply(s, a).phase) ==
            Events(s.sent) + StillToSend(s.phase) + if a.OtherBranch? then a.events else []
  {
    match a
    case ForwardPacket => EventsSnoc(s.sent, PacketItem(s.phase.packet));
    case SendEvent =>
      EventsSnoc(s.sent, EventItem(s.phase.events[0]));
      assert s.phase.events == [s.phase.events[0]] + s.phase.events[1..];
    case _ =>
  }

  lemma DroppedForGood(s: System, a: Action)
    requires Enabled(s, a) && Apply(s, a).receiverAlive
    ensures s.receiverAlive
  {
  }

  lemma {:induction false} StaysDropped(s: System, actions: seq<Action>, end: System)
    requires Reaches(s, actions, end) && end.receiverAlive
    ensures s.receiverAlive
    decreases |actions|
  {
    if actions != [] {
      StaysDropped(Apply(s, actions[0]), actions[1..], end);
      DroppedForGood(s, actions[0]);
    }
  }

  lemma {:induction false} SaidInOrder(s: System, actions: seq<Action>, end: System)
    requires Reaches(s, actions, end) && end.receiverAlive
    ensures Events(end.sent) + StillToSend(end.phase) == Events(s.sent) + StillToSend(s.phase) + Said(actions)
    decreases |actions|
  {
    if actions != [] {
      var s' := Apply(s, actions[0]);
      StaysDropped(s', actions[1..], end);
      var one := if actions[0].OtherBranch? then actions[0].events else [];
      StepSaysInOrder(s, actions[0]);
      SaidInOrder(s', actions[1..], end);
      Regroup(Events(s.sent) + StillToSend(s.phase), one, Said(actions[1..]));
    }
  }

  lemma {:induction false} EventsAppend(a: seq<Item>, b: seq<Item>)
    ensures Events(a + b) == Events(a) + Events(b)
  {
    if b == [] {
      assert a + b == a;
    } else {
      var n := |b| - 1;
      assert (a + b)[..|a + b| - 1] == a + b[..n];
      EventsAppend(a, b[..n]);
    }
  }

  lemma SaidFromStart(socket: seq<Received>, actions: seq<Action>, end: System)
    requires Reaches(Start(socket), actions, end) && end.receiverAlive
    ensures Events(end.sent) + StillToSend(end.phase) == Said(actions)
  {
    SaidInOrder(Start(socket), actions, end);
    assert [] + [] + Said(actions) == Said(actions);
  }

  lemma QueuedIsSent(socket: seq<Received>, actions: seq<Action>, end: System)
    requires Reaches(Start(socket), actions, end) && end.receiverAlive
    ensures end.sent == end.consumed + end.items
  {
    EveryReachableState(Start(socket), actions, end);
  }

  /**
    While the call listens, the events it has read, those that are queued and those still to be sent are exactly what
    the other branches had to say, in order.
   */
  lemma EveryEventOnceInOrder(socket: seq<Received>, actions: seq<Action>, end: System)
    requires Reaches(Start(socket), actions, end) && end.receiverAlive
    ensures Events(end.consumed) + Events(end.items) + StillToSend(end.phase) == Said(actions)
  {
    SaidFromStart(socket, actions, end);
    QueuedIsSent(socket, actions, end);
    EventsAppend(end.consumed, end.items);
  }

  // The permit

  predicate IsTasks(a: Action) {
    !a.Consume? && !a.DropReceiver?
  }

  /** The task's last step was to reserve a slot, or to receive what could be decrypted. */
  predicate EndsReserved(socket: seq<Received>, before: System, a: Action)
    requires before.read <= |socket|
  {
    a.Reserve? || (a.ReceiveDatagram? && before.read < |socket| && IsPacket(socket[before.read]))
  }

  /** A slot stays reserved exactly from there to the task's next step: no other branch and no error keeps it. */
  lemma PermitExactly(s: System, a: Action)
    requires Bounded(s) && Enabled(s, a)
    ensures IsTasks(a) ==> (Apply(s, a).Permits() == 1 <==> EndsReserved(s.socket, s, a))
    ensures !IsTasks(a) ==> Apply(s, a).Permits() == s.Permits()
  {
    match a
    case ForwardPacket => assert Apply(s, a).Permits() == 0;
    case _ =>
  }
}
