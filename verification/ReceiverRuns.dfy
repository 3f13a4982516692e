/** Whole runs of the receiving mixer: any calls in any order, with whatever the outside world answers. */
module ReceiverRuns {
  import opened Prelude
  import opened DataChannel
  import opened Samples
  import opened JitterBuffers
  import opened Ownership
  import opened ReceiverState
  import opened ReceiverFetches

  /** What may happen to a receiver, with what the outside world answers. */
  datatype Event =
    | Maps(user: nat, ssrc: nat, decoderCreated: bool)
    | Unmaps(unmapped: nat)
    | Fetches(fetchedAt: nat)
    | Receives(packet: Received, decode: Decoder, receivedAt: nat)

  /** What comes of it; for a fetch also what was taken, and everybody's turn. */
  datatype Outcome =
    | Done
    | Fetched(result: FetchResult, taken: seq<Taken>, turns: map<nat, Turn>)
    | Handled(put: Option<PutResult>)

  ghost predicate Step(m: Mixer, e: Event, o: Outcome, m': Mixer) {
    match e
    case Maps(user, ssrc, created) => o == Done && m' == Mapped(m, user, ssrc, created)
    case Unmaps(user) => o == Done && m' == Unmapped(m, user)
    case Fetches(now) => o.Fetched? && FetchStep(m, now, o.result, o.taken, o.turns, m')
    case Receives(packet, decode, now) =>
      FromSocket(packet) && o.Handled? && PacketStep(m, packet, decode, now, o.put, m')
  }

  predicate Panics(o: Outcome) {
    o.Fetched? && o.result == MixPanics
  }

  /** A run with the states it goes through and what comes of each event. */
  datatype Run = Run(states: seq<Mixer>, events: seq<Event>, outcomes: seq<Outcome>) {
    predicate Fits() {
      |states| == |events| + 1 && |outcomes| == |events|
    }

    ghost predicate WellFormedAt(k: nat)
      requires k < |states|
    {
      WellFormed(states[k])
    }

    ghost predicate StepAt(k: nat)
      requires Fits() && k < |events|
    {
      Step(states[k], events[k], outcomes[k], states[k + 1])
    }

    /** A panic ends the process, so nothing follows it. */
    ghost predicate Valid() {
      && Fits()
      && (forall k: nat :: k < |states| ==> WellFormedAt(k))
      && (forall k: nat :: k < |events| ==> StepAt(k))
      && forall k :: 0 <= k < |events| - 1 ==> !Panics(outcomes[k])
    }

    function Then(e: Event, o: Outcome, m: Mixer): Run {
      Run(states + [m], events + [e], outcomes + [o])
    }

    predicate From(m: Mixer) {
      |states| > 0 && states[0] == m
    }

    predicate To(m: Mixer) {
      |states| > 0 && states[|states| - 1] == m
    }

    predicate Panicked() {
      |outcomes| > 0 && Panics(outcomes[|outcomes| - 1])
    }
  }

  // Every step keeps the books

  lemma StoredKeepsOwned(ps: Participants, ps': Participants, place: map<nat, Place>, s: nat, timestamp: U32,
                         voice: seq<Sample>, now: nat, id: nat, put: PutResult)
    requires Owned(ps, place) && id !in place && s in ps && s in ps' && ps' == ps[s := ps'[s]]
    requires StoredAs(ps[s], ps'[s], timestamp, voice, now, id, put)
    ensures Owned(ps', place[id := if Refused(put) then Freed else Queued(s)])
  {
    assert Queue(ps, s) == BufferFor(ps[s], now).queue;
    if Refused(put) {
      OwnedAfterRefusal(ps, ps', place, id);
    } else {
      var frame := Frame(id, voice, DurationMs(|voice|), JitterTimestamp(FirstTimestamp(ps[s], timestamp), timestamp));
      var at :| 0 <= at <= |Queue(ps, s)| && Queue(ps', s) == Queue(ps, s)[..at] + [frame] + Queue(ps, s)[at..];
      OwnedAfterPut(ps, ps', place, s, frame, at);
    }
  }

  /** What of a packet's step concerns only the maps and the times. */
  ghost predicate PacketShape(m: Mixer, ssrc: nat, put: PutResult, m': Mixer) {
    && OnePayloadMore(m, ssrc, put, m') && HasBuffer(m'.participants, ssrc)
    && (put != PutFailed(Scheduled) ==> NextTime(m'.participants, ssrc) == NextTime(m.participants, ssrc))
  }

  lemma StoredTimes(before: OtherParticipant, after: OtherParticipant, timestamp: U32, voice: seq<Sample>,
                    now: nat, id: nat, put: PutResult)
    requires StoredAs(before, after, timestamp, voice, now, id, put)
    ensures after.jitterbuf.Some?
    ensures put != PutFailed(Scheduled) ==>
              after.jitterbuf.value.NextFrame() == if before.jitterbuf.Some? then before.jitterbuf.value.NextFrame() else None
  {
  }

  lemma PacketHasShape(m: Mixer, packet: Received, decode: Decoder, now: nat, put: Option<PutResult>, m': Mixer)
    requires FromSocket(packet) && PacketStep(m, packet, decode, now, put, m')
    ensures if put == None then m' == m else packet.Rtp? && PacketShape(m, packet.ssrc, put.value, m')
  {
    if put.Some? {
      StoredTimes(m.participants[packet.ssrc], m'.participants[packet.ssrc], packet.timestamp,
                  Voice(packet, m.participants, decode).value, now, m.boxed, put.value);
    }
  }

  lemma ShapeKeepsFit(m: Mixer, ssrc: nat, put: PutResult, m': Mixer)
    requires MapsFit(m.users, m.participants, m.known) && PacketShape(m, ssrc, put, m')
    ensures MapsFit(m'.users, m'.participants, m'.known)
  {
  }

  lemma ShapeTimes(m: Mixer, ssrc: nat, put: PutResult, m': Mixer, s: nat)
    requires PacketShape(m, ssrc, put, m')
    ensures s != ssrc || put != PutFailed(Scheduled) ==> NextTime(m'.participants, s) == NextTime(m.participants, s)
  {
  }

  lemma PacketKeepsWellFormed(m: Mixer, packet: Received, decode: Decoder, now: nat, put: Option<PutResult>, m': Mixer)
    requires WellFormed(m) && FromSocket(packet) && PacketStep(m, packet, decode, now, put, m')
    ensures WellFormed(m')
  {
    PacketHasShape(m, packet, decode, now, put, m');
    if put.Some? {
      ShapeKeepsFit(m, packet.ssrc, put.value, m');
      StoredKeepsOwned(m.participants, m'.participants, m.place, packet.ssrc, packet.timestamp,
                       Voice(packet, m.participants, decode).value, now, m.boxed, put.value);
    }
  }

  lemma UnmappingKeepsWellFormed(m: Mixer, user: nat)
    requires WellFormed(m)
    ensures WellFormed(Unmapped(m, user))
    ensures Advances(m.place, Unmapped(m, user).place) && MixedNothing(m.place, Unmapped(m, user).place)
  {
    if user in m.users {
      var ssrc := m.users[user];
      UnmappingKeepsFit(m.users, m.participants, m.known, user);
      OwnedAfterTaking(m.participants, m.participants - {ssrc}, m.place, ssrc, Queue(m.participants, ssrc), Freed);
      FreeingMixesNothing(m.place, Queue(m.participants, ssrc));
    }
  }

  lemma MappingKeepsWellFormed(m: Mixer, user: nat, ssrc: nat, decoderCreated: bool)
    requires WellFormed(m)
    ensures WellFormed(Mapped(m, user, ssrc, decoderCreated))
  {
    var m' := Mapped(m, user, ssrc, decoderCreated);
    if m' != m {
      MappingKeepsFit(m.users, m.participants, m.known, user, ssrc, m'.participants[ssrc]);
      forall s: nat
        ensures Booked(s, Queue(m'.participants, s), m'.place)
      {
        assert Booked(s, Queue(m.participants, s), m.place);
      }
    }
  }

  lemma FetchKeepsWellFormed(m: Mixer, now: nat, result: FetchResult, taken: seq<Taken>, turns: map<nat, Turn>, m': Mixer)
    requires WellFormed(m) && FetchStep(m, now, result, taken, turns, m')
    ensures WellFormed(m')
  {
    if TimeReached(m'.known, now) {
      forall s | s in m.participants
        ensures HasBuffer(m'.participants, s) <==> HasBuffer(m.participants, s)
      {
        assert TakenFrom(m.participants, m'.participants, taken, turns, s);
      }
    }
  }

  lemma StepKeepsWellFormed(m: Mixer, e: Event, o: Outcome, m': Mixer)
    requires WellFormed(m) && Step(m, e, o, m')
    ensures WellFormed(m')
  {
    match e {
      case Maps(user, ssrc, created) => MappingKeepsWellFormed(m, user, ssrc, created);
      case Unmaps(user) => UnmappingKeepsWellFormed(m, user);
      case Fetches(now) => FetchKeepsWellFormed(m, now, o.result, o.taken, o.turns, m');
      case Receives(packet, decode, now) => PacketKeepsWellFormed(m, packet, decode, now, o.put, m');
    }
  }

  ghost predicate Leads(run: Run, start: Mixer, end: Mixer) {
    run.Valid() && run.From(start) && run.To(end)
  }

  lemma EmptyRun(m: Mixer)
    requires WellFormed(m)
    ensures Leads(Run([m], [], []), m, m)
  {
  }

  lemma RunGoesOn(run: Run, start: Mixer, m: Mixer, e: Event, o: Outcome, m': Mixer)
    requires Leads(run, start, m) && Step(m, e, o, m') && !run.Panicked()
    ensures Leads(run.Then(e, o, m'), start, m')
  {
    var run' := run.Then(e, o, m');
    assert run.WellFormedAt(|run.events|);
    StepKeepsWellFormed(m, e, o, m');
    forall k: nat | k < |run'.states|
      ensures run'.WellFormedAt(k)
    {
      assert k < |run.states| ==> run.WellFormedAt(k);
    }
    forall k: nat | k < |run'.events|
      ensures run'.StepAt(k)
    {
      assert k < |run.events| ==> run.StepAt(k);
    }
  }

  // Never sleep past a due frame: when the remembered time is too late for somebody

  /** This participant's next frame is due before the remembered time. */
  ghost predicate Late(m: Mixer, s: nat) {
    m.known.Some? && NextTime(m.participants, s).Some? && NextTime(m.participants, s).value < m.known.value.due
  }

  /** The packet was stored and its participant's next frame scheduled anew. */
  ghost predicate Reschedules(e: Event, o: Outcome) {
    e.Receives? && e.packet.Rtp? && o == Handled(Some(PutFailed(Scheduled)))
  }

  /** The remembered participant's next frame is scheduled anew, to a time after this other participant's. */
  ghost predicate OvertakesOne(m: Mixer, e: Event, o: Outcome, m': Mixer, s: nat) {
    && Reschedules(e, o) && m.known.Some? && m.known.value.ssrc == e.packet.ssrc != s
    && NextTime(m'.participants, e.packet.ssrc).Some? && NextTime(m.participants, s).Some?
    && NextTime(m.participants, s).value < NextTime(m'.participants, e.packet.ssrc).value
  }

  /**
    What helps a participant that is late: it or the remembered one is unmapped, a fetch delays or ends its schedule,
    or a packet schedules anew, its own or anybody's to a time no later than its own.
   */
  ghost predicate Helps(m: Mixer, e: Event, o: Outcome, m': Mixer, s: nat) {
    Late(m, s) &&
    match e
    case Maps(_, _, _) => false
    case Unmaps(user) => user in m.users && (m.users[user] == s || m.users[user] == m.known.value.ssrc)
    case Fetches(_) => NextTime(m'.participants, s) == None || m.known.value.due <= NextTime(m'.participants, s).value
    case Receives(packet, _, _) =>
      && Reschedules(e, o)
      && (packet.ssrc == s
          || (NextTime(m'.participants, packet.ssrc).Some?
              && NextTime(m'.participants, packet.ssrc).value <= NextTime(m.participants, s).value))
  }

  lemma LateAfterFetch(m: Mixer, e: Event, o: Outcome, m': Mixer, s: nat)
    requires e.Fetches? && Step(m, e, o, m')
    ensures Late(m', s) <==> Late(m, s) && !Helps(m, e, o, m', s)
  {
    if TimeReached(m'.known, e.fetchedAt) {
      RoundDelaysOnly(m.participants, m'.participants, o.taken, o.turns, m'.known);
      assert TimeNotEarlier(NextTime(m.participants, s), NextTime(m'.participants, s));
    }
  }

  /** What a packet that is stored does to the times: its own participant's may change, nobody else's. */
  ghost predicate TimesAfterPacket(m: Mixer, e: Event, o: Outcome, m': Mixer, s: nat) {
    && e.Receives? && o.Handled? && (o.put.Some? ==> e.packet.Rtp?)
    && (!e.packet.Rtp? || s != e.packet.ssrc || o.put != Some(PutFailed(Scheduled)) ==>
          NextTime(m'.participants, s) == NextTime(m.participants, s))
    && m'.known == if o.put == Some(PutFailed(Scheduled))
                   then Rescheduled(m.known, e.packet.ssrc, NextTime(m'.participants, e.packet.ssrc)) else m.known
  }

  lemma PacketTimes(m: Mixer, e: Event, o: Outcome, m': Mixer, s: nat)
    requires e.Receives? && Step(m, e, o, m')
    ensures TimesAfterPacket(m, e, o, m', s)
  {
    PacketHasShape(m, e.packet, e.decode, e.receivedAt, o.put, m');
    if o.put.Some? {
      ShapeTimes(m, e.packet.ssrc, o.put.value, m', s);
    }
  }

  lemma LateAfterPacket(m: Mixer, e: Event, o: Outcome, m': Mixer, s: nat)
    requires TimesAfterPacket(m, e, o, m', s)
    ensures Late(m', s) <==> OvertakesOne(m, e, o, m', s) || (Late(m, s) && !Helps(m, e, o, m', s))
  {
  }

  /** A participant is late after a step exactly if the step overtakes it, or it was late and the step does not help. */
  lemma LateExactly(m: Mixer, e: Event, o: Outcome, m': Mixer, s: nat)
    requires Step(m, e, o, m')
    ensures Late(m', s) <==> OvertakesOne(m, e, o, m', s) || (Late(m, s) && !Helps(m, e, o, m', s))
  {
    match e {
      case Maps(_, _, _) =>
        assert NextTime(m'.participants, s) == NextTime(m.participants, s);
      case Unmaps(_) =>
      case Fetches(_) => LateAfterFetch(m, e, o, m', s);
      case Receives(_, _, _) =>
        PacketTimes(m, e, o, m', s);
        LateAfterPacket(m, e, o, m', s);
    }
  }

  // The same at each step of a run

  ghost predicate LateAt(run: Run, s: nat, k: nat) {
    k < |run.states| && Late(run.states[k], s)
  }

  ghost predicate OvertakesAt(run: Run, s: nat, k: nat) {
    run.Fits() && k < |run.events| && OvertakesOne(run.states[k], run.events[k], run.outcomes[k], run.states[k + 1], s)
  }

  ghost predicate HelpsAt(run: Run, s: nat, k: nat) {
    run.Fits() && k < |run.events| && Helps(run.states[k], run.events[k], run.outcomes[k], run.states[k + 1], s)
  }

  lemma LateLaw(run: Run, s: nat, k: nat)
    requires run.Valid() && k < |run.events|
    ensures LateAt(run, s, k + 1) <==> OvertakesAt(run, s, k) || (LateAt(run, s, k) && !HelpsAt(run, s, k))
  {
    assert run.StepAt(k);
    LateExactly(run.states[k], run.events[k], run.outcomes[k], run.states[k + 1], s);
  }

  /** What a step switches on or off is on exactly if some step switched it on and none has switched it off since. */
  lemma {:induction false} OnSince(on: nat -> bool, starts: nat -> bool, stops: nat -> bool, k: nat)
    requires !on(0) && forall i: nat :: i < k ==> (on(i + 1) <==> starts(i) || (on(i) && !stops(i)))
    ensures on(k) <==> exists j: nat :: j < k && starts(j) && forall i: nat :: j < i < k ==> !stops(i)
  {
    if k > 0 {
      OnSince(on, starts, stops, k - 1);
      if on(k) {
        if starts(k - 1) {
          assert forall i: nat :: k - 1 < i < k ==> !stops(i);
        } else {
          var j: nat :| j < k - 1 && starts(j) && forall i: nat :: j < i < k - 1 ==> !stops(i);
          assert forall i: nat :: j < i < k ==> !stops(i);
        }
      }
      if j: nat :| j < k && starts(j) && forall i: nat :: j < i < k ==> !stops(i) {
        if j < k - 1 {
          assert on(k - 1);
        }
      }
    }
  }

  /** The `j`-th step overtook the participant, and none since has helped it. */
  ghost predicate LateSince(run: Run, s: nat, j: nat, k: nat) {
    OvertakesAt(run, s, j) && forall i: nat :: j < i < k ==> !HelpsAt(run, s, i)
  }

  lemma LateSinceMeans(run: Run, s: nat, starts: nat -> bool, stops: nat -> bool, j: nat, k: nat)
    requires starts(j) == OvertakesAt(run, s, j) && forall i: nat :: stops(i) == HelpsAt(run, s, i)
    ensures LateSince(run, s, j, k) <==> starts(j) && forall i: nat :: j < i < k ==> !stops(i)
  {
    if starts(j) && forall i: nat :: j < i < k ==> !stops(i) {
      forall i: nat | j < i < k
        ensures !HelpsAt(run, s, i)
      {
        assert !stops(i);
      }
    }
  }

  /** Over any run, a participant is late exactly since a packet that overtook it and that nothing has made up for. */
  lemma LateOverRun(run: Run, s: nat, k: nat)
    requires run.Valid() && k <= |run.events| && !LateAt(run, s, 0)
    ensures LateAt(run, s, k) <==> exists j: nat :: j < k && LateSince(run, s, j, k)
  {
    var on, starts, stops := (i: nat) => LateAt(run, s, i), (i: nat) => OvertakesAt(run, s, i), (i: nat) => HelpsAt(run, s, i);
    forall i: nat | i < k
      ensures on(i + 1) <==> starts(i) || (on(i) && !stops(i))
    {
      LateLaw(run, s, i);
    }
    OnSince(on, starts, stops, k);
    forall j: nat
      ensures LateSince(run, s, j, k) <==> starts(j) && forall i: nat :: j < i < k ==> !stops(i)
    {
      LateSinceMeans(run, s, starts, stops, j, k);
    }
  }

  /** The remembered time bounds every next frame's time exactly if nobody is late. */
  lemma BoundMeansNobodyLate(m: Mixer)
    ensures IsLowerBound(m.known, m.participants) <==> forall s: nat :: !Late(m, s)
  {
    if m.known.Some? && forall s: nat :: !Late(m, s) {
      forall s: nat | NextTime(m.participants, s).Some?
        ensures m.known.value.due <= NextTime(m.participants, s).value
      {
        assert !Late(m, s);
      }
    }
  }

  /** The k-th event overtakes somebody. */
  ghost predicate OvertakingAt(run: Run, k: nat)
    requires run.Fits() && k < |run.events|
  {
    && Reschedules(run.events[k], run.outcomes[k])
    && Overtakes(run.states[k].known, run.states[k].participants, run.events[k].packet.ssrc,
                 NextTime(run.states[k + 1].participants, run.events[k].packet.ssrc))
  }

  ghost predicate BoundedAt(run: Run, k: nat)
    requires k < |run.states|
  {
    IsLowerBound(run.states[k].known, run.states[k].participants)
  }

  lemma BoundAfterPacket(m: Mixer, packet: Received, decode: Decoder, now: nat, put: Option<PutResult>, m': Mixer)
    requires FromSocket(packet) && PacketStep(m, packet, decode, now, put, m') && IsLowerBound(m.known, m.participants)
    ensures IsLowerBound(m'.known, m'.participants) <==>
            !(put == Some(PutFailed(Scheduled))
              && Overtakes(m.known, m.participants, packet.ssrc, NextTime(m'.participants, packet.ssrc)))
  {
    var e, o := Receives(packet, decode, now), Handled(put);
    forall s: nat
      ensures packet.Rtcp? || s != packet.ssrc || put != Some(PutFailed(Scheduled)) ==>
                NextTime(m'.participants, s) == NextTime(m.participants, s)
    {
      PacketTimes(m, e, o, m', s);
    }
    if put == Some(PutFailed(Scheduled)) {
      RescheduleKeepsBoundExactly(m.known, m.participants, m'.participants, packet.ssrc);
    }
  }

  lemma BoundAfterStep(run: Run, k: nat)
    requires run.Valid() && k < |run.events| && BoundedAt(run, k)
    ensures BoundedAt(run, k + 1) <==> !OvertakingAt(run, k)
  {
    var m, e, o, m' := run.states[k], run.events[k], run.outcomes[k], run.states[k + 1];
    assert run.StepAt(k);
    BoundMeansNobodyLate(m);
    BoundMeansNobodyLate(m');
    forall s: nat
      ensures Late(m', s) <==> OvertakesOne(m, e, o, m', s)
    {
      LateExactly(m, e, o, m', s);
    }
    if OvertakingAt(run, k) {
      var s: nat :| s != e.packet.ssrc && NextTime(m.participants, s).Some?
                    && NextTime(m.participants, s).value < NextTime(m'.participants, e.packet.ssrc).value;
      assert OvertakesOne(m, e, o, m', s);
    }
  }

  lemma {:induction false} AsLongAs(holds: nat -> bool, breaks: nat -> bool, n: nat)
    requires holds(0) && forall k: nat :: k < n && holds(k) ==> (holds(k + 1) <==> !breaks(k))
    ensures (forall k: nat :: k <= n ==> holds(k)) <==> (forall k: nat :: k < n ==> !breaks(k))
  {
    if n > 0 {
      AsLongAs(holds, breaks, n - 1);
      if holds(n - 1) {
        assert holds(n) <==> !breaks(n - 1);
      }
      if forall k: nat :: k <= n ==> holds(k) {
        assert holds(n - 1) && holds(n);
      }
    }
  }

  /** Over any run that starts bounded, the bound holds at every state up to `n` exactly if no event before overtakes. */
  lemma BoundOverRun(run: Run, n: nat)
    requires run.Valid() && n <= |run.events| && BoundedAt(run, 0)
    ensures (forall k: nat :: k <= n ==> BoundedAt(run, k)) <==>
            (forall k: nat :: k < n ==> !OvertakingAt(run, k))
  {
    var holds := (k: nat) => k < |run.states| && BoundedAt(run, k);
    var breaks := (k: nat) => k < |run.events| && OvertakingAt(run, k);
    forall k: nat | k < n && holds(k)
      ensures holds(k + 1) <==> !breaks(k)
    {
      BoundAfterStep(run, k);
    }
    AsLongAs(holds, breaks, n);
    assert forall k: nat :: k <= n ==> (holds(k) <==> BoundedAt(run, k));
    assert forall k: nat :: k < n ==> (breaks(k) <==> OvertakingAt(run, k));
  }

  /** Told to come back later while nobody is late: nothing is due by now, nor before the time told. */
  lemma NoFrameDueBefore(m: Mixer, e: Event, o: Outcome, m': Mixer)
    requires Step(m, e, o, m') && e.Fetches? && o.result.CheckBackLater? && IsLowerBound(m'.known, m'.participants)
    ensures forall s: nat :: NextTime(m'.participants, s).Some? ==>
              e.fetchedAt < o.result.time <= NextTime(m'.participants, s).value
  {
  }

  // Once the remembered time is reached

  /** Nothing will be slept for: the remembered time is past, or nothing is scheduled that could be remembered. */
  ghost predicate Spent(m: Mixer, now: nat) {
    if m.known.Some? then m.known.value.due <= now else forall s: nat :: NextTime(m.participants, s) == None
  }

  predicate ToldToWait(o: Outcome) {
    o.Fetched? && o.result.CheckBackLater?
  }

  /** Neither a packet nor the end of the remembered participant. */
  predicate LeavesRemembered(m: Mixer, e: Event) {
    match e
    case Receives(_, _, _) => false
    case Unmaps(user) => user in m.users && m.known.Some? ==> m.users[user] != m.known.value.ssrc
    case _ => true
  }

  lemma SpentStays(m: Mixer, e: Event, o: Outcome, m': Mixer, now: nat)
    requires Step(m, e, o, m') && Spent(m, now) && LeavesRemembered(m, e)
    ensures Spent(m', now)
  {
    if m'.known == None {
      forall s: nat
        ensures NextTime(m'.participants, s) == None
      {
        assert NextTime(m.participants, s) == None;
      }
    }
  }

  lemma FetchedMeansSpent(m: Mixer, e: Event, o: Outcome, m': Mixer)
    requires Step(m, e, o, m') && e.Fetches?
    ensures ToldToWait(o) <==> !Spent(m', e.fetchedAt)
  {
  }

  /**
    After a fetch that was not told to come back, no later fetch is either, until a packet comes or the remembered
    participant goes: a remembered time is never forgotten.
   */
  lemma {:induction false} NeverToldAgain(run: Run, i: nat, j: nat)
    requires run.Valid() && i < j < |run.events| && run.events[i].Fetches? && run.events[j].Fetches?
    requires run.events[i].fetchedAt <= run.events[j].fetchedAt && !ToldToWait(run.outcomes[i])
    requires forall k :: i < k < j ==> LeavesRemembered(run.states[k], run.events[k])
    ensures !ToldToWait(run.outcomes[j])
  {
    var now := run.events[i].fetchedAt;
    assert run.StepAt(i) && run.StepAt(j);
    FetchedMeansSpent(run.states[i], run.events[i], run.outcomes[i], run.states[i + 1]);
    for k := i + 1 to j
      invariant Spent(run.states[k], now)
    {
      assert run.StepAt(k);
      SpentStays(run.states[k], run.events[k], run.outcomes[k], run.states[k + 1], now);
    }
    SpentStays(run.states[j], run.events[j], run.outcomes[j], run.states[j + 1], now);
    FetchedMeansSpent(run.states[j], run.events[j], run.outcomes[j], run.states[j + 1]);
  }

  // One length

  /** Every frame queued has this many samples. */
  ghost predicate AllOfLength(ps: Participants, n: nat) {
    forall s: nat, i: nat | i < |Queue(ps, s)| :: |Queue(ps, s)[i].data| == n
  }

  /** If the event is a packet that can be decoded, its decoder reports this count. */
  ghost predicate Counts(m: Mixer, e: Event, n: nat) {
    e.Receives? && FromSocket(e.packet) && Voice(e.packet, m.participants, e.decode).Some? ==>
      |Voice(e.packet, m.participants, e.decode).value| == n
  }

  ghost predicate In(queue: seq<Frame>, frame: Frame) {
    exists j :: 0 <= j < |queue| && queue[j] == frame
  }

  lemma FetchQueues(m: Mixer, e: Event, o: Outcome, m': Mixer, s: nat, i: nat)
    requires e.Fetches? && Step(m, e, o, m') && i < |Queue(m'.participants, s)|
    ensures In(Queue(m.participants, s), Queue(m'.participants, s)[i])
  {
    var before, after := Queue(m.participants, s), Queue(m'.participants, s);
    if TimeReached(m'.known, e.fetchedAt) {
      assert TakenFrom(m.participants, m'.participants, o.taken, o.turns, s);
      assert before[|before| - |after| + i] == after[i];
    } else {
      assert before[i] == after[i];
    }
  }

  lemma StoredQueues(before: seq<Frame>, after: seq<Frame>, frame: Frame, put: PutResult, i: nat)
    requires AfterPut(before, after, frame, put) && i < |after|
    ensures In(before, after[i]) || after[i] == frame
  {
    if Refused(put) {
      assert before[i] == after[i];
    } else {
      var at :| 0 <= at <= |before| && after == before[..at] + [frame] + before[at..];
      assert after[i] == if i < at then before[i] else if i == at then frame else before[i - 1];
    }
  }

  lemma StoredInQueue(before: OtherParticipant, after: OtherParticipant, timestamp: U32, voice: seq<Sample>,
                      now: nat, id: nat, put: PutResult, i: nat)
    requires StoredAs(before, after, timestamp, voice, now, id, put) && i < |after.jitterbuf.value.queue|
    ensures var queue := if before.jitterbuf.Some? then before.jitterbuf.value.queue else [];
            In(queue, after.jitterbuf.value.queue[i]) || after.jitterbuf.value.queue[i].data == voice
  {
    var frame := Frame(id, voice, DurationMs(|voice|), JitterTimestamp(FirstTimestamp(before, timestamp), timestamp));
    StoredQueues(BufferFor(before, now).queue, after.jitterbuf.value.queue, frame, put, i);
  }

  lemma PacketQueues(m: Mixer, packet: Received, decode: Decoder, now: nat, put: PutResult, m': Mixer, s: nat, i: nat)
    requires FromSocket(packet) && PacketStep(m, packet, decode, now, Some(put), m') && i < |Queue(m'.participants, s)|
    ensures In(Queue(m.participants, s), Queue(m'.participants, s)[i])
            || Voice(packet, m.participants, decode) == Some(Queue(m'.participants, s)[i].data)
  {
    var before, after := Queue(m.participants, s), Queue(m'.participants, s);
    if s != packet.ssrc {
      assert before[i] == after[i];
    } else {
      var voice := Voice(packet, m.participants, decode).value;
      StoredInQueue(m.participants[s], m'.participants[s], packet.timestamp, voice, now, m.boxed, put, i);
    }
  }

  /** Whatever is queued after a step was queued before, or is the payload of the packet just received. */
  lemma StepsQueueFrom(m: Mixer, e: Event, o: Outcome, m': Mixer, s: nat, i: nat)
    requires Step(m, e, o, m') && i < |Queue(m'.participants, s)|
    ensures In(Queue(m.participants, s), Queue(m'.participants, s)[i])
            || (e.Receives? && Voice(e.packet, m.participants, e.decode) == Some(Queue(m'.participants, s)[i].data))
  {
    match e {
      case Fetches(_) => FetchQueues(m, e, o, m', s, i);
      case Receives(packet, decode, now) =>
        if o.put.Some? {
          PacketQueues(m, packet, decode, now, o.put.value, m', s, i);
        } else {
          assert Queue(m.participants, s)[i] == Queue(m'.participants, s)[i];
        }
      case _ => assert Queue(m.participants, s)[i] == Queue(m'.participants, s)[i];
    }
  }

  lemma StepKeepsLength(m: Mixer, e: Event, o: Outcome, m': Mixer, n: nat)
    requires Step(m, e, o, m') && AllOfLength(m.participants, n) && Counts(m, e, n)
    ensures AllOfLength(m'.participants, n) && !Panics(o)
  {
    var ps, ps' := m.participants, m'.participants;
    if e.Fetches? && TimeReached(m'.known, e.fetchedAt) {
      AgreeingNeverDiffer(ps, ps', o.taken, o.turns);
    }
    forall s: nat, i: nat | i < |Queue(ps', s)|
      ensures |Queue(ps', s)[i].data| == n
    {
      StepsQueueFrom(m, e, o, m', s, i);
    }
  }

  /** Whatever the packet's decoder can decode, it reports this count. */
  ghost predicate Reports(e: Event, n: nat) {
    e.Receives? ==> forall data :: e.decode(data).DecodedSamples? ==> e.decode(data).count == n
  }

  ghost predicate AllReport(events: seq<Event>, n: nat) {
    forall e :: e in events ==> Reports(e, n)
  }

  /** If every decoder reports one count, no fetch of the run panics. */
  lemma {:induction false} OneCountNeverPanics(run: Run, n: nat)
    requires run.Valid() && AllOfLength(run.states[0].participants, n)
    requires AllReport(run.events, n)
    ensures forall k :: 0 <= k < |run.events| ==> !Panics(run.outcomes[k])
  {
    for k := 0 to |run.events|
      invariant AllOfLength(run.states[k].participants, n)
      invariant forall j :: 0 <= j < k ==> !Panics(run.outcomes[j])
    {
      assert run.StepAt(k) && Reports(run.events[k], n);
      assert Counts(run.states[k], run.events[k], n);
      StepKeepsLength(run.states[k], run.events[k], run.outcomes[k], run.states[k + 1], n);
    }
  }

  // Ownership over whole runs

  /** Since `before`, exactly these payloads have been mixed, each once. */
  ghost predicate MixedOnce(before: map<nat, Place>, after: map<nat, Place>, mixed: seq<Frame>) {
    && NoRepeats(mixed)
    && (forall i :: 0 <= i < |mixed| ==> mixed[i].id in after && (mixed[i].id in before ==> before[mixed[i].id].Queued?))
    && forall id :: id in after ==>
         (after[id] == Mixed <==> (id in before && before[id] == Mixed) || Holds(mixed, id))
  }

  lemma MixedOnceMore(start: map<nat, Place>, before: map<nat, Place>, after: map<nat, Place>,
                      mixed: seq<Frame>, taken: seq<Taken>)
    requires Advances(start, before) && MixedOnce(start, before, mixed)
    requires Advances(before, after) && MixedNow(before, after, FramesOf(taken))
    requires WereQueued(taken, before) && NoRepeats(FramesOf(taken))
    ensures MixedOnce(start, after, mixed + FramesOf(taken))
  {
    var frames := FramesOf(taken);
    forall i | 0 <= i < |frames|
      ensures frames[i].id in before && before[frames[i].id].Queued? && !Holds(mixed, frames[i].id)
    {
      assert frames[i] == taken[i].frame;
    }
    forall i | 0 <= i < |mixed|
      ensures Holds(mixed, mixed[i].id)
    {
    }
    forall id: nat
      ensures Holds(mixed + frames, id) <==> Holds(mixed, id) || Holds(frames, id)
    {
      HoldsAppend(mixed, frames, id);
    }
  }

  lemma StillMixedOnce(start: map<nat, Place>, before: map<nat, Place>, after: map<nat, Place>, mixed: seq<Frame>)
    requires Advances(start, before) && MixedOnce(start, before, mixed)
    requires Advances(before, after) && MixedNothing(before, after)
    ensures MixedOnce(start, after, mixed)
  {
    forall i | 0 <= i < |mixed|
      ensures mixed[i].id in after
    {
      assert mixed[i].id in before;
    }
    forall id | id in after && Holds(mixed, id)
      ensures id in before
    {
    }
  }

  /** What a step mixes. */
  function MixedIn(o: Outcome): seq<Frame> {
    if o.Fetched? then FramesOf(o.taken) else []
  }

  /** What a run mixes, in order. */
  function MixedBy(outcomes: seq<Outcome>): seq<Frame> {
    if outcomes == [] then []
    else MixedBy(outcomes[..|outcomes| - 1]) + MixedIn(outcomes[|outcomes| - 1])
  }

  lemma StepMixesOnce(start: map<nat, Place>, m: Mixer, e: Event, o: Outcome, m': Mixer, mixed: seq<Frame>)
    requires WellFormed(m) && Step(m, e, o, m') && Advances(start, m.place) && MixedOnce(start, m.place, mixed)
    ensures Advances(start, m'.place) && MixedOnce(start, m'.place, mixed + MixedIn(o))
  {
    assert mixed + [] == mixed;
    if e.Fetches? && TimeReached(m'.known, e.fetchedAt) {
      DifferentPayloads(o.taken, m.participants.Keys, m.place);
      MixedOnceMore(start, m.place, m'.place, mixed, o.taken);
    } else {
      if e.Unmaps? {
        UnmappingKeepsWellFormed(m, e.unmapped);
      }
      assert MixedIn(o) == [];
      StillMixedOnce(start, m.place, m'.place, mixed);
    }
  }

  /** Over any run nothing boxed is forgotten, and what is mixed is mixed once. */
  lemma {:induction false} MixedOnceOverRun(run: Run, k: nat)
    requires run.Valid() && k <= |run.events|
    ensures Advances(run.states[0].place, run.states[k].place)
    ensures MixedOnce(run.states[0].place, run.states[k].place, MixedBy(run.outcomes[..k]))
  {
    if k > 0 {
      MixedOnceOverRun(run, k - 1);
      assert run.outcomes[..k][..k - 1] == run.outcomes[..k - 1];
      assert run.StepAt(k - 1) && run.WellFormedAt(k - 1);
      StepMixesOnce(run.states[0].place, run.states[k - 1], run.events[k - 1], run.outcomes[k - 1], run.states[k], MixedBy(run.outcomes[..k - 1]));
    }
  }

  // Participants without a user

  ghost predicate HasUser(m: Mixer, s: nat) {
    exists u: nat :: u in m.users && m.users[u] == s
  }

  ghost predicate Orphan(m: Mixer, s: nat) {
    s in m.participants && !HasUser(m, s)
  }

  ghost predicate CanBeRemoved(m: Mixer, s: nat) {
    exists e, o, m' :: Step(m, e, o, m') && s !in m'.participants
  }

  lemma RemovedByUnmapping(m: Mixer, e: Event, o: Outcome, m': Mixer, s: nat)
    requires Step(m, e, o, m') && s in m.participants && s !in m'.participants
    ensures e.Unmaps? && e.unmapped in m.users && m.users[e.unmapped] == s
  {
  }

  /** A participant can be removed exactly if it has a user. */
  lemma RemovableExactly(m: Mixer, s: nat)
    requires s in m.participants
    ensures CanBeRemoved(m, s) <==> HasUser(m, s)
  {
    if CanBeRemoved(m, s) {
      var e, o, m' :| Step(m, e, o, m') && s !in m'.participants;
      RemovedByUnmapping(m, e, o, m', s);
    }
    if HasUser(m, s) {
      var u: nat :| u in m.users && m.users[u] == s;
      assert Step(m, Unmaps(u), Done, Unmapped(m, u));
    }
  }

  lemma FetchKeepsUsers(m: Mixer, e: Event, o: Outcome, m': Mixer)
    requires Step(m, e, o, m') && (e.Fetches? || e.Receives?)
    ensures m'.users == m.users && m'.participants.Keys == m.participants.Keys
  {
    if e.Receives? && o.put.Some? {
      assert m'.participants == m.participants[e.packet.ssrc := m'.participants[e.packet.ssrc]];
    }
  }

  /**
    A step makes an orphan in exactly one way: its user is mapped to an SSRC nobody had, and a decoder could be made.
   */
  lemma OrphanedExactly(m: Mixer, e: Event, o: Outcome, m': Mixer, s: nat)
    requires WellFormed(m) && Step(m, e, o, m') && s in m.participants
    ensures Orphan(m', s) <==>
            || Orphan(m, s)
            || (&& e.Maps? && e.decoderCreated && e.ssrc !in m.participants
                && e.user in m.users && m.users[e.user] == s)
  {
    match e {
      case Maps(user, ssrc, created) =>
        if created && ssrc !in m.participants {
          forall u: nat | u in m.users && u != user
            ensures u in m'.users && m'.users[u] == m.users[u]
          {
          }
        }
      case Unmaps(user) =>
        if user in m.users {
          forall u: nat | u in m.users && u != user
            ensures u in m'.users && m'.users[u] == m.users[u]
          {
          }
        }
      case _ => FetchKeepsUsers(m, e, o, m');
    }
  }

  /** Once an orphan, a participant is never removed, whatever happens. */
  lemma {:induction false} OrphanForever(run: Run, i: nat, j: nat, s: nat)
    requires run.Valid() && i <= j <= |run.events| && Orphan(run.states[i], s)
    ensures Orphan(run.states[j], s)
    decreases j - i
  {
    if i < j {
      assert run.StepAt(i) && run.WellFormedAt(i);
      OrphanedExactly(run.states[i], run.events[i], run.outcomes[i], run.states[i + 1], s);
      OrphanForever(run, i + 1, j, s);
    }
  }

  // The end of a call

  /** A receiver that is gone: nothing is queued any more, so everything ever boxed was mixed or freed. */
  lemma NothingLeaks(m: Mixer)
    requires WellFormed(m) && m.participants == map[]
    ensures forall id: nat :: id < m.boxed ==> m.place[id] == Mixed || m.place[id] == Freed
  {
    forall id: nat, s: nat | id < m.boxed
      ensures m.place[id] != Queued(s)
    {
      assert Booked(s, Queue(m.participants, s), m.place);
      assert !Holds(Queue(m.participants, s), id);
    }
  }
}
