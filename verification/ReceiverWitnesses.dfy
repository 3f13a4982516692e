/** Runs of the receiving mixer in which what one might hope for fails, each from a new receiver on. */
module ReceiverWitnesses {
  import opened Prelude
  import opened DataChannel
  import opened Extensions
  import opened Samples
  import opened JitterBuffers
  import opened Ownership
  import opened ReceiverState
  import opened ReceiverFetches
  import opened ReceiverRuns

  function Silence(n: nat): (samples: seq<Sample>)
    ensures |samples| == n
  {
    seq(n, _ => 0)
  }

  function PacketFrom(ssrc: U32): Received {
    Rtp(0, 0, ssrc, [0], 0, 1)
  }

  /** A decoder that reports this many samples per channel, all silent. */
  function Says(count: nat): Decoder
    requires count <= MAX_SAMPLES
  {
    data => DecodedSamples(count, Silence(2 * MAX_SAMPLES))
  }

  function SilentFrame(id: nat, count: nat): Frame
    requires count <= MAX_SAMPLES
  {
    Frame(id, Mono(Silence(2 * MAX_SAMPLES), count), DurationMs(count), 0)
  }

  /** The sender's next packet is put at the end of its queue; its next frame is then due at this time. */
  function Stored(m: Mixer, ssrc: U32, count: nat, now: nat, put: PutResult, next: nat): Mixer
    requires count <= MAX_SAMPLES && ssrc in m.participants
  {
    var jitter := BufferFor(m.participants[ssrc], now);
    var after := Jitter(jitter.reference, jitter.queue + [SilentFrame(m.boxed, count)], next);
    var ps := m.participants[ssrc := OtherParticipant(Some(0), Some(after), DurationMs(count))];
    Mixer(m.users, ps, if put == PutFailed(Scheduled) then Rescheduled(m.known, ssrc, after.NextFrame()) else m.known,
          m.place[m.boxed := Queued(ssrc)], m.boxed + 1)
  }

  lemma SilentVoice(ssrc: U32, ps: Participants, count: nat)
    requires count <= MAX_SAMPLES && ssrc in ps
    ensures FromSocket(PacketFrom(ssrc)) && Voice(PacketFrom(ssrc), ps, Says(count)) == Some(Mono(Silence(2 * MAX_SAMPLES), count))
  {
    var payload := [0 as Byte];
    assert PacketFrom(ssrc).buffer[0..1] == payload;
    assert Skipped(payload) == Some(0);
    assert Says(count)(payload[0..]) == DecodedSamples(count, Silence(2 * MAX_SAMPLES));
  }

  lemma StoredIsAStep(m: Mixer, ssrc: U32, count: nat, now: nat, put: PutResult, next: nat)
    requires count <= MAX_SAMPLES && ssrc in m.participants && FirstTimestamp(m.participants[ssrc], 0) == 0
    requires put == PutFailed(Scheduled) || (put == PutOk && next == BufferFor(m.participants[ssrc], now).next)
    ensures Step(m, Receives(PacketFrom(ssrc), Says(count), now), Handled(Some(put)), Stored(m, ssrc, count, now, put, next))
  {
    SilentVoice(ssrc, m.participants, count);
    var before, after := m.participants[ssrc], Stored(m, ssrc, count, now, put, next).participants[ssrc];
    var queue := BufferFor(before, now).queue;
    assert JitterTimestamp(0, 0) == 0;
    assert queue[..|queue|] == queue && queue[|queue|..] == [];
    assert StoredAs(before, after, 0, Mono(Silence(2 * MAX_SAMPLES), count), now, m.boxed, put);
  }

  lemma GoesOn(run: Run, m: Mixer, e: Event, o: Outcome, m': Mixer) returns (longer: Run)
    requires Leads(run, NEW_MIXER, m) && !run.Panicked() && Step(m, e, o, m')
    ensures Leads(longer, NEW_MIXER, m') && longer == run.Then(e, o, m') && longer.Panicked() == Panics(o)
    ensures |longer.events| == |run.events| + 1 && WellFormed(m')
  {
    RunGoesOn(run, NEW_MIXER, m, e, o, m');
    longer := run.Then(e, o, m');
    assert longer.WellFormedAt(|run.events| + 1);
  }

  /** The sender's next packet, received at time 0. */
  lemma PacketStored(run: Run, m: Mixer, ssrc: U32, count: nat, put: PutResult, next: nat) returns (longer: Run)
    requires Leads(run, NEW_MIXER, m) && !run.Panicked()
    requires count <= MAX_SAMPLES && ssrc in m.participants && FirstTimestamp(m.participants[ssrc], 0) == 0
    requires put == PutFailed(Scheduled) || (put == PutOk && next == BufferFor(m.participants[ssrc], 0).next)
    ensures Leads(longer, NEW_MIXER, Stored(m, ssrc, count, 0, put, next)) && !longer.Panicked()
    ensures longer == run.Then(Receives(PacketFrom(ssrc), Says(count), 0), Handled(Some(put)), Stored(m, ssrc, count, 0, put, next))
  {
    StoredIsAStep(m, ssrc, count, 0, put, next);
    longer := GoesOn(run, m, Receives(PacketFrom(ssrc), Says(count), 0), Handled(Some(put)), Stored(m, ssrc, count, 0, put, next));
  }

  /** The first fetch, at time 0: participant 1 is due first, and its time is remembered. */
  lemma FirstRemembered(run: Run, m: Mixer, due: nat) returns (longer: Run)
    requires Leads(run, NEW_MIXER, m) && !run.Panicked() && m.known == None && due > 0
    requires NextTime(m.participants, 1) == Some(due)
    requires IsLowerBound(Some(KnownNextFrameTime(due, 1)), m.participants)
    ensures var m' := m.(known := Some(KnownNextFrameTime(due, 1)));
            && Leads(longer, NEW_MIXER, m') && !longer.Panicked() && WellFormed(m')
            && longer == run.Then(Fetches(0), Fetched(CheckBackLater(due), [], map[]), m')
  {
    longer := GoesOn(run, m, Fetches(0), Fetched(CheckBackLater(due), [], map[]), m.(known := Some(KnownNextFrameTime(due, 1))));
  }

  // A fetch that sleeps past a due frame because a packet overtook it

  /** Participants 1 and 2 have frames due after 10 and 20 ms. */
  function TwoTimes(): Mixer {
    var mapped := Mapped(Mapped(NEW_MIXER, 11, 1, true), 12, 2, true);
    Stored(Stored(mapped, 1, 960, 0, PutFailed(Scheduled), 10), 2, 960, 0, PutFailed(Scheduled), 20)
  }

  lemma TwoTimesState()
    ensures var m := TwoTimes();
            && m.known == None && NextTime(m.participants, 1) == Some(Instant(0, 10))
            && IsLowerBound(Some(KnownNextFrameTime(Instant(0, 10), 1)), m.participants)
  {
  }

  /** The same, once the first fetch has remembered participant 1. */
  function TwoWaiting(): Mixer {
    TwoTimes().(known := Some(KnownNextFrameTime(Instant(0, 10), 1)))
  }

  lemma NewIsWellFormed()
    ensures WellFormed(NEW_MIXER)
  {
    assert forall s: nat :: Queue(NEW_MIXER.participants, s) == [];
  }

  lemma StartOfTwo(m1: Mixer, m2: Mixer) returns (run: Run)
    requires m1 == Mapped(NEW_MIXER, 11, 1, true) && m2 == Mapped(m1, 12, 2, true)
    ensures Leads(run, NEW_MIXER, m2) && !run.Panicked() && run.events == [Maps(11, 1, true), Maps(12, 2, true)]
  {
    NewIsWellFormed();
    EmptyRun(NEW_MIXER);
    run := Run([NEW_MIXER], [], []);
    RunGoesOn(run, NEW_MIXER, NEW_MIXER, Maps(11, 1, true), Done, m1);
    run := run.Then(Maps(11, 1, true), Done, m1);
    RunGoesOn(run, NEW_MIXER, m1, Maps(12, 2, true), Done, m2);
    run := run.Then(Maps(12, 2, true), Done, m2);
  }

  lemma TwoWaitingReached() returns (run: Run)
    ensures Leads(run, NEW_MIXER, TwoWaiting()) && !run.Panicked()
    ensures run.events == [Maps(11, 1, true), Maps(12, 2, true)] + [Receives(PacketFrom(1), Says(960), 0)]
                          + [Receives(PacketFrom(2), Says(960), 0)] + [Fetches(0)]
  {
    var m1 := Mapped(NEW_MIXER, 11, 1, true);
    var m2 := Mapped(m1, 12, 2, true);
    run := StartOfTwo(m1, m2);
    run := PacketStored(run, m2, 1, 960, PutFailed(Scheduled), 10);
    run := PacketStored(run, Stored(m2, 1, 960, 0, PutFailed(Scheduled), 10), 2, 960, PutFailed(Scheduled), 20);
    TwoTimesState();
    run := FirstRemembered(run, TwoTimes(), Instant(0, 10));
  }

  /**
    A packet moves 1 from 10 to 30 ms and past 2. At 20 ms the frame of 2 is due and queued, yet a fetch says to come
    back at 30 ms.
   */
  lemma OvertakingHappens() returns (run: Run)
    ensures run.Valid() && run.From(NEW_MIXER)
    ensures run.events == [Maps(11, 1, true), Maps(12, 2, true)] + [Receives(PacketFrom(1), Says(960), 0)]
                          + [Receives(PacketFrom(2), Says(960), 0)] + [Fetches(0)] + [Receives(PacketFrom(1), Says(960), 0)]
                          + [Fetches(Instant(0, 20))]
    ensures run.outcomes[6] == Fetched(CheckBackLater(Instant(0, 30)), [], map[])
    ensures Queue(run.states[7].participants, 2) != [] && NextTime(run.states[7].participants, 2) == Some(Instant(0, 20))
  {
    run := TwoWaitingReached();
    var m := TwoWaiting();
    var m' := Stored(m, 1, 960, 0, PutFailed(Scheduled), 30);
    run := PacketStored(run, m, 1, 960, PutFailed(Scheduled), 30);
    assert m'.known == Some(KnownNextFrameTime(Instant(0, 30), 1));
    RunGoesOn(run, NEW_MIXER, m', Fetches(Instant(0, 20)), Fetched(CheckBackLater(Instant(0, 30)), [], map[]), m');
    run := run.Then(Fetches(Instant(0, 20)), Fetched(CheckBackLater(Instant(0, 30)), [], map[]), m');
  }

  // A wait for nothing although a frame is scheduled

  /** The participant's first frame has been played, and its next one is due at this time. */
  function AfterFirst(ps: Participants, s: nat, next: nat): Participants
    requires HasBuffer(ps, s) && Queue(ps, s) != []
  {
    var jitter := ps[s].jitterbuf.value;
    ps[s := ps[s].(jitterbuf := Some(Jitter(jitter.reference, jitter.queue[1..], next)))]
  }

  lemma RoundOfOne(ps: Participants, s: nat, next: nat)
    requires ps.Keys == {s} && HasBuffer(ps, s) && Queue(ps, s) != [] && NotEarlier(ps[s].jitterbuf.value.next, next)
    ensures var frame := Queue(ps, s)[0];
            RoundTaken(ps, AfterFirst(ps, s, next), [Taken(s, frame)], map[s := Turn([], Got(frame))])
  {
    var frame, ps' := Queue(ps, s)[0], AfterFirst(ps, s, next);
    var taken := [Taken(s, frame)];
    assert Queue(ps, s) == [] + [frame] + Queue(ps', s);
    assert TakenFrom(ps, ps', taken, map[s := Turn([], Got(frame))], s);
  }

  lemma BooksOfOne(ps: Participants, place: map<nat, Place>, s: nat, next: nat)
    requires Owned(ps, place) && HasBuffer(ps, s) && Queue(ps, s) != []
    ensures var frame, place' := Queue(ps, s)[0], Settle(place, [Queue(ps, s)[0]], Mixed);
            Owned(AfterFirst(ps, s, next), place') && RoundBooked(place, place', [Taken(s, frame)])
  {
    var frame := Queue(ps, s)[0];
    assert Queue(ps, s) == [frame] + Queue(AfterFirst(ps, s, next), s);
    OwnedAfterTaking(ps, AfterFirst(ps, s, next), place, s, [frame], Mixed);
    QueuedInBooks(ps, place, s);
    assert FramesOf([Taken(s, frame)]) == [frame];
    Settled(place, [frame], Mixed);
  }

  lemma FoldOne(data: seq<Sample>)
    ensures forall i :: 0 <= i < |data| ==> data[i] == Fold(Column([data], i))
  {
    forall i | 0 <= i < |data|
      ensures data[i] == Fold(Column([data], i))
    {
      assert Column([data], i) == [data[i]] && [data[i]][..0] == [];
    }
  }

  function PlayedFirst(m: Mixer, s: nat, next: nat): Mixer
    requires NextTime(m.participants, s).Some? && Queue(m.participants, s) != []
  {
    m.(participants := AfterFirst(m.participants, s, next),
       known := Some(KnownNextFrameTime(NextTime(m.participants, s).value, s)),
       place := Settle(m.place, [Queue(m.participants, s)[0]], Mixed))
  }

  lemma MixOfOne(s: nat, frame: Frame)
    ensures MixOf([Taken(s, frame)], PacketAvailable(frame.data))
  {
    assert DataOf([Taken(s, frame)]) == [frame.data];
    FoldOne(frame.data);
  }

  lemma PlaysFirst(m: Mixer, s: nat, now: nat, next: nat)
    requires WellFormed(m) && m.participants.Keys == {s} && HasBuffer(m.participants, s) && Queue(m.participants, s) != []
    requires m.known == None && NextTime(m.participants, s).Some? && NextTime(m.participants, s).value <= now
    requires NotEarlier(m.participants[s].jitterbuf.value.next, next)
    ensures var frame := Queue(m.participants, s)[0];
            Step(m, Fetches(now), Fetched(PacketAvailable(frame.data), [Taken(s, frame)], map[s := Turn([], Got(frame))]),
                 PlayedFirst(m, s, next))
  {
    var frame := Queue(m.participants, s)[0];
    RoundOfOne(m.participants, s, next);
    BooksOfOne(m.participants, m.place, s, next);
    MixOfOne(s, frame);
    assert Remembers(m.participants, m.known, PlayedFirst(m, s, next).known);
  }

  /** A fetch after the remembered time in which the one buffer has no frame to play yet. */
  lemma PlaysNothing(m: Mixer, s: nat, now: nat)
    requires WellFormed(m) && m.participants.Keys == {s} && HasBuffer(m.participants, s) && TimeReached(m.known, now)
    ensures Step(m, Fetches(now), Fetched(NoneQueued, [], map[s := Turn([], GetFailed(NoFrame))]), m)
  {
    var turns := map[s := Turn([], GetFailed(NoFrame))];
    assert TakenFrom(m.participants, m.participants, [], turns, s);
    assert FramesOf([]) == [];
  }

  /** One participant with two frames queued, the first due after 40 ms; nothing is remembered yet. */
  ghost predicate OneWaiting(m: Mixer) {
    && WellFormed(m) && m.known == None && m.participants.Keys == {1} && HasBuffer(m.participants, 1)
    && |Queue(m.participants, 1)| == 2 && NextTime(m.participants, 1) == Some(Instant(0, 40))
    && m.participants[1].jitterbuf.value.reference == 0
  }

  /** It has played one frame at 40 ms, and the other is due after 60 ms. */
  ghost predicate OneStranded(m: Mixer) {
    && WellFormed(m) && TimeReached(m.known, Instant(0, 40)) && m.participants.Keys == {1} && HasBuffer(m.participants, 1)
    && Queue(m.participants, 1) != [] && NextTime(m.participants, 1) == Some(Instant(0, 60))
  }

  lemma OneWaitingState(m: Mixer)
    requires m == Stored(Stored(Mapped(NEW_MIXER, 11, 1, true), 1, 960, 0, PutFailed(Scheduled), 40), 1, 960, 0, PutOk, 40)
    requires WellFormed(m)
    ensures OneWaiting(m)
  {
  }

  lemma OneWaitingReached() returns (run: Run, m: Mixer)
    ensures Leads(run, NEW_MIXER, m) && !run.Panicked() && OneWaiting(m)
    ensures run.events == [Maps(11, 1, true)] + [Receives(PacketFrom(1), Says(960), 0)] + [Receives(PacketFrom(1), Says(960), 0)]
  {
    var m1 := Mapped(NEW_MIXER, 11, 1, true);
    var m2 := Stored(m1, 1, 960, 0, PutFailed(Scheduled), 40);
    NewIsWellFormed();
    EmptyRun(NEW_MIXER);
    run := GoesOn(Run([NEW_MIXER], [], []), NEW_MIXER, Maps(11, 1, true), Done, m1);
    run := PacketStored(run, m1, 1, 960, PutFailed(Scheduled), 40);
    run := PacketStored(run, m2, 1, 960, PutOk, 40);
    m := Stored(m2, 1, 960, 0, PutOk, 40);
    assert run.WellFormedAt(3);
    OneWaitingState(m);
  }

  lemma OneFramePlayed(run: Run, m: Mixer) returns (o: Outcome, m': Mixer)
    requires Leads(run, NEW_MIXER, m) && !run.Panicked() && OneWaiting(m)
    ensures o.Fetched? && o.result.PacketAvailable? && OneStranded(m')
    ensures Leads(run.Then(Fetches(Instant(0, 40)), o, m'), NEW_MIXER, m')
  {
    var frame := Queue(m.participants, 1)[0];
    m' := PlayedFirst(m, 1, 60);
    o := Fetched(PacketAvailable(frame.data), [Taken(1, frame)], map[1 := Turn([], Got(frame))]);
    PlaysFirst(m, 1, Instant(0, 40), 60);
    var _ := GoesOn(run, m, Fetches(Instant(0, 40)), o, m');
  }

  lemma NoFramePlayed(run: Run, m: Mixer) returns (o: Outcome)
    requires Leads(run, NEW_MIXER, m) && !run.Panicked() && OneStranded(m)
    ensures o.Fetched? && o.result == NoneQueued && Leads(run.Then(Fetches(Instant(0, 40)), o, m), NEW_MIXER, m)
  {
    o := Fetched(NoneQueued, [], map[1 := Turn([], GetFailed(NoFrame))]);
    PlaysNothing(m, 1, Instant(0, 40));
    var _ := GoesOn(run, m, Fetches(Instant(0, 40)), o, m);
  }

  /**
    One participant has frames due after 40 and 60 ms. The fetch at 40 ms plays the first; the next one finds nothing
    to play yet and waits for nothing, though the second frame is queued and scheduled.
   */
  lemma StrandingHappens() returns (run: Run)
    ensures run.Valid() && run.From(NEW_MIXER)
    ensures run.events == [Maps(11, 1, true)] + [Receives(PacketFrom(1), Says(960), 0)] + [Receives(PacketFrom(1), Says(960), 0)]
                          + [Fetches(Instant(0, 40))] + [Fetches(Instant(0, 40))]
    ensures run.outcomes[3].Fetched? && run.outcomes[3].result.PacketAvailable?
    ensures run.outcomes[4].Fetched? && run.outcomes[4].result == NoneQueued
    ensures Queue(run.states[5].participants, 1) != [] && NextTime(run.states[5].participants, 1) == Some(Instant(0, 60))
  {
    var m;
    run, m := OneWaitingReached();
    var first, m' := OneFramePlayed(run, m);
    run := run.Then(Fetches(Instant(0, 40)), first, m');
    var second := NoFramePlayed(run, m');
    run := run.Then(Fetches(Instant(0, 40)), second, m');
  }

  // Frames of different lengths

  lemma LengthsPanic(m: Mixer, now: nat) returns (o: Outcome, m': Mixer)
    requires WellFormed(m) && TimeReached(m.known, now) && !LengthsAgree(m.participants)
    ensures Step(m, Fetches(now), o, m') && Panics(o)
  {
    MayPanicExactly(m, now);
    var taken, turns, after :| FetchStep(m, now, MixPanics, taken, turns, after);
    o, m' := Fetched(MixPanics, taken, turns), after;
  }

  /** Participants 1 and 2 have frames of 480 and 960 samples, both due after 20 ms. */
  function TwoLengths(): Mixer {
    var mapped := Mapped(Mapped(NEW_MIXER, 11, 1, true), 12, 2, true);
    Stored(Stored(mapped, 1, 480, 0, PutFailed(Scheduled), 20), 2, 960, 0, PutFailed(Scheduled), 20)
  }

  lemma TwoLengthsState()
    ensures var m := TwoLengths();
            && m.known == None && NextTime(m.participants, 1) == Some(Instant(0, 20))
            && IsLowerBound(Some(KnownNextFrameTime(Instant(0, 20), 1)), m.participants)
            && Queue(m.participants, 1) == [SilentFrame(0, 480)] && Queue(m.participants, 2) == [SilentFrame(1, 960)]
  {
  }

  lemma TwoLengthsReached() returns (run: Run)
    ensures Leads(run, NEW_MIXER, TwoLengths()) && !run.Panicked()
    ensures run.events == [Maps(11, 1, true), Maps(12, 2, true)] + [Receives(PacketFrom(1), Says(480), 0)]
                          + [Receives(PacketFrom(2), Says(960), 0)]
  {
    var m1 := Mapped(NEW_MIXER, 11, 1, true);
    var m2 := Mapped(m1, 12, 2, true);
    run := StartOfTwo(m1, m2);
    run := PacketStored(run, m2, 1, 480, PutFailed(Scheduled), 20);
    run := PacketStored(run, Stored(m2, 1, 480, 0, PutFailed(Scheduled), 20), 2, 960, PutFailed(Scheduled), 20);
  }

  /** Two decoders that report 480 and 960 samples: the fetch that plays both panics. */
  lemma DifferentCountsPanic() returns (run: Run)
    ensures run.Valid() && run.From(NEW_MIXER) && run.Panicked()
    ensures run.events == [Maps(11, 1, true), Maps(12, 2, true)] + [Receives(PacketFrom(1), Says(480), 0)]
                          + [Receives(PacketFrom(2), Says(960), 0)] + [Fetches(0)] + [Fetches(Instant(0, 20))]
  {
    run := TwoLengthsReached();
    TwoLengthsState();
    run := FirstRemembered(run, TwoLengths(), Instant(0, 20));
    var m := TwoLengths().(known := Some(KnownNextFrameTime(Instant(0, 20), 1)));
    assert |Queue(m.participants, 1)[0].data| != |Queue(m.participants, 2)[0].data|;
    var o, m' := LengthsPanic(m, Instant(0, 20));
    run := GoesOn(run, m, Fetches(Instant(0, 20)), o, m');
  }

  // A participant nobody can remove

  /** A user moves from SSRC 1 to SSRC 2 and leaves: participant 1 is still there, and stays for good. */
  lemma OrphanHappens() returns (run: Run)
    ensures run.Valid() && run.From(NEW_MIXER)
    ensures run.events == [Maps(11, 1, true)] + [Maps(11, 2, true)] + [Unmaps(11)]
    ensures run.states[3].users == map[] && run.states[3].participants.Keys == {1} && Orphan(run.states[3], 1)
  {
    var m1 := Mapped(NEW_MIXER, 11, 1, true);
    var m2 := Mapped(m1, 11, 2, true);
    NewIsWellFormed();
    EmptyRun(NEW_MIXER);
    run := GoesOn(Run([NEW_MIXER], [], []), NEW_MIXER, Maps(11, 1, true), Done, m1);
    run := GoesOn(run, m1, Maps(11, 2, true), Done, m2);
    run := GoesOn(run, m2, Unmaps(11), Done, Unmapped(m2, 11));
  }
}
