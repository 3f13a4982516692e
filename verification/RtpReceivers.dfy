/** The receiving mixer: who speaks on which SSRC, their jitter buffers, and when the next frame is due. */
module RtpReceivers {
  import opened Prelude
  import opened DataChannel
  import opened Extensions
  import opened Samples
  import opened JitterBuffers
  import opened Ownership
  import opened ReceiverState
  import opened ReceiverRuns

  /** The decoder's interleaved output becomes mono in place and is cut to its length. */
  method Downmix(decoded: Decoded) returns (voice: seq<Sample>)
    requires decoded.DecodedSamples? && FitsBuffer(decoded)
    ensures voice == Mono(decoded.voice, decoded.count)
  {
    var buffer := new Sample[2 * MAX_SAMPLES];
    forall i | 0 <= i < buffer.Length {
      buffer[i] := decoded.voice[i];
    }
    assert buffer[..] == decoded.voice;
    Monoize(buffer, decoded.count);
    return buffer[..decoded.count];
  }

  /** How a wait for a mixed frame ends, or that nothing but another branch of the select can end it. */
  datatype Wait = Ready(mixed: seq<Sample>) | Asleep(until: nat) | Forever | Panicked

  function WaitAfter(result: FetchResult): Wait {
    match result
    case PacketAvailable(mixed) => Ready(mixed)
    case CheckBackLater(time) => Asleep(time)
    case NoneQueued => Forever
    case MixPanics => Panicked
  }

  /** One fetch decides, or it says to come back later; then one more fetch decides if the sleep is slept out. */
  predicate WaitsAsFetched(now: nat, woken: nat -> Option<nat>, events: seq<Event>, outcomes: seq<Outcome>, wait: Wait) {
    && 1 <= |events| == |outcomes| <= 2
    && (forall k :: 0 <= k < |events| ==> events[k].Fetches? && outcomes[k].Fetched?)
    && events[0].fetchedAt == now && wait == WaitAfter(outcomes[|events| - 1].result)
    && (|events| == 2 <==> ToldToWait(outcomes[0]) && woken(outcomes[0].result.time).Some?)
    && (|events| == 2 ==> woken(outcomes[0].result.time) == Some(events[1].fetchedAt) && !ToldToWait(outcomes[1]))
  }

  /** Before the first fetch, or woken up after it. */
  predicate Sleeping(now: nat, woken: nat -> Option<nat>, events: seq<Event>, outcomes: seq<Outcome>, clock: nat) {
    && |events| == |outcomes| <= 1
    && (events == [] ==> clock == now)
    && (events != [] ==> events[0] == Fetches(now) && ToldToWait(outcomes[0]) && woken(outcomes[0].result.time) == Some(clock))
  }

  /** The fetch decides how the wait ends, or sends it to sleep for the first time. */
  lemma Woken(now: nat, woken: nat -> Option<nat>, events: seq<Event>, outcomes: seq<Outcome>, clock: nat,
              o: Outcome, m: Mixer, m': Mixer)
    requires Sleeping(now, woken, events, outcomes, clock) && (events != [] ==> TimeReached(m.known, clock))
    requires o.Fetched? && FetchStep(m, clock, o.result, o.taken, o.turns, m')
    requires forall t: nat :: woken(t).Some? ==> t <= woken(t).value
    ensures var events', outcomes' := events + [Fetches(clock)], outcomes + [o];
            if ToldToWait(o) && woken(o.result.time).Some? then
              && events == [] && TimeReached(m'.known, woken(o.result.time).value)
              && Sleeping(now, woken, events', outcomes', woken(o.result.time).value)
            else WaitsAsFetched(now, woken, events', outcomes', WaitAfter(o.result))
  {
  }

  /** So many questions to a participant's buffer, each with its own clock and the length last stored for it. */
  function AskedOf(participant: OtherParticipant, now: nat, times: nat): seq<(nat, nat)>
    requires participant.jitterbuf.Some?
  {
    Repeated((ReceiverTimestamp(participant.jitterbuf.value.reference, now), participant.lastVoiceLength), times)
  }

  /** In its turn every buffer was asked once for each frame it dropped, and once more. */
  predicate AskedInTurn(before: Participants, now: nat, turns: map<nat, Turn>, asked: map<nat, seq<(nat, nat)>>) {
    forall s :: s in turns ==>
      s in asked && HasBuffer(before, s) && asked[s] == AskedOf(before[s], now, |turns[s].freed| + 1)
  }

  lemma AskedOneMore(start: Participants, now: nat, turns: map<nat, Turn>, asked: map<nat, seq<(nat, nat)>>,
                     ssrc: nat, turn: Turn, answered: seq<(nat, nat)>)
    requires AskedInTurn(start, now, turns, asked) && HasBuffer(start, ssrc)
    requires answered == AskedOf(start[ssrc], now, |turn.freed| + 1)
    ensures AskedInTurn(start, now, turns[ssrc := turn], asked[ssrc := answered])
  {
  }

  class RtpReceiver {
    var userToSsrc: map<nat, nat>
    var participants: Participants
    var knownNext: Option<KnownNextFrameTime>
    /** Where every payload boxed so far is; they are numbered as they are boxed. */
    ghost var place: map<nat, Place>
    var boxed: nat

    constructor ()
      ensures Valid() && LowerBound()
      ensures View() == NEW_MIXER
    {
      userToSsrc, participants, knownNext := map[], map[], None;
      place, boxed := map[], 0;
    }

    ghost function View(): Mixer
      reads this
    {
      Mixer(userToSsrc, participants, knownNext, place, boxed)
    }

    ghost predicate Valid()
      reads this
    {
      WellFormed(View())
    }

    ghost predicate LowerBound()
      reads this
    {
      IsLowerBound(knownNext, participants)
    }

    method MapUserId(user: nat, ssrc: nat, decoderCreated: bool) returns (ok: bool)
      requires Valid()
      modifies `userToSsrc, `participants
      ensures Valid() && (old(LowerBound()) ==> LowerBound())
      ensures ok <==> ssrc in old(participants) || decoderCreated
      ensures View() == Mapped(old(View()), user, ssrc, decoderCreated)
    {
      if ssrc in participants {
        return true;
      }
      if !decoderCreated {
        return false;
      }
      var participant := OtherParticipant(None, None, ASSUMED_VOICE_LENGTH);
      MappingKeepsFit(userToSsrc, participants, knownNext, user, ssrc, participant);
      participants := participants[ssrc := participant];
      userToSsrc := userToSsrc[user := ssrc];
      assert forall s: nat :: Queue(participants, s) == Queue(old(participants), s);
      assert forall s: nat :: NextTime(participants, s) == NextTime(old(participants), s);
      return true;
    }

    /** Removing a participant drops its jitter buffer, and with it every payload still queued there. */
    method FreeParticipant(ssrc: nat)
      requires Owned(participants, place) && ssrc in participants
      modifies `participants, `place
      ensures participants == old(participants) - {ssrc} && place == Settle(old(place), Queue(old(participants), ssrc), Freed)
      ensures Owned(participants, place) && place.Keys == old(place.Keys)
      ensures Advances(old(place), place) && MixedNothing(old(place), place)
    {
      var participant := participants[ssrc];
      participants := participants - {ssrc};
      var freed: seq<Frame> := [];
      if participant.jitterbuf.Some? {
        var jitterbuf := new JitterBuffer.Borrow(participant.jitterbuf.value);
        freed := jitterbuf.DropBuffer();
      }
      OwnedAfterTaking(old(participants), participants, place, ssrc, freed, Freed);
      FreeingMixesNothing(place, freed);
      place := Settle(place, freed, Freed);
    }

    method UnmapUserId(user: nat)
      requires Valid()
      modifies this
      ensures Valid() && (old(LowerBound()) ==> LowerBound())
      ensures View() == Unmapped(old(View()), user)
      ensures Advances(old(place), place) && MixedNothing(old(place), place)
    {
      if user in userToSsrc {
        var ssrc := userToSsrc[user];
        UnmappingKeepsFit(userToSsrc, participants, knownNext, user);
        userToSsrc := userToSsrc - {user};
        FreeParticipant(ssrc);
        if knownNext.Some? && knownNext.value.ssrc == ssrc {
          knownNext := None;
        }
        assert forall s: nat :: TimeNotEarlier(NextTime(old(participants), s), NextTime(participants, s));
        if old(LowerBound()) {
          BoundSurvivesDelay(old(knownNext), old(participants), participants);
        }
      }
    }

    /** The cached time, or the earliest of all participants' next-frame times. */
    method NextFrameTime() returns (next: Option<KnownNextFrameTime>)
      requires Valid()
      modifies `knownNext
      ensures Valid() && next == knownNext && (old(LowerBound()) ==> LowerBound())
      ensures Remembers(participants, old(knownNext), knownNext) && (old(knownNext) == None ==> LowerBound())
    {
      if knownNext.Some? {
        return knownNext;
      }
      next := None;
      var remaining := participants.Keys;
      while remaining != {}
        invariant remaining <= participants.Keys
        invariant next == None ==> forall s: nat :: s !in remaining ==> NextTime(participants, s) == None
        invariant next.Some? ==> NextTime(participants, next.value.ssrc) == Some(next.value.due)
        invariant next.Some? ==> forall s: nat :: s !in remaining && NextTime(participants, s).Some? ==>
                    next.value.due <= NextTime(participants, s).value
        decreases |remaining|
      {
        var ssrc :| ssrc in remaining;
        remaining := remaining - {ssrc};
        var time := NextTime(participants, ssrc);
        if time.Some? && (next == None || time.value < next.value.due) {
          next := Some(KnownNextFrameTime(time.value, ssrc));
        }
      }
      knownNext := next;
    }

    /** Asks one participant's buffer for a frame; frames it marks to be dropped are freed on the way. */
    method TakeFrom(ssrc: nat, now: nat) returns (turn: Turn, ghost asked: seq<(nat, nat)>)
      requires Valid() && HasBuffer(participants, ssrc)
      modifies `participants, `place
      ensures Valid() && HasBuffer(participants, ssrc)
      ensures participants == old(participants)[ssrc := participants[ssrc]]
      ensures OnlyQueueMoved(old(participants)[ssrc], participants[ssrc])
      ensures turn.Over() && Queue(old(participants), ssrc) == turn.freed + One(turn.Played()) + Queue(participants, ssrc)
      ensures TimeNotEarlier(NextTime(old(participants), ssrc), NextTime(participants, ssrc))
      ensures asked == AskedOf(old(participants)[ssrc], now, |turn.freed| + 1)
      ensures place == Settle(Settle(old(place), turn.freed, Freed), One(turn.Played()), Mixed)
      ensures Advances(old(place), place)
    {
      var participant := participants[ssrc];
      var jitterbuf := new JitterBuffer.Borrow(participant.jitterbuf.value);
      turn := jitterbuf.TakeFrame(now, participant.lastVoiceLength);
      asked := jitterbuf.asked;
      ghost var one, freed := One(turn.Played()), turn.freed;
      // First the dropped frames go, then the one that is mixed.
      ghost var rest := participant.(jitterbuf := Some(jitterbuf.View().(queue := one + jitterbuf.queue)));
      ghost var between := participants[ssrc := rest];
      participants := participants[ssrc := participant.(jitterbuf := Some(jitterbuf.View()))];
      assert Queue(old(participants), ssrc) == freed + Queue(between, ssrc);
      OwnedAfterTaking(old(participants), between, place, ssrc, freed, Freed);
      OwnedAfterTaking(between, participants, Settle(place, freed, Freed), ssrc, one, Mixed);
      place := Settle(Settle(place, freed, Freed), one, Mixed);
    }

    /** One participant's turn in a round: its frame is taken if it has one to play. */
    method TakeTurn(ssrc: nat, now: nat, before: seq<Taken>, ghost start: Participants, ghost startPlace: map<nat, Place>,
                    ghost had: map<nat, Turn>, ghost heard: map<nat, seq<(nat, nat)>>, ghost visited: set<nat>)
      returns (taken: seq<Taken>, ghost turns: map<nat, Turn>, ghost asked: map<nat, seq<(nat, nat)>>)
      requires Valid() && ssrc in participants && ssrc !in visited && Owned(start, startPlace)
      requires Visiting(start, startPlace, participants, place, before, had, visited) && Advances(startPlace, place)
      requires AskedInTurn(start, now, had, heard)
      modifies `participants, `place
      ensures Valid() && participants.Keys == old(participants).Keys
      ensures Visiting(start, startPlace, participants, place, taken, turns, visited + {ssrc}) && Advances(startPlace, place)
      ensures AskedInTurn(start, now, turns, asked)
    {
      ghost var ps, books := participants, place;
      taken, turns, asked := before, had, heard;
      if participants[ssrc].jitterbuf.Some? {
        ghost var answered;
        var turn;
        turn, answered := TakeFrom(ssrc, now);
        if turn.last.Got? {
          taken := before + [Taken(ssrc, turn.last.frame)];
        }
        VisitedOneMore(start, startPlace, ps, books, before, had, visited, participants, ssrc, turn);
        AskedOneMore(start, now, had, heard, ssrc, turn, answered);
        turns, asked := had[ssrc := turn], heard[ssrc := answered];
      } else {
        PassedOver(start, startPlace, ps, books, before, had, visited, ssrc);
      }
    }

    /** One frame at most from every participant, visited in whatever order the map yields them. */
    method TakeFrames(now: nat)
      returns (taken: seq<Taken>, ghost turns: map<nat, Turn>, ghost asked: map<nat, seq<(nat, nat)>>)
      requires Valid()
      modifies `participants, `place
      ensures Valid() && RoundTaken(old(participants), participants, taken, turns) && RoundBooked(old(place), place, taken)
      ensures AskedInTurn(old(participants), now, turns, asked)
    {
      taken, turns, asked := [], map[], map[];
      StartVisiting(participants, place);
      var remaining := participants.Keys;
      while remaining != {}
        invariant Valid() && Advances(old(place), place)
        invariant remaining <= participants.Keys == old(participants).Keys
        invariant Visiting(old(participants), old(place), participants, place, taken, turns, participants.Keys - remaining)
        invariant AskedInTurn(old(participants), now, turns, asked)
        decreases |remaining|
      {
        var ssrc :| ssrc in remaining;
        OneLess(participants.Keys, remaining, ssrc);
        taken, turns, asked := TakeTurn(ssrc, now, taken, old(participants), old(place), turns, asked, participants.Keys - remaining);
        remaining := remaining - {ssrc};
      }
      assert participants.Keys - remaining == participants.Keys;
    }

    /**
      The next frame for Asterisk: nothing scheduled, not due yet, nothing playable, or the mix of one frame
      from every participant that has one.
     */
    method FetchPacket(now: nat)
      returns (result: FetchResult, ghost taken: seq<Taken>, ghost turns: map<nat, Turn>,
               ghost asked: map<nat, seq<(nat, nat)>>)
      requires Valid()
      modifies `participants, `knownNext, `place
      ensures Valid() && FetchStep(old(View()), now, result, taken, turns, View())
      ensures AskedInTurn(old(participants), now, turns, asked)
      ensures old(LowerBound()) ==> LowerBound()
    {
      taken, turns, asked := [], map[], map[];
      var time := NextFrameTime();
      ghost var known := knownNext;
      if time == None {
        return NoneQueued, [], map[], map[];
      }
      if time.value.due > now {
        return CheckBackLater(time.value.due), [], map[], map[];
      }
      var frames;
      frames, turns, asked := TakeFrames(now);
      taken := frames;
      RoundDelaysOnly(old(participants), participants, frames, turns, known);
      if frames == [] {
        return NoneQueued, taken, turns, asked;
      }
      var mixed := Mix(DataOf(frames));
      if mixed == None {
        return MixPanics, taken, turns, asked;
      }
      assert DataOf(frames)[0] in DataOf(frames);
      return PacketAvailable(mixed.value), taken, turns, asked;
    }

    /** Boxes the samples and puts them into the participant's jitter buffer, made now if it is the first packet. */
    method Store(ssrc: nat, timestamp: U32, voice: seq<Sample>, now: nat) returns (result: PutResult, ghost clock: nat)
      requires Valid() && ssrc in participants
      modifies `participants, `place, `boxed
      ensures Valid() && Advances(old(place), place)
      ensures ssrc in participants && boxed == old(boxed) + 1
      ensures participants == old(participants)[ssrc := participants[ssrc]]
      ensures StoredAs(old(participants)[ssrc], participants[ssrc], timestamp, voice, now, old(boxed), result)
      ensures clock == ReceiverTimestamp(BufferFor(old(participants)[ssrc], now).reference, now)
      ensures place == old(place)[old(boxed) := if Refused(result) then Freed else Queued(ssrc)]
      ensures forall s: nat :: s != ssrc || result != PutFailed(Scheduled) ==>
                NextTime(participants, s) == NextTime(old(participants), s)
    {
      var participant := participants[ssrc];
      var duration := DurationMs(|voice|);
      var owned := BufferFor(participant, now);
      var first := FirstTimestamp(participant, timestamp);
      var id := boxed;
      var frame := Frame(id, voice, duration, JitterTimestamp(first, timestamp));
      var jitterbuf := new JitterBuffer.Borrow(owned);
      ghost var at;
      result, at := jitterbuf.Put(frame, now);
      clock := jitterbuf.given[0].1;
      var stored := OtherParticipant(Some(first), Some(jitterbuf.View()), duration);
      StoringKeepsFit(userToSsrc, participants, knownNext, ssrc, stored);
      participants := participants[ssrc := stored];
      boxed := boxed + 1;
      assert Queue(old(participants), ssrc) == owned.queue;
      if result == PutFailed(Drop(frame)) {
        OwnedAfterRefusal(old(participants), participants, place, id);
        place := place[id := Freed];
      } else {
        OwnedAfterPut(old(participants), participants, place, ssrc, frame, at);
        place := place[id := Queued(ssrc)];
      }
    }

    /**
      One packet: decoded, mixed down in place, boxed and put into the sender's jitter buffer. `put` is what became
      of the payload, None if the packet was ignored.
     */
    method HandlePacket(packet: Received, decode: Decoder, now: nat) returns (ghost put: Option<PutResult>)
      requires Valid() && FromSocket(packet)
      modifies this
      ensures Valid() && Advances(old(place), place) && MixedNothing(old(place), place)
      ensures PacketStep(old(View()), packet, decode, now, put, View())
      ensures old(LowerBound()) ==>
                (LowerBound() <==> !(put == Some(PutFailed(Scheduled)) && Overtakes(old(knownNext), old(participants),
                                       packet.ssrc, NextTime(participants, packet.ssrc))))
    {
      put := DecodeAndStore(packet, decode, now);
      PacketKeepsWellFormed(old(View()), packet, decode, now, put, View());
      if old(LowerBound()) {
        BoundAfterPacket(old(View()), packet, decode, now, put, View());
      }
    }

    method DecodeAndStore(packet: Received, decode: Decoder, now: nat) returns (ghost put: Option<PutResult>)
      requires Valid() && FromSocket(packet)
      modifies this
      ensures PacketStep(old(View()), packet, decode, now, put, View())
    {
      put := None;
      if packet.Rtcp? {
        return;
      }
      var range := SkipOverExtensions(packet.buffer, packet.start, packet.end);
      if range == None {
        return;
      }
      var data := packet.buffer[range.value.0..range.value.1];
      assert data == packet.buffer[packet.start..packet.end][range.value.0 - packet.start..];
      if packet.ssrc !in participants {
        return;
      }
      var decoded := decode(data);
      if decoded == DecodeError {
        return;
      }
      var voice := Downmix(decoded);
      var code, _ := Store(packet.ssrc, packet.timestamp, voice, now);
      put := Some(code);
      if code == PutFailed(Scheduled) {
        var time := NextTime(participants, packet.ssrc);
        if time == None {
          return;
        }
        if knownNext.Some? {
          if knownNext.value.ssrc == packet.ssrc {
            knownNext := Some(knownNext.value.(due := time.value));
          } else if time.value < knownNext.value.due {
            knownNext := Some(KnownNextFrameTime(time.value, packet.ssrc));
          }
        }
      }
    }

    /**
      Waits for a mixed frame: sleeps while the remembered time is ahead, which happens once at most, and otherwise
      waits for nothing but another branch of the worker's select. `woken` is when a sleep until some time ends, None
      if another branch wins first.
     */
    method MixedPacket(now: nat, woken: nat -> Option<nat>) returns (wait: Wait, ghost run: Run)
      requires Valid()
      requires forall t: nat :: woken(t).Some? ==> t <= woken(t).value
      modifies `participants, `knownNext, `place
      ensures Valid() && Leads(run, old(View()), View()) && WaitsAsFetched(now, woken, run.events, run.outcomes, wait)
    {
      run := Run([View()], [], []);
      EmptyRun(View());
      var clock := now;
      while true
        invariant Valid() && Leads(run, old(View()), View()) && !run.Panicked()
        invariant Sleeping(now, woken, run.events, run.outcomes, clock)
        invariant run.events != [] ==> TimeReached(knownNext, clock)
        decreases 1 - |run.events|
      {
        ghost var before, slept := View(), run;
        var result, taken, turns, _ := FetchPacket(clock);
        ghost var outcome := Fetched(result, taken, turns);
        RunGoesOn(run, old(View()), before, Fetches(clock), outcome, View());
        run := run.Then(Fetches(clock), outcome, View());
        Woken(now, woken, slept.events, slept.outcomes, clock, outcome, before, View());
        match result {
          case PacketAvailable(mixed) =>
            return Ready(mixed), run;
          case MixPanics =>
            return Panicked, run;
          case NoneQueued =>
            return Forever, run;
          case CheckBackLater(time) =>
            var end := woken(time);
            if end == None {
              return Asleep(time), run;
            }
            clock := end.value;
        }
      }
    }

    method HandleOne(e: Event) returns (panicked: bool, ghost outcome: Outcome)
      requires Valid() && (e.Receives? ==> FromSocket(e.packet))
      modifies this
      ensures Valid() && Step(old(View()), e, outcome, View()) && panicked == Panics(outcome)
    {
      panicked := false;
      match e {
        case Maps(user, ssrc, decoderCreated) =>
          var _ := MapUserId(user, ssrc, decoderCreated);
          outcome := Done;
        case Unmaps(user) =>
          UnmapUserId(user);
          outcome := Done;
        case Fetches(now) =>
          var result, taken, turns, _ := FetchPacket(now);
          outcome := Fetched(result, taken, turns);
          panicked := result == MixPanics;
        case Receives(packet, decode, now) =>
          ghost var put := HandlePacket(packet, decode, now);
          outcome := Handled(put);
      }
    }

    /** Any run of events; a panic ends it. The run is returned with the states it goes through and what comes of each event. */
    method Serve(events: seq<Event>) returns (panicked: bool, ghost run: Run)
      requires Valid()
      requires forall e :: e in events && e.Receives? ==> FromSocket(e.packet)
      modifies this
      ensures Valid() && Leads(run, old(View()), View()) && run.events <= events
      ensures if panicked then run.Panicked() else run.events == events && !run.Panicked()
      ensures Advances(old(place), place) && MixedOnce(old(place), place, MixedBy(run.outcomes))
      ensures old(LowerBound()) ==>
                ((forall k: nat :: k <= |run.events| ==> BoundedAt(run, k)) <==>
                 (forall k: nat :: k < |run.events| ==> !OvertakingAt(run, k)))
    {
      panicked, run := ServeAll(events);
      MixedOnceOverRun(run, |run.events|);
      assert run.outcomes[..|run.events|] == run.outcomes;
      if old(LowerBound()) {
        BoundOverRun(run, |run.events|);
      }
    }

    method ServeAll(events: seq<Event>) returns (panicked: bool, ghost run: Run)
      requires Valid()
      requires forall e :: e in events && e.Receives? ==> FromSocket(e.packet)
      modifies this
      ensures Valid() && Leads(run, old(View()), View()) && run.events <= events
      ensures if panicked then run.Panicked() else run.events == events && !run.Panicked()
    {
      panicked, run := false, Run([View()], [], []);
      EmptyRun(View());
      for k := 0 to |events|
        invariant Valid() && Leads(run, old(View()), View()) && run.events == events[..k] && !panicked && !run.Panicked()
      {
        assert events[k] in events;
        ghost var before := View();
        ghost var outcome;
        panicked, outcome := HandleOne(events[k]);
        RunGoesOn(run, old(View()), before, events[k], outcome, View());
        run := run.Then(events[k], outcome, View());
        assert events[..k + 1] == events[..k] + [events[k]];
        if panicked {
          return;
        }
      }
      assert events[..|events|] == events;
    }

    /** The receiver goes: every participant's buffer is drained. */
    method DropReceiver()
      requires Valid()
      modifies this
      ensures Valid() && participants == map[] && boxed == old(boxed)
      ensures Advances(old(place), place) && MixedNothing(old(place), place)
    {
      userToSsrc, knownNext := map[], None;
      while participants.Keys != {}
        invariant Valid() && userToSsrc == map[] && knownNext == None && boxed == old(boxed)
        invariant Advances(old(place), place) && MixedNothing(old(place), place)
        decreases |participants.Keys|
      {
        ghost var keys := participants.Keys;
        var ssrc :| ssrc in participants.Keys;
        FreeParticipant(ssrc);
        assert participants.Keys == keys - {ssrc};
      }
    }
  }

  /** A whole call, from a new receiver to the end of it: every payload ever boxed is mixed once or freed. */
  method WholeCall(events: seq<Event>) returns (panicked: bool, ghost boxed: nat, ghost place: map<nat, Place>, ghost mixed: seq<Frame>)
    requires forall e :: e in events && e.Receives? ==> FromSocket(e.packet)
    ensures NoRepeats(mixed)
    ensures (exists n :: AllReport(events, n)) ==> !panicked
    ensures !panicked ==> forall id: nat :: id < boxed ==> id in place && place[id] == if Holds(mixed, id) then Mixed else Freed
  {
    var receiver := new RtpReceiver();
    ghost var run;
    panicked, run := receiver.Serve(events);
    mixed := MixedBy(run.outcomes);
    if n: nat :| AllReport(events, n) {
      assert forall e :: e in run.events ==> e in events;
      OneCountNeverPanics(run, n);
    }
    boxed, place := receiver.boxed, receiver.place;
    if panicked {
      return;
    }
    receiver.DropReceiver();
    place := receiver.place;
    NothingLeaks(receiver.View());
  }
}
