/** What the answers of the jitter buffers can make of one fetch, and what they cannot. */
module ReceiverFetches {
  import opened Prelude
  import opened Samples
  import opened JitterBuffers
  import opened Ownership
  import opened ReceiverState

  // Rounds that can happen

  /** The frame at one index of one queue is answered OK for, those before it DROP; or there is no frame to play. */
  function TurnOf(ps: Participants, plays: map<nat, nat>, s: nat): Turn {
    if s in plays && plays[s] < |Queue(ps, s)| then Turn(Queue(ps, s)[..plays[s]], Got(Queue(ps, s)[plays[s]]))
    else Turn([], GetFailed(NoFrame))
  }

  /** What is left of a queue after that turn. */
  function LeftOf(ps: Participants, plays: map<nat, nat>, s: nat): seq<Frame> {
    if s in plays && plays[s] < |Queue(ps, s)| then Queue(ps, s)[plays[s] + 1..] else Queue(ps, s)
  }

  function Requeued(participant: OtherParticipant, queue: seq<Frame>): OtherParticipant
    requires participant.jitterbuf.Some?
  {
    participant.(jitterbuf := Some(participant.jitterbuf.value.(queue := queue)))
  }

  /** Every buffer visited has had its turn as planned, and only the queues have changed. */
  ghost predicate AsPlanned(start: Participants, ps: Participants, turns: map<nat, Turn>, plays: map<nat, nat>, visited: set<nat>) {
    && (forall s :: s in visited && HasBuffer(start, s) ==> s in turns && turns[s] == TurnOf(start, plays, s))
    && (forall s: nat :: NextTime(ps, s) == NextTime(start, s))
  }

  lemma TurnSplitsQueue(ps: Participants, plays: map<nat, nat>, s: nat)
    ensures var turn := TurnOf(ps, plays, s);
            turn.Over() && Queue(ps, s) == turn.freed + One(turn.Played()) + LeftOf(ps, plays, s)
  {
  }

  /** First the dropped frames go, then the one that is mixed. */
  lemma TurnKeepsBooks(ps: Participants, place: map<nat, Place>, s: nat, turn: Turn, left: seq<Frame>)
    requires Owned(ps, place) && HasBuffer(ps, s) && Queue(ps, s) == turn.freed + One(turn.Played()) + left
    ensures var place' := Settle(Settle(place, turn.freed, Freed), One(turn.Played()), Mixed);
            Owned(ps[s := Requeued(ps[s], left)], place') && Advances(place, place')
  {
    var one := One(turn.Played());
    var between, ps' := ps[s := Requeued(ps[s], one + left)], ps[s := Requeued(ps[s], left)];
    assert Queue(ps, s) == turn.freed + Queue(between, s);
    OwnedAfterTaking(ps, between, place, s, turn.freed, Freed);
    OwnedAfterTaking(between, ps', Settle(place, turn.freed, Freed), s, one, Mixed);
  }

  /** The round so far: whom it has visited, with the books in order and everything as planned. */
  ghost predicate Underway(start: Participants, startPlace: map<nat, Place>, plays: map<nat, nat>, ps: Participants,
                           place: map<nat, Place>, taken: seq<Taken>, turns: map<nat, Turn>, visited: set<nat>)
  {
    && Visiting(start, startPlace, ps, place, taken, turns, visited)
    && Owned(ps, place) && Advances(startPlace, place)
    && AsPlanned(start, ps, turns, plays, visited)
  }

  lemma AdvancesFurther(a: map<nat, Place>, b: map<nat, Place>, c: map<nat, Place>)
    requires Advances(a, b) && Advances(b, c)
    ensures Advances(a, c)
  {
  }

  lemma PlannedFurther(start: Participants, ps: Participants, turns: map<nat, Turn>, plays: map<nat, nat>, visited: set<nat>, s: nat)
    requires AsPlanned(start, ps, turns, plays, visited) && s in start && HasBuffer(ps, s) && ps[s] == start[s]
    ensures AsPlanned(start, ps[s := Requeued(ps[s], LeftOf(start, plays, s))], turns[s := TurnOf(start, plays, s)], plays,
                      visited + {s})
  {
  }

  /** One participant more, by the plan. */
  lemma VisitOne(start: Participants, startPlace: map<nat, Place>, plays: map<nat, nat>, ps: Participants, place: map<nat, Place>,
                 taken: seq<Taken>, turns: map<nat, Turn>, visited: set<nat>, s: nat)
    returns (ps': Participants, place': map<nat, Place>, taken': seq<Taken>, turns': map<nat, Turn>)
    requires Owned(start, startPlace) && Underway(start, startPlace, plays, ps, place, taken, turns, visited)
    requires s in start && s !in visited
    ensures Underway(start, startPlace, plays, ps', place', taken', turns', visited + {s})
  {
    if HasBuffer(ps, s) {
      var turn, left := TurnOf(start, plays, s), LeftOf(start, plays, s);
      ps' := ps[s := Requeued(ps[s], left)];
      place' := Settle(Settle(place, turn.freed, Freed), One(turn.Played()), Mixed);
      taken', turns' := Extended(taken, s, turn.Played()), turns[s := turn];
      TurnSplitsQueue(start, plays, s);
      TurnKeepsBooks(ps, place, s, turn, left);
      VisitedOneMore(start, startPlace, ps, place, taken, turns, visited, ps', s, turn);
      AdvancesFurther(startPlace, place, place');
      PlannedFurther(start, ps, turns, plays, visited, s);
    } else {
      ps', place', taken', turns' := ps, place, taken, turns;
      PassedOver(start, startPlace, ps, place, taken, turns, visited, s);
    }
  }

  /** The rest of a round, by the plan. */
  lemma VisitRest(start: Participants, startPlace: map<nat, Place>, plays: map<nat, nat>, ps: Participants, place: map<nat, Place>,
                  taken: seq<Taken>, turns: map<nat, Turn>, visited: set<nat>)
    returns (ps': Participants, place': map<nat, Place>, taken': seq<Taken>, turns': map<nat, Turn>)
    requires Owned(start, startPlace) && Underway(start, startPlace, plays, ps, place, taken, turns, visited)
    ensures Underway(start, startPlace, plays, ps', place', taken', turns', start.Keys)
    decreases start.Keys - visited
  {
    ps', place', taken', turns' := ps, place, taken, turns;
    if s :| s in start && s !in visited {
      ps', place', taken', turns' := VisitOne(start, startPlace, plays, ps, place, taken, turns, visited, s);
      ps', place', taken', turns' := VisitRest(start, startPlace, plays, ps', place', taken', turns', visited + {s});
    } else {
      assert visited == start.Keys;
    }
  }

  /** Any plan of which buffer plays which frame can be a round, with the books in order and nobody's time moved. */
  lemma RoundPossible(ps: Participants, place: map<nat, Place>, plays: map<nat, nat>)
    returns (ps': Participants, place': map<nat, Place>, taken: seq<Taken>, turns: map<nat, Turn>)
    requires Owned(ps, place)
    ensures RoundTaken(ps, ps', taken, turns) && RoundBooked(place, place', taken) && Owned(ps', place')
    ensures AsPlanned(ps, ps', turns, plays, ps.Keys)
  {
    StartVisiting(ps, place);
    ps', place', taken, turns := VisitRest(ps, place, plays, ps, place, [], map[], {});
  }

  // When a fetch gets to its round

  /** The remembered time is reached, or nothing is remembered and something is scheduled for now or earlier. */
  ghost predicate DueNow(m: Mixer, now: nat) {
    if m.known.Some? then m.known.value.due <= now
    else exists s: nat :: NextTime(m.participants, s).Some? && NextTime(m.participants, s).value <= now
  }

  lemma ReachedExactly(m: Mixer, known: Option<KnownNextFrameTime>, now: nat)
    requires Remembers(m.participants, m.known, known)
    ensures TimeReached(known, now) <==> DueNow(m, now)
  {
  }

  /** The earliest next time among these participants. */
  lemma EarliestAmong(ps: Participants, among: set<nat>) returns (known: Option<KnownNextFrameTime>)
    ensures if known == None then forall s :: s in among ==> NextTime(ps, s) == None
            else
              && NextTime(ps, known.value.ssrc) == Some(known.value.due)
              && forall s :: s in among && NextTime(ps, s).Some? ==> known.value.due <= NextTime(ps, s).value
    decreases among
  {
    if among == {} {
      known := None;
    } else {
      var s :| s in among;
      known := EarliestAmong(ps, among - {s});
      if NextTime(ps, s).Some? && (known == None || NextTime(ps, s).value < known.value.due) {
        known := Some(KnownNextFrameTime(NextTime(ps, s).value, s));
      }
    }
  }

  lemma SomethingRemembered(m: Mixer) returns (known: Option<KnownNextFrameTime>)
    ensures Remembers(m.participants, m.known, known)
  {
    known := m.known;
    if known == None {
      known := EarliestAmong(m.participants, m.participants.Keys);
      assert forall s: nat :: NextTime(m.participants, s).Some? ==> s in m.participants.Keys;
    }
  }

  /** When its time has come, any round and what is mixed of it make up a fetch. */
  lemma FetchMade(m: Mixer, now: nat, result: FetchResult, taken: seq<Taken>, turns: map<nat, Turn>,
                  ps': Participants, place': map<nat, Place>) returns (m': Mixer)
    requires DueNow(m, now) && RoundTaken(m.participants, ps', taken, turns) && MixOf(taken, result)
    requires RoundBooked(m.place, place', taken) && Owned(ps', place')
    ensures FetchStep(m, now, result, taken, turns, m') && m'.participants == ps'
  {
    var known := SomethingRemembered(m);
    ReachedExactly(m, known, now);
    m' := m.(participants := ps', known := known, place := place');
  }

  // A wait that nothing ends

  predicate NobodyPlays(turns: map<nat, Turn>) {
    forall s :: s in turns ==> !turns[s].last.Got?
  }

  ghost predicate SomethingScheduled(ps: Participants) {
    exists s: nat :: NextTime(ps, s).Some?
  }

  lemma {:induction false} TakenShows(taken: seq<Taken>)
    ensures taken == [] <==> forall s: nat :: FrameTakenFrom(taken, s) == []
  {
    if taken != [] {
      assert FrameTakenFrom(taken, taken[|taken| - 1].ssrc) != [];
    }
  }

  lemma NothingPlayedExactly(ps: Participants, ps': Participants, taken: seq<Taken>, turns: map<nat, Turn>)
    requires RoundTaken(ps, ps', taken, turns)
    ensures taken == [] <==> NobodyPlays(turns)
  {
    TakenShows(taken);
    forall s: nat
      ensures FrameTakenFrom(taken, s) != [] <==> s in turns && turns[s].last.Got?
    {
      if s in ps {
        assert TakenFrom(ps, ps', taken, turns, s);
      } else {
        NotTakenBefore(taken, s);
      }
    }
  }

  /** After the fetch: it waits for nothing exactly if nothing is remembered, or its time is reached and nobody plays. */
  lemma NoneQueuedExactly(m: Mixer, now: nat, result: FetchResult, taken: seq<Taken>, turns: map<nat, Turn>, m': Mixer)
    requires FetchStep(m, now, result, taken, turns, m')
    ensures result == NoneQueued <==> m'.known == None || (TimeReached(m'.known, now) && NobodyPlays(turns))
  {
    if TimeReached(m'.known, now) {
      NothingPlayedExactly(m.participants, m'.participants, taken, turns);
    }
  }

  /** Some answers of the buffers make a fetch wait for nothing although a frame is scheduled. */
  ghost predicate MayStrand(m: Mixer, now: nat) {
    exists taken, turns, m' ::
      FetchStep(m, now, NoneQueued, taken, turns, m') && SomethingScheduled(m'.participants)
  }

  lemma StrandsOnlyIf(m: Mixer, now: nat, taken: seq<Taken>, turns: map<nat, Turn>, m': Mixer)
    requires FetchStep(m, now, NoneQueued, taken, turns, m') && SomethingScheduled(m'.participants)
    ensures SomethingScheduled(m.participants) && DueNow(m, now)
  {
    ReachedExactly(m, m'.known, now);
    if TimeReached(m'.known, now) {
      RoundDelaysOnly(m.participants, m'.participants, taken, turns, None);
      var s: nat :| NextTime(m'.participants, s).Some?;
      assert TimeNotEarlier(NextTime(m.participants, s), NextTime(m'.participants, s));
    }
  }

  lemma StrandsIf(m: Mixer, now: nat)
    requires WellFormed(m) && SomethingScheduled(m.participants) && DueNow(m, now)
    ensures MayStrand(m, now)
  {
    var ps', place', taken, turns := RoundPossible(m.participants, m.place, map[]);
    forall s | s in turns
      ensures !turns[s].last.Got?
    {
      assert TakenFrom(m.participants, ps', taken, turns, s);
    }
    NothingPlayedExactly(m.participants, ps', taken, turns);
    var m' := FetchMade(m, now, NoneQueued, taken, turns, ps', place');
    var s: nat :| NextTime(m.participants, s).Some?;
    assert NextTime(m'.participants, s).Some?;
  }

  /** Before the fetch: it can be left waiting for nothing exactly if something is scheduled and the time is reached. */
  lemma {:induction false} StrandedExactly(m: Mixer, now: nat)
    requires WellFormed(m)
    ensures MayStrand(m, now) <==> SomethingScheduled(m.participants) && DueNow(m, now)
  {
    if MayStrand(m, now) {
      var taken, turns, m' :| FetchStep(m, now, NoneQueued, taken, turns, m') && SomethingScheduled(m'.participants);
      StrandsOnlyIf(m, now, taken, turns, m');
    }
    if SomethingScheduled(m.participants) && DueNow(m, now) {
      StrandsIf(m, now);
    }
  }

  // Mixing frames of different lengths

  /** Frames of different participants are of one length. */
  ghost predicate LengthsAgree(ps: Participants) {
    forall s: nat, t: nat, i: nat, j: nat | s != t && i < |Queue(ps, s)| && j < |Queue(ps, t)| ::
      |Queue(ps, s)[i].data| == |Queue(ps, t)[j].data|
  }

  lemma {:induction false} FirstOfTaken(taken: seq<Taken>, k: nat)
    requires k < |taken| && forall i, j :: 0 <= i < j < |taken| ==> taken[i].ssrc != taken[j].ssrc
    ensures FrameTakenFrom(taken, taken[k].ssrc) == [taken[k].frame]
    decreases |taken|
  {
    var n := |taken| - 1;
    if k < n {
      assert taken[..n][k] == taken[k];
      FirstOfTaken(taken[..n], k);
    }
  }

  lemma TakenWasQueued(ps: Participants, ps': Participants, taken: seq<Taken>, turns: map<nat, Turn>, k: nat) returns (i: nat)
    requires RoundTaken(ps, ps', taken, turns) && k < |taken|
    ensures i < |Queue(ps, taken[k].ssrc)| && Queue(ps, taken[k].ssrc)[i] == taken[k].frame
  {
    var s := taken[k].ssrc;
    FirstOfTaken(taken, k);
    assert TakenFrom(ps, ps', taken, turns, s);
    i := |turns[s].freed|;
  }

  lemma AgreeingNeverDiffer(ps: Participants, ps': Participants, taken: seq<Taken>, turns: map<nat, Turn>)
    requires RoundTaken(ps, ps', taken, turns) && LengthsAgree(ps)
    ensures EqualLengths(DataOf(taken))
  {
    forall d, d' | d in DataOf(taken) && d' in DataOf(taken)
      ensures |d| == |d'|
    {
      var k :| 0 <= k < |taken| && d == taken[k].frame.data;
      var l :| 0 <= l < |taken| && d' == taken[l].frame.data;
      var i := TakenWasQueued(ps, ps', taken, turns, k);
      var j := TakenWasQueued(ps, ps', taken, turns, l);
      if k != l {
        assert taken[k].ssrc != taken[l].ssrc;
      }
    }
  }

  lemma {:induction false} TakenSomewhere(taken: seq<Taken>, s: nat) returns (k: nat)
    requires FrameTakenFrom(taken, s) != []
    ensures k < |taken| && [taken[k].frame] == FrameTakenFrom(taken, s)
  {
    k := |taken| - 1;
    if taken[k].ssrc != s {
      k := TakenSomewhere(taken[..k], s);
    }
  }

  /** A frame that the plan plays is taken. */
  lemma PlannedIsTaken(ps: Participants, ps': Participants, taken: seq<Taken>, turns: map<nat, Turn>, plays: map<nat, nat>, s: nat)
    requires RoundTaken(ps, ps', taken, turns) && AsPlanned(ps, ps', turns, plays, ps.Keys)
    requires s in plays && plays[s] < |Queue(ps, s)|
    ensures Queue(ps, s)[plays[s]].data in DataOf(taken)
  {
    assert TakenFrom(ps, ps', taken, turns, s);
    var k := TakenSomewhere(taken, s);
    assert DataOf(taken)[k] == Queue(ps, s)[plays[s]].data;
  }

  /** Some answers of the buffers make a fetch panic. */
  ghost predicate MayPanic(m: Mixer, now: nat) {
    exists taken, turns, m' :: FetchStep(m, now, MixPanics, taken, turns, m')
  }

  lemma PanicsOnlyIf(m: Mixer, now: nat, taken: seq<Taken>, turns: map<nat, Turn>, m': Mixer)
    requires FetchStep(m, now, MixPanics, taken, turns, m')
    ensures !LengthsAgree(m.participants) && DueNow(m, now)
  {
    ReachedExactly(m, m'.known, now);
    if LengthsAgree(m.participants) {
      AgreeingNeverDiffer(m.participants, m'.participants, taken, turns);
    }
  }

  lemma PanicsIf(m: Mixer, now: nat, s: nat, i: nat, t: nat, j: nat)
    requires WellFormed(m) && DueNow(m, now)
    requires s != t && i < |Queue(m.participants, s)| && j < |Queue(m.participants, t)|
    requires |Queue(m.participants, s)[i].data| != |Queue(m.participants, t)[j].data|
    ensures MayPanic(m, now)
  {
    var plays := map[s := i, t := j];
    var ps', place', taken, turns := RoundPossible(m.participants, m.place, plays);
    PlannedIsTaken(m.participants, ps', taken, turns, plays, s);
    PlannedIsTaken(m.participants, ps', taken, turns, plays, t);
    var _ := FetchMade(m, now, MixPanics, taken, turns, ps', place');
  }

  /**
    Before the fetch: it can panic exactly if two participants have frames of different lengths queued and the time is
    reached.
   */
  lemma {:induction false} MayPanicExactly(m: Mixer, now: nat)
    requires WellFormed(m)
    ensures MayPanic(m, now) <==> !LengthsAgree(m.participants) && DueNow(m, now)
  {
    if MayPanic(m, now) {
      var taken, turns, m' :| FetchStep(m, now, MixPanics, taken, turns, m');
      PanicsOnlyIf(m, now, taken, turns, m');
    }
    if !LengthsAgree(m.participants) && DueNow(m, now) {
      var ps := m.participants;
      var s: nat, t: nat, i: nat, j: nat :| s != t && i < |Queue(ps, s)| && j < |Queue(ps, t)|
                                            && |Queue(ps, s)[i].data| != |Queue(ps, t)[j].data|;
      PanicsIf(m, now, s, i, t, j);
    }
  }
}
