/** What the receiving mixer keeps true of its maps, its remembered next frame and the payloads on their way through it. */
module ReceiverState {
  import opened Prelude
  import opened DataChannel
  import opened Extensions
  import opened Samples
  import opened JitterBuffers
  import opened Ownership

  const ASSUMED_VOICE_LENGTH: nat := 20
  const MAX_SAMPLES: nat := 960

  datatype KnownNextFrameTime = KnownNextFrameTime(due: nat, ssrc: nat)

  datatype FetchResult =
    | PacketAvailable(mixed: seq<Sample>)
    | CheckBackLater(time: nat)
    | NoneQueued
    | MixPanics

  /** What the Opus decoder makes of a packet: an error, or this many samples per channel in its output buffer. */
  datatype Decoded = DecodeError | DecodedSamples(count: nat, voice: seq<Sample>)

  predicate FitsBuffer(decoded: Decoded) {
    decoded.DecodedSamples? ==> decoded.count <= MAX_SAMPLES && |decoded.voice| == 2 * MAX_SAMPLES
  }

  /** A participant's decoder, as it stands when the packet arrives. */
  type Decoder = decode: seq<Byte> -> Decoded | forall data :: FitsBuffer(decode(data))
    witness data => DecodeError

  predicate FromSocket(packet: Received) {
    || (packet.Rtp? && packet.start <= packet.end <= |packet.buffer|)
    || packet.Rtcp?
  }

  /** The mono samples of a packet that is for one of these participants and can be decoded. */
  function Voice(packet: Received, ps: Participants, decode: Decoder): Option<seq<Sample>>
    requires FromSocket(packet)
  {
    if packet.Rtcp? then None
    else
      var payload := packet.buffer[packet.start..packet.end];
      if Skipped(payload) == None || packet.ssrc !in ps then None
      else
        match decode(payload[Skipped(payload).value..])
        case DecodeError => None
        case DecodedSamples(count, voice) => Some(Mono(voice, count))
  }

  // The clauses that tie the maps and the cached time together

  /**
    No two users share an SSRC, every mapped SSRC is a participant, and the known next frame is that of a
    participant with a jitter buffer.
   */
  ghost predicate MapsFit(users: map<nat, nat>, ps: Participants, next: Option<KnownNextFrameTime>) {
    && (forall u, v :: u in users && v in users && u != v ==> users[u] != users[v])
    && (forall u :: u in users ==> users[u] in ps)
    && (next.Some? ==> HasBuffer(ps, next.value.ssrc))
  }

  /** Mapping a user, who may have been mapped elsewhere before, to an SSRC nobody had. */
  lemma MappingKeepsFit(users: map<nat, nat>, ps: Participants, next: Option<KnownNextFrameTime>,
                        user: nat, ssrc: nat, participant: OtherParticipant)
    requires MapsFit(users, ps, next) && ssrc !in ps
    ensures MapsFit(users[user := ssrc], ps[ssrc := participant], next)
  {
  }

  lemma UnmappingKeepsFit(users: map<nat, nat>, ps: Participants, next: Option<KnownNextFrameTime>, user: nat)
    requires MapsFit(users, ps, next) && user in users
    ensures var next' := if next.Some? && next.value.ssrc == users[user] then None else next;
            MapsFit(users - {user}, ps - {users[user]}, next')
  {
  }

  lemma StoringKeepsFit(users: map<nat, nat>, ps: Participants, next: Option<KnownNextFrameTime>,
                        ssrc: nat, participant: OtherParticipant)
    requires MapsFit(users, ps, next) && ssrc in ps && participant.jitterbuf.Some?
    ensures MapsFit(users, ps[ssrc := participant], next)
  {
  }

  /** No participant's next frame is due before the known time. */
  ghost predicate IsLowerBound(next: Option<KnownNextFrameTime>, ps: Participants) {
    next.Some? ==> forall s: nat :: NextTime(ps, s).Some? ==> next.value.due <= NextTime(ps, s).value
  }

  /** A participant's next frame is not due earlier than it was; in particular nothing new is scheduled. */
  predicate TimeNotEarlier(before: Option<nat>, after: Option<nat>) {
    after.Some? ==> before.Some? && before.value <= after.value
  }

  lemma BoundSurvivesDelay(next: Option<KnownNextFrameTime>, ps: Participants, ps': Participants)
    requires forall s: nat :: TimeNotEarlier(NextTime(ps, s), NextTime(ps', s))
    requires IsLowerBound(next, ps)
    ensures IsLowerBound(next, ps')
  {
    if next.Some? {
      forall s: nat | NextTime(ps', s).Some?
        ensures next.value.due <= NextTime(ps', s).value
      {
        assert TimeNotEarlier(NextTime(ps, s), NextTime(ps', s));
      }
    }
  }

  /** A participant's next frame has been scheduled anew: what is remembered afterwards. */
  function Rescheduled(known: Option<KnownNextFrameTime>, ssrc: nat, time: Option<nat>): Option<KnownNextFrameTime> {
    if time == None || known == None then known
    else if known.value.ssrc == ssrc || time.value < known.value.due then Some(KnownNextFrameTime(time.value, ssrc))
    else known
  }

  /** The remembered participant's frame moves to a time after another participant's next frame. */
  ghost predicate Overtakes(known: Option<KnownNextFrameTime>, ps: Participants, ssrc: nat, time: Option<nat>) {
    && known.Some? && known.value.ssrc == ssrc && time.Some?
    && exists s: nat :: s != ssrc && NextTime(ps, s).Some? && NextTime(ps, s).value < time.value
  }

  /** Re-scheduling keeps the bound exactly when it does not overtake. */
  lemma RescheduleKeepsBoundExactly(known: Option<KnownNextFrameTime>, ps: Participants, ps': Participants, ssrc: nat)
    requires IsLowerBound(known, ps)
    requires forall s: nat :: s != ssrc ==> NextTime(ps', s) == NextTime(ps, s)
    ensures IsLowerBound(Rescheduled(known, ssrc, NextTime(ps', ssrc)), ps') <==>
            !Overtakes(known, ps, ssrc, NextTime(ps', ssrc))
  {
    var time := NextTime(ps', ssrc);
    var next := Rescheduled(known, ssrc, time);
    if Overtakes(known, ps, ssrc, time) {
      var s: nat :| s != ssrc && NextTime(ps, s).Some? && NextTime(ps, s).value < time.value;
      assert NextTime(ps', s).value < next.value.due;
    }
  }

  /** A frame on its way into the mix, with the participant it was taken from. */
  datatype Taken = Taken(ssrc: nat, frame: Frame)

  function FramesOf(taken: seq<Taken>): (frames: seq<Frame>)
    ensures |frames| == |taken|
  {
    seq(|taken|, i requires 0 <= i < |taken| => taken[i].frame)
  }

  function DataOf(taken: seq<Taken>): (datas: seq<seq<Sample>>)
    ensures |datas| == |taken|
  {
    seq(|taken|, i requires 0 <= i < |taken| => taken[i].frame.data)
  }

  function Extended(taken: seq<Taken>, ssrc: nat, frame: Option<Frame>): seq<Taken> {
    if frame.Some? then taken + [Taken(ssrc, frame.value)] else taken
  }

  lemma FramesOfExtended(taken: seq<Taken>, ssrc: nat, frame: Option<Frame>)
    ensures FramesOf(Extended(taken, ssrc, frame)) == FramesOf(taken) + One(frame)
  {
  }

  /** The frames come from different participants among these. */
  ghost predicate OncePerParticipant(taken: seq<Taken>, among: set<nat>) {
    && (forall i :: 0 <= i < |taken| ==> taken[i].ssrc in among)
    && forall i, j :: 0 <= i < j < |taken| ==> taken[i].ssrc != taken[j].ssrc
  }

  lemma OnceMore(taken: seq<Taken>, among: set<nat>, ssrc: nat, frame: Option<Frame>)
    requires OncePerParticipant(taken, among) && ssrc !in among
    ensures OncePerParticipant(Extended(taken, ssrc, frame), among + {ssrc})
  {
  }

  /** The one frame taken from a participant, if any. */
  function FrameTakenFrom(taken: seq<Taken>, s: nat): seq<Frame> {
    if taken == [] then []
    else if taken[|taken| - 1].ssrc == s then [taken[|taken| - 1].frame]
    else FrameTakenFrom(taken[..|taken| - 1], s)
  }

  /** The buffer was asked for frames; everything else about its participant is as it was. */
  predicate OnlyQueueMoved(before: OtherParticipant, after: OtherParticipant) {
    && before.jitterbuf.Some? && after.jitterbuf.Some?
    && after == before.(jitterbuf := after.jitterbuf)
    && after.jitterbuf.value.reference == before.jitterbuf.value.reference
  }

  /**
    What a fetch does to one participant. If it has a jitter buffer, it has its turn: some oldest frames are dropped,
    at most one is played, the rest is still there and due no earlier, and nothing else about it changes.
   */
  ghost predicate TakenFrom(before: Participants, after: Participants, taken: seq<Taken>, turns: map<nat, Turn>, s: nat) {
    && s in before && s in after
    && if before[s].jitterbuf.Some? then
         && s in turns && turns[s].Over()
         && FrameTakenFrom(taken, s) == One(turns[s].Played())
         && Queue(before, s) == turns[s].freed + One(turns[s].Played()) + Queue(after, s)
         && TimeNotEarlier(NextTime(before, s), NextTime(after, s))
         && OnlyQueueMoved(before[s], after[s])
       else s !in turns && FrameTakenFrom(taken, s) == [] && after[s] == before[s]
  }

  /** Exactly these frames have been mixed since. */
  ghost predicate MixedNow(before: map<nat, Place>, after: map<nat, Place>, frames: seq<Frame>) {
    && after.Keys == before.Keys
    && forall id :: id in after ==> (after[id] == Mixed <==> before[id] == Mixed || Holds(frames, id))
  }

  lemma NotTakenBefore(taken: seq<Taken>, s: nat)
    requires forall i :: 0 <= i < |taken| ==> taken[i].ssrc != s
    ensures FrameTakenFrom(taken, s) == []
  {
    if taken != [] {
      NotTakenBefore(taken[..|taken| - 1], s);
    }
  }

  lemma TakenFromExtended(taken: seq<Taken>, ssrc: nat, frame: Option<Frame>, s: nat)
    ensures s != ssrc ==> FrameTakenFrom(Extended(taken, ssrc, frame), s) == FrameTakenFrom(taken, s)
    ensures s == ssrc && frame.Some? ==> FrameTakenFrom(Extended(taken, ssrc, frame), s) == One(frame)
  {
    assert frame.Some? ==> Extended(taken, ssrc, frame)[..|taken|] == taken;
  }

  lemma TakingOne(start: Participants, before: Participants, after: Participants, taken: seq<Taken>, turns: map<nat, Turn>,
                  ssrc: nat, turn: Turn)
    requires ssrc in start && ssrc in before && before[ssrc] == start[ssrc] && HasBuffer(before, ssrc) && HasBuffer(after, ssrc)
    requires after == before[ssrc := after[ssrc]] && OnlyQueueMoved(before[ssrc], after[ssrc])
    requires forall i :: 0 <= i < |taken| ==> taken[i].ssrc != ssrc
    requires turn.Over() && Queue(before, ssrc) == turn.freed + One(turn.Played()) + Queue(after, ssrc)
    requires TimeNotEarlier(NextTime(before, ssrc), NextTime(after, ssrc))
    ensures var taken', turns' := Extended(taken, ssrc, turn.Played()), turns[ssrc := turn];
            && TakenFrom(start, after, taken', turns', ssrc)
            && forall s :: s != ssrc && TakenFrom(start, before, taken, turns, s) ==> TakenFrom(start, after, taken', turns', s)
  {
    var frame := turn.Played();
    NotTakenBefore(taken, ssrc);
    TakenFromExtended(taken, ssrc, frame, ssrc);
    forall s: nat | s != ssrc && TakenFrom(start, before, taken, turns, s)
      ensures TakenFrom(start, after, Extended(taken, ssrc, frame), turns[ssrc := turn], s)
    {
      TakenFromExtended(taken, ssrc, frame, s);
      assert Queue(after, s) == Queue(before, s);
    }
  }

  /** A participant without a jitter buffer has nothing to take. */
  lemma NothingToTake(start: Participants, before: Participants, taken: seq<Taken>, turns: map<nat, Turn>, ssrc: nat)
    requires ssrc in start && ssrc in before && before[ssrc] == start[ssrc] && !HasBuffer(before, ssrc) && ssrc !in turns
    requires forall i :: 0 <= i < |taken| ==> taken[i].ssrc != ssrc
    ensures TakenFrom(start, before, taken, turns, ssrc)
  {
    NotTakenBefore(taken, ssrc);
  }

  lemma HoldsAppend(a: seq<Frame>, b: seq<Frame>, id: nat)
    ensures Holds(a + b, id) <==> Holds(a, id) || Holds(b, id)
  {
    if Holds(a, id) {
      var i :| 0 <= i < |a| && a[i].id == id;
      assert (a + b)[i] == a[i];
    }
    if Holds(b, id) {
      var i :| 0 <= i < |b| && b[i].id == id;
      assert (a + b)[|a| + i] == b[i];
    }
  }

  lemma MixingOne(start: map<nat, Place>, before: map<nat, Place>, frames: seq<Frame>, frame: Option<Frame>, freed: seq<Frame>)
    requires MixedNow(start, before, frames)
    requires forall i :: 0 <= i < |freed| ==> freed[i].id in before && before[freed[i].id].Queued?
    requires frame.Some? ==> frame.value.id in before
    ensures var one := One(frame);
            MixedNow(start, Settle(Settle(before, freed, Freed), one, Mixed), frames + one)
  {
    var one := One(frame);
    Settled(before, freed, Freed);
    Settled(Settle(before, freed, Freed), one, Mixed);
    forall id: nat
      ensures Holds(frames + one, id) <==> Holds(frames, id) || Holds(one, id)
    {
      HoldsAppend(frames, one, id);
    }
  }

  lemma QueuedInBooks(ps: Participants, place: map<nat, Place>, s: nat)
    requires Owned(ps, place)
    ensures forall i :: 0 <= i < |Queue(ps, s)| ==> Queue(ps, s)[i].id in place && place[Queue(ps, s)[i].id] == Queued(s)
  {
    assert Booked(s, Queue(ps, s), place);
    assert forall i :: 0 <= i < |Queue(ps, s)| ==> Holds(Queue(ps, s), Queue(ps, s)[i].id);
  }

  /** Each frame was queued for the participant it is taken from. */
  ghost predicate WereQueued(taken: seq<Taken>, place: map<nat, Place>) {
    forall i :: 0 <= i < |taken| ==> taken[i].frame.id in place && place[taken[i].frame.id] == Queued(taken[i].ssrc)
  }

  /** Frames taken from different queues are different payloads. */
  lemma DifferentPayloads(taken: seq<Taken>, among: set<nat>, place: map<nat, Place>)
    requires OncePerParticipant(taken, among) && WereQueued(taken, place)
    ensures NoRepeats(FramesOf(taken))
  {
  }

  /** How far the round over the participants has come: these have been visited, the others are untouched. */
  ghost predicate Visiting(start: Participants, startPlace: map<nat, Place>, ps: Participants, place: map<nat, Place>,
                           taken: seq<Taken>, turns: map<nat, Turn>, visited: set<nat>)
  {
    && visited <= ps.Keys == start.Keys && turns.Keys <= visited
    && (forall s :: s in ps && s !in visited ==> ps[s] == start[s])
    && (forall s :: s in visited ==> TakenFrom(start, ps, taken, turns, s))
    && OncePerParticipant(taken, visited)
    && MixedNow(startPlace, place, FramesOf(taken))
    && WereQueued(taken, startPlace)
  }

  lemma FreshlyQueued(ps: Participants, place: map<nat, Place>, taken: seq<Taken>, ssrc: nat, frame: Option<Frame>,
                      freed: seq<Frame>, rest: seq<Frame>)
    requires Owned(ps, place) && WereQueued(taken, place)
    requires Queue(ps, ssrc) == freed + One(frame) + rest
    ensures WereQueued(Extended(taken, ssrc, frame), place)
    ensures forall i :: 0 <= i < |freed| ==> freed[i].id in place && place[freed[i].id] == Queued(ssrc)
    ensures frame.Some? ==> frame.value.id in place && place[frame.value.id] == Queued(ssrc)
  {
    QueuedInBooks(ps, place, ssrc);
    assert forall i :: 0 <= i < |freed| ==> freed[i] == Queue(ps, ssrc)[i];
    assert frame.Some? ==> frame.value == Queue(ps, ssrc)[|freed|];
  }

  lemma VisitedOneMore(start: Participants, startPlace: map<nat, Place>, ps: Participants, place: map<nat, Place>,
                       taken: seq<Taken>, turns: map<nat, Turn>, visited: set<nat>,
                       ps': Participants, ssrc: nat, turn: Turn)
    requires Visiting(start, startPlace, ps, place, taken, turns, visited) && ssrc !in visited
    requires Owned(start, startPlace) && Owned(ps, place)
    requires HasBuffer(ps, ssrc) && HasBuffer(ps', ssrc) && ps' == ps[ssrc := ps'[ssrc]] && OnlyQueueMoved(ps[ssrc], ps'[ssrc])
    requires turn.Over() && Queue(ps, ssrc) == turn.freed + One(turn.Played()) + Queue(ps', ssrc)
    requires TimeNotEarlier(NextTime(ps, ssrc), NextTime(ps', ssrc))
    ensures Visiting(start, startPlace, ps', Settle(Settle(place, turn.freed, Freed), One(turn.Played()), Mixed),
                     Extended(taken, ssrc, turn.Played()), turns[ssrc := turn], visited + {ssrc})
  {
    var frame := turn.Played();
    TakingOne(start, ps, ps', taken, turns, ssrc, turn);
    FreshlyQueued(ps, place, [], ssrc, frame, turn.freed, Queue(ps', ssrc));
    FreshlyQueued(start, startPlace, taken, ssrc, frame, turn.freed, Queue(ps', ssrc));
    MixingOne(startPlace, place, FramesOf(taken), frame, turn.freed);
    FramesOfExtended(taken, ssrc, frame);
    OnceMore(taken, visited, ssrc, frame);
  }

  lemma PassedOver(start: Participants, startPlace: map<nat, Place>, ps: Participants, place: map<nat, Place>,
                   taken: seq<Taken>, turns: map<nat, Turn>, visited: set<nat>, ssrc: nat)
    requires Visiting(start, startPlace, ps, place, taken, turns, visited) && ssrc in ps && ssrc !in visited
    requires !HasBuffer(ps, ssrc)
    ensures Visiting(start, startPlace, ps, place, taken, turns, visited + {ssrc})
  {
    NothingToTake(start, ps, taken, turns, ssrc);
  }

  lemma OneLess(keys: set<nat>, remaining: set<nat>, ssrc: nat)
    requires ssrc in remaining && remaining <= keys
    ensures keys - (remaining - {ssrc}) == keys - remaining + {ssrc}
  {
  }

  lemma StartVisiting(ps: Participants, place: map<nat, Place>)
    ensures Visiting(ps, place, ps, place, [], map[], {})
  {
  }

  /** Every participant with a buffer has its turn; the others are passed over. */
  ghost predicate RoundTaken(ps: Participants, ps': Participants, taken: seq<Taken>, turns: map<nat, Turn>) {
    && ps'.Keys == ps.Keys && turns.Keys <= ps.Keys
    && (forall s :: s in ps ==> TakenFrom(ps, ps', taken, turns, s))
    && OncePerParticipant(taken, ps.Keys)
  }

  lemma RoundDelaysOnly(ps: Participants, ps': Participants, taken: seq<Taken>, turns: map<nat, Turn>,
                        next: Option<KnownNextFrameTime>)
    requires RoundTaken(ps, ps', taken, turns)
    ensures forall s: nat :: TimeNotEarlier(NextTime(ps, s), NextTime(ps', s))
    ensures IsLowerBound(next, ps) ==> IsLowerBound(next, ps')
  {
    forall s: nat
      ensures TimeNotEarlier(NextTime(ps, s), NextTime(ps', s))
    {
      assert s in ps ==> TakenFrom(ps, ps', taken, turns, s);
    }
    if IsLowerBound(next, ps) {
      BoundSurvivesDelay(next, ps, ps');
    }
  }

  predicate Refused(result: PutResult) {
    result.PutFailed? && result.error.Drop?
  }

  /** The payload is somewhere in the queue, unless it was refused. */
  ghost predicate AfterPut(before: seq<Frame>, after: seq<Frame>, frame: Frame, result: PutResult) {
    if Refused(result) then after == before
    else exists at :: 0 <= at <= |before| && after == before[..at] + [frame] + before[at..]
  }

  /** The buffer a participant's payload goes to: its own, or one made now. */
  function BufferFor(participant: OtherParticipant, now: nat): Jitter {
    if participant.jitterbuf.Some? then participant.jitterbuf.value else Jitter(now, [], 0)
  }

  /** Timestamps count from the participant's first packet. */
  function FirstTimestamp(participant: OtherParticipant, timestamp: U32): U32 {
    if participant.initialTimestamp.Some? then participant.initialTimestamp.value else timestamp
  }

  /** These samples were boxed as this payload and given to the participant's buffer. */
  ghost predicate StoredAs(before: OtherParticipant, after: OtherParticipant, timestamp: U32, voice: seq<Sample>,
                           now: nat, id: nat, result: PutResult)
  {
    var first, jitter := FirstTimestamp(before, timestamp), BufferFor(before, now);
    && after.initialTimestamp == Some(first) && after.lastVoiceLength == DurationMs(|voice|)
    && after.jitterbuf.Some? && after.jitterbuf.value.reference == jitter.reference
    && AfterPut(jitter.queue, after.jitterbuf.value.queue,
                Frame(id, voice, DurationMs(|voice|), JitterTimestamp(first, timestamp)), result)
    && (result != PutFailed(Scheduled) ==> after.jitterbuf.value.next == jitter.next)
  }

  // What each operation does to the whole receiver

  /** A receiver's maps, its remembered time, and the books: where each payload is and how many have been boxed. */
  datatype Mixer = Mixer(
    users: map<nat, nat>,
    participants: Participants,
    known: Option<KnownNextFrameTime>,
    place: map<nat, Place>,
    boxed: nat)

  const NEW_MIXER := Mixer(map[], map[], None, map[], 0)

  ghost predicate WellFormed(m: Mixer) {
    && MapsFit(m.users, m.participants, m.known)
    && Owned(m.participants, m.place)
    && forall id: nat :: id in m.place <==> id < m.boxed
  }

  /** An SSRC that is taken is left alone; otherwise it gets a participant, if a decoder can be made, and the user. */
  function Mapped(m: Mixer, user: nat, ssrc: nat, decoderCreated: bool): Mixer {
    if ssrc in m.participants || !decoderCreated then m
    else
      m.(participants := m.participants[ssrc := OtherParticipant(None, None, ASSUMED_VOICE_LENGTH)],
         users := m.users[user := ssrc])
  }

  /** The user's participant goes, with everything queued for it, and with the remembered time if that was its own. */
  function Unmapped(m: Mixer, user: nat): Mixer {
    if user !in m.users then m
    else
      var ssrc := m.users[user];
      Mixer(m.users - {user}, m.participants - {ssrc},
            if m.known.Some? && m.known.value.ssrc == ssrc then None else m.known,
            Settle(m.place, Queue(m.participants, ssrc), Freed), m.boxed)
  }

  /** A time once remembered stays; otherwise the earliest is remembered, if anything is scheduled. */
  ghost predicate Remembers(ps: Participants, known: Option<KnownNextFrameTime>, known': Option<KnownNextFrameTime>) {
    if known.Some? then known' == known
    else if known' == None then forall s: nat :: NextTime(ps, s) == None
    else NextTime(ps, known'.value.ssrc) == Some(known'.value.due) && IsLowerBound(known', ps)
  }

  /** The frames taken were queued, and they and no others are mixed now. */
  ghost predicate RoundBooked(place: map<nat, Place>, place': map<nat, Place>, taken: seq<Taken>) {
    Advances(place, place') && MixedNow(place, place', FramesOf(taken)) && WereQueued(taken, place)
  }

  /** What comes of the frames taken: nothing, a mix sample by sample, or a panic if they differ in length. */
  predicate MixOf(taken: seq<Taken>, result: FetchResult) {
    if taken == [] then result == NoneQueued
    else if EqualLengths(DataOf(taken)) then
      && result.PacketAvailable?
      && (forall d :: d in DataOf(taken) ==> |d| == |result.mixed|)
      && forall i :: 0 <= i < |result.mixed| ==> result.mixed[i] == Fold(Column(DataOf(taken), i))
    else result == MixPanics
  }

  predicate TimeReached(known: Option<KnownNextFrameTime>, now: nat) {
    known.Some? && known.value.due <= now
  }

  /** A fetch: nothing scheduled, not due yet, or one turn for every participant that has a buffer. */
  ghost predicate FetchStep(m: Mixer, now: nat, result: FetchResult, taken: seq<Taken>, turns: map<nat, Turn>, m': Mixer) {
    && m' == m.(participants := m'.participants, known := m'.known, place := m'.place)
    && Remembers(m.participants, m.known, m'.known)
    && if TimeReached(m'.known, now) then
         && RoundTaken(m.participants, m'.participants, taken, turns)
         && RoundBooked(m.place, m'.place, taken) && Owned(m'.participants, m'.place)
         && MixOf(taken, result)
       else
         && m'.participants == m.participants && m'.place == m.place && taken == [] && turns == map[]
         && result == if m'.known == None then NoneQueued else CheckBackLater(m'.known.value.due)
  }

  /** Only one participant changes, one payload more is boxed and booked, and the remembered time is re-scheduled if need be. */
  ghost predicate OnePayloadMore(m: Mixer, ssrc: nat, put: PutResult, m': Mixer) {
    && ssrc in m.participants && ssrc in m'.participants
    && m'.users == m.users && m'.boxed == m.boxed + 1
    && m'.participants == m.participants[ssrc := m'.participants[ssrc]]
    && m'.place == m.place[m.boxed := if Refused(put) then Freed else Queued(ssrc)]
    && m'.known == if put == PutFailed(Scheduled) then Rescheduled(m.known, ssrc, NextTime(m'.participants, ssrc)) else m.known
  }

  /** A packet that yields no samples is ignored; otherwise its payload is boxed, given to the buffer and booked. */
  ghost predicate PacketStep(m: Mixer, packet: Received, decode: Decoder, now: nat, put: Option<PutResult>, m': Mixer)
    requires FromSocket(packet)
  {
    var voice := Voice(packet, m.participants, decode);
    if put == None then voice == None && m' == m
    else
      && voice.Some? && packet.Rtp? && OnePayloadMore(m, packet.ssrc, put.value, m')
      && StoredAs(m.participants[packet.ssrc], m'.participants[packet.ssrc], packet.timestamp, voice.value, now, m.boxed, put.value)
  }

  /** Nothing was mixed: what is new was queued or freed. */
  ghost predicate MixedNothing(before: map<nat, Place>, after: map<nat, Place>) {
    forall id :: id in after ==> (after[id] == Mixed <==> id in before && before[id] == Mixed)
  }

  lemma FreeingMixesNothing(place: map<nat, Place>, freed: seq<Frame>)
    requires Advances(place, Settle(place, freed, Freed))
    ensures MixedNothing(place, Settle(place, freed, Freed))
  {
    Settled(place, freed, Freed);
  }
}
