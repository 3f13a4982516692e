/** Over whole runs: from which packet a participant's time is counted, and as what each packet's payload is boxed. */
module ReceiverTimes {
  import opened Prelude
  import opened Crypto
  import opened DataChannel
  import opened Extensions
  import opened Samples
  import opened JitterBuffers
  import opened Ownership
  import opened ReceiverState
  import opened ReceiverRuns

  // The first packet of a participant

  /** The event is a packet of this SSRC, and samples came of it. */
  predicate StoredAt(run: Run, k: nat, s: nat)
    requires run.Fits() && k < |run.events|
  {
    && run.events[k].Receives? && run.events[k].packet.Rtp? && run.events[k].packet.ssrc == s
    && run.outcomes[k].Handled? && run.outcomes[k].put.Some?
  }

  /** The event unmaps the user of this SSRC. */
  predicate RemovedAt(run: Run, k: nat, s: nat)
    requires run.Fits() && k < |run.events|
  {
    && run.events[k].Unmaps? && run.events[k].unmapped in run.states[k].users
    && run.states[k].users[run.events[k].unmapped] == s
  }

  /** A packet's timestamp, and when it was received. */
  datatype Arrival = Arrival(timestamp: U32, at: nat)

  /** After so many events: the first packet stored for an SSRC since its user was last unmapped. */
  function FirstStored(run: Run, k: nat, s: nat): Option<Arrival>
    requires run.Fits() && k <= |run.events|
  {
    if k == 0 || RemovedAt(run, k - 1, s) then None
    else if FirstStored(run, k - 1, s) == None && StoredAt(run, k - 1, s)
    then Some(Arrival(run.events[k - 1].packet.timestamp, run.events[k - 1].receivedAt))
    else FirstStored(run, k - 1, s)
  }

  /** The participant's time, and its buffer's clock, count from this packet; without one they have not begun. */
  predicate CountsFrom(m: Mixer, s: nat, first: Option<Arrival>) {
    match first
    case None => s in m.participants ==> m.participants[s].initialTimestamp == None && m.participants[s].jitterbuf == None
    case Some(packet) =>
      && s in m.participants && m.participants[s].initialTimestamp == Some(packet.timestamp)
      && m.participants[s].jitterbuf.Some? && m.participants[s].jitterbuf.value.reference == packet.at
  }

  lemma FetchKeepsFirst(m: Mixer, now: nat, result: FetchResult, taken: seq<Taken>, turns: map<nat, Turn>, m': Mixer,
                        s: nat, first: Option<Arrival>)
    requires FetchStep(m, now, result, taken, turns, m') && CountsFrom(m, s, first)
    ensures CountsFrom(m', s, first)
  {
    if TimeReached(m'.known, now) && s in m.participants {
      assert TakenFrom(m.participants, m'.participants, taken, turns, s);
    }
  }

  lemma PacketSetsFirst(m: Mixer, packet: Received, decode: Decoder, now: nat, put: Option<PutResult>, m': Mixer,
                        s: nat, first: Option<Arrival>)
    requires FromSocket(packet) && PacketStep(m, packet, decode, now, put, m') && CountsFrom(m, s, first)
    ensures var stored := put.Some? && packet.Rtp? && packet.ssrc == s;
            CountsFrom(m', s, if first == None && stored then Some(Arrival(packet.timestamp, now)) else first)
  {
  }

  /** Over any run from a new receiver, a participant's time and clock count from the first packet stored for it. */
  lemma {:induction false} CountsFromFirst(run: Run, k: nat, s: nat)
    requires run.Valid() && run.From(NEW_MIXER) && k <= |run.events|
    ensures CountsFrom(run.states[k], s, FirstStored(run, k, s))
  {
    if k > 0 {
      CountsFromFirst(run, k - 1, s);
      assert run.StepAt(k - 1);
      var m, m', first := run.states[k - 1], run.states[k], FirstStored(run, k - 1, s);
      match run.events[k - 1] {
        case Fetches(now) =>
          var o := run.outcomes[k - 1];
          FetchKeepsFirst(m, now, o.result, o.taken, o.turns, m', s, first);
        case Receives(packet, decode, now) =>
          PacketSetsFirst(m, packet, decode, now, run.outcomes[k - 1].put, m', s, first);
        case _ =>
      }
    }
  }

  // What a payload is boxed as

  /** The frame has been put somewhere into the queue. */
  ghost predicate Inserted(before: seq<Frame>, after: seq<Frame>, frame: Frame) {
    exists at :: 0 <= at <= |before| && after == before[..at] + [frame] + before[at..]
  }

  lemma OffsetRestored(first: U32, timestamp: U32, x: nat)
    requires timestamp == (first + x) % POW32 && x < POW32
    ensures JitterTimestamp(first, timestamp) == x / 48
  {
    assert (timestamp - first) % POW32 == x;
  }

  /** The packet's samples have been boxed, with their length and this time, and put into the sender's queue. */
  ghost predicate BoxedAs(m: Mixer, packet: Received, decode: Decoder, m': Mixer, time: int)
    requires FromSocket(packet) && packet.Rtp?
  {
    var voice := Voice(packet, m.participants, decode);
    && voice.Some?
    && Inserted(Queue(m.participants, packet.ssrc), Queue(m'.participants, packet.ssrc),
                Frame(m.boxed, voice.value, |voice.value| / 48, time))
  }

  lemma StoredQueued(before: OtherParticipant, after: OtherParticipant, timestamp: U32, voice: seq<Sample>,
                     now: nat, id: nat, put: PutResult, first: U32)
    requires StoredAs(before, after, timestamp, voice, now, id, put) && !Refused(put)
    requires after.initialTimestamp == Some(first)
    ensures Inserted(BufferFor(before, now).queue, after.jitterbuf.value.queue,
                     Frame(id, voice, |voice| / 48, JitterTimestamp(first, timestamp)))
  {
    assert DurationMs(|voice|) == |voice| / 48;
  }

  lemma BoxedInStep(m: Mixer, packet: Received, decode: Decoder, now: nat, put: PutResult, m': Mixer, first: Arrival, x: nat)
    requires FromSocket(packet) && PacketStep(m, packet, decode, now, Some(put), m') && !Refused(put)
    requires CountsFrom(m', packet.ssrc, Some(first)) && packet.timestamp == (first.timestamp + x) % POW32 && x < POW32
    ensures BoxedAs(m, packet, decode, m', x / 48)
  {
    var voice := Voice(packet, m.participants, decode).value;
    StoredQueued(m.participants[packet.ssrc], m'.participants[packet.ssrc], packet.timestamp, voice, now, m.boxed, put,
                 first.timestamp);
    OffsetRestored(first.timestamp, packet.timestamp, x);
  }

  lemma PacketTaken(m: Mixer, e: Event, o: ReceiverRuns.Outcome, m': Mixer)
    requires Step(m, e, o, m') && e.Receives?
    ensures FromSocket(e.packet) && o.Handled? && PacketStep(m, e.packet, e.decode, e.receivedAt, o.put, m')
  {
  }

  lemma StepHolds(run: Run, k: nat)
    requires run.Valid() && k < |run.events|
    ensures Step(run.states[k], run.events[k], run.outcomes[k], run.states[k + 1])
  {
    assert run.StepAt(k);
  }

  /**
    Over any run from a new receiver: a packet that is x samples after the first one stored for its participant, and is
    not refused, is boxed with its samples, their length and time x / 48 in milliseconds, and queued.
   */
  lemma {:induction false} BoxedAtTrueOffset(run: Run, k: nat, x: nat)
    requires run.Valid() && run.From(NEW_MIXER) && k < |run.events| && run.events[k].Receives? && run.events[k].packet.Rtp?
    requires StoredAt(run, k, run.events[k].packet.ssrc) && !Refused(run.outcomes[k].put.value) && x < POW32
    requires var first := FirstStored(run, k + 1, run.events[k].packet.ssrc);
             first.Some? && run.events[k].packet.timestamp == (first.value.timestamp + x) % POW32
    ensures FromSocket(run.events[k].packet)
    ensures BoxedAs(run.states[k], run.events[k].packet, run.events[k].decode, run.states[k + 1], x / 48)
  {
    var e, o := run.events[k], run.outcomes[k];
    StepHolds(run, k);
    PacketTaken(run.states[k], e, o, run.states[k + 1]);
    CountsFromFirst(run, k + 1, e.packet.ssrc);
    BoxedInStep(run.states[k], e.packet, e.decode, e.receivedAt, o.put.value, run.states[k + 1],
                FirstStored(run, k + 1, e.packet.ssrc).value, x);
  }

  // The length a participant's buffer is asked with

  /** After so many events: the milliseconds of the last packet stored for an SSRC; 20 until there is one. */
  function LastLength(run: Run, k: nat, s: nat): nat
    requires run.Fits() && k <= |run.events|
  {
    if k == 0 || RemovedAt(run, k - 1, s) then 20
    else
      var e := run.events[k - 1];
      if StoredAt(run, k - 1, s) && FromSocket(e.packet) && Voice(e.packet, run.states[k - 1].participants, e.decode).Some?
      then |Voice(e.packet, run.states[k - 1].participants, e.decode).value| / 48
      else LastLength(run, k - 1, s)
  }

  predicate ExpectsLength(m: Mixer, s: nat, length: nat) {
    length == if s in m.participants then m.participants[s].lastVoiceLength else 20
  }

  lemma FetchKeepsLength(m: Mixer, now: nat, result: FetchResult, taken: seq<Taken>, turns: map<nat, Turn>, m': Mixer,
                         s: nat, length: nat)
    requires FetchStep(m, now, result, taken, turns, m') && ExpectsLength(m, s, length)
    ensures ExpectsLength(m', s, length)
  {
    if TimeReached(m'.known, now) && s in m.participants {
      assert TakenFrom(m.participants, m'.participants, taken, turns, s);
    }
  }

  lemma PacketSetsLength(m: Mixer, packet: Received, decode: Decoder, now: nat, put: Option<PutResult>, m': Mixer,
                         s: nat, length: nat)
    requires FromSocket(packet) && PacketStep(m, packet, decode, now, put, m') && ExpectsLength(m, s, length)
    ensures if put.Some? && packet.Rtp? && packet.ssrc == s then
              Voice(packet, m.participants, decode).Some?
              && ExpectsLength(m', s, |Voice(packet, m.participants, decode).value| / 48)
            else ExpectsLength(m', s, length)
  {
    if put.Some? {
      var voice := Voice(packet, m.participants, decode).value;
      assert DurationMs(|voice|) == |voice| / 48;
    }
  }

  /** Over any run from a new receiver, the length a buffer is asked with is that of the last packet stored for it. */
  lemma {:induction false} LengthIsTheLast(run: Run, k: nat, s: nat)
    requires run.Valid() && run.From(NEW_MIXER) && k <= |run.events|
    ensures ExpectsLength(run.states[k], s, LastLength(run, k, s))
  {
    if k > 0 {
      LengthIsTheLast(run, k - 1, s);
      assert run.StepAt(k - 1);
      var m, m', length := run.states[k - 1], run.states[k], LastLength(run, k - 1, s);
      match run.events[k - 1] {
        case Fetches(now) =>
          var o := run.outcomes[k - 1];
          FetchKeepsLength(m, now, o.result, o.taken, o.turns, m', s, length);
        case Receives(packet, decode, now) =>
          PacketSetsLength(m, packet, decode, now, run.outcomes[k - 1].put, m', s, length);
        case _ =>
      }
    }
  }

  // What the decoder is given

  /** The mono samples of what the decoder makes of these Opus bytes. */
  function HeardAs(decode: Decoder, opus: seq<Byte>): Option<seq<Sample>> {
    match decode(opus)
    case DecodeError => None
    case DecodedSamples(count, voice) => Some(Mono(voice, count))
  }

  lemma HeardAfterSkipping(packet: Received, ps: Participants, decode: Decoder, payload: seq<Byte>, skip: nat)
    requires packet.Rtp? && packet.start <= packet.end <= |packet.buffer| && packet.ssrc in ps
    requires packet.buffer[packet.start..packet.end] == payload && Skipped(payload) == Some(skip) && skip <= |payload|
    ensures Voice(packet, ps, decode) == HeardAs(decode, payload[skip..])
  {
  }

  /** A participant is heard as what its decoder makes of exactly the Opus bytes that were sealed. */
  lemma SentIsHeard(cipher: Cipher, mode: NonceMode, random: Nonce, sequence: U16, timestamp: U32, ssrc: U32, opus: seq<Byte>,
                    ps: Participants, decode: Decoder)
    requires Wire(cipher, mode, random, RtpHeader(sequence, timestamp, ssrc), opus).Some? && ssrc in ps && NoExtension(opus)
    ensures var wire := Wire(cipher, mode, random, RtpHeader(sequence, timestamp, ssrc), opus).value;
            && |wire| >= RTP_HEADER_LEN
            && var received := ReceivedFrom(cipher, mode.Mode(), wire, AsRtp);
            && FromSocket(received) && Voice(received, ps, decode) == HeardAs(decode, opus)
  {
    var wire := Wire(cipher, mode, random, RtpHeader(sequence, timestamp, ssrc), opus).value;
    SentIsReceived(cipher, mode, random, sequence, timestamp, ssrc, opus);
    SkippedExactly(opus, 0);
    HeardAfterSkipping(ReceivedFrom(cipher, mode.Mode(), wire, AsRtp), ps, decode, opus, 0);
    assert opus[0..] == opus;
  }

  /** The same behind a header extension. */
  lemma ExtendedIsHeard(cipher: Cipher, mode: NonceMode, random: Nonce, sequence: U16, timestamp: U32, ssrc: U32,
                        words: seq<Byte>, opus: seq<Byte>, ps: Participants, decode: Decoder)
    requires |words| % 4 == 0 && |words| / 4 < POW16 && ssrc in ps
    requires Wire(cipher, mode, random, RtpHeader(sequence, timestamp, ssrc), WithExtension(words, opus)).Some?
    ensures var wire := Wire(cipher, mode, random, RtpHeader(sequence, timestamp, ssrc), WithExtension(words, opus)).value;
            && |wire| >= RTP_HEADER_LEN
            && var received := ReceivedFrom(cipher, mode.Mode(), wire, AsRtp);
            && FromSocket(received) && Voice(received, ps, decode) == HeardAs(decode, opus)
  {
    var payload := WithExtension(words, opus);
    var wire := Wire(cipher, mode, random, RtpHeader(sequence, timestamp, ssrc), payload).value;
    SentIsReceived(cipher, mode, random, sequence, timestamp, ssrc, payload);
    ExtensionSkipped(words, opus);
    HeardAfterSkipping(ReceivedFrom(cipher, mode.Mode(), wire, AsRtp), ps, decode, payload, 4 + |words|);
  }
}
