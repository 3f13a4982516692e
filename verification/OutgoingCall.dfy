/** A whole call's outgoing voice: the frames Asterisk writes, through the call handle, onto the data channel. */
module OutgoingCall {
  import opened Prelude
  import opened Crypto
  import opened DataChannel
  import opened Counters

  /** One written frame: what the encoder makes of it and whether the voice task is up when it arrives. */
  datatype Frame = Frame(encoded: Option<seq<Byte>>, connected: bool, random: Nonce, delivered: bool) {
    function Fate(): Fate {
      if encoded.Some? && connected then Attempted else Unsent
    }
  }

  predicate EncodedWithinLimit(frames: seq<Frame>) {
    forall i :: 0 <= i < |frames| && frames[i].encoded.Some? ==> |frames[i].encoded.value| <= MAX_OPUS_PAYLOAD_SIZE
  }

  function Fates(frames: seq<Frame>): (fates: seq<Fate>)
    ensures |fates| == |frames|
  {
    seq(|frames|, i requires 0 <= i < |frames| => frames[i].Fate())
  }

  /** What one send attempt puts on the wire: one packet, or none if the cipher refuses. */
  function Attempt(cipher: Cipher, mode: NonceMode, ssrc: U32, stamp: Stamp, frame: Frame): seq<seq<Byte>>
    requires frame.encoded.Some?
  {
    match Wire(cipher, mode, frame.random, stamp.Header(ssrc), frame.encoded.value)
    case None => []
    case Some(packet) => [packet]
  }

  /**
    The packets of a call, in order. The packet of the k-th frame is stamped with the k-th timestamp and,
    if j sends were attempted before it, with the j-th sequence number, and sealed with the j-th nonce state.
   */
  function Packets(cipher: Cipher, mode: NonceMode, t0: U32, s0: U16, ssrc: U32, frames: seq<Frame>): seq<seq<Byte>> {
    if frames == [] then []
    else
      var k := |frames| - 1;
      var before := Packets(cipher, mode, t0, s0, ssrc, frames[..k]);
      if frames[k].Fate().Unsent? then before
      else
        var j := Attempts(Fates(frames[..k]));
        var stamp := Stamp((s0 + j) % POW16, (t0 + NUM_SAMPLES * k) % POW32);
        before + Attempt(cipher, After(mode, j), ssrc, stamp, frames[k])
  }

  /** The stamps used by `Packets` are those the two counters hand out one after the other. */
  lemma PacketsUseStamps(t0: U32, s0: U16, frames: seq<Frame>, k: nat)
    requires k < |frames| && frames[k].Fate().Attempted?
    ensures Stamps(t0, s0, Fates(frames))[k] ==
            Some(Stamp((s0 + Attempts(Fates(frames[..k]))) % POW16, (t0 + NUM_SAMPLES * k) % POW32))
  {
    assert t0 % POW32 == t0 && s0 % POW16 == s0;
    StampsOfCall(t0, s0, Fates(frames), k);
    assert Fates(frames)[..k] == Fates(frames[..k]);
  }

  /** The sending side's counters and what it has sent. */
  datatype Talker = Talker(timestamp: U32, sequence: U16, mode: NonceMode, sent: seq<seq<Byte>>)

  /** Writing one frame and, when the voice task is there to take the request, attempting the send. */
  function Next(cipher: Cipher, ssrc: U32, t: Talker, frame: Frame): Talker {
    var timestamp := (t.timestamp + NUM_SAMPLES) % POW32;
    if frame.Fate().Unsent? then t.(timestamp := timestamp)
    else
      Talker(timestamp, (t.sequence + 1) % POW16, t.mode.Next(),
             t.sent + Attempt(cipher, t.mode, ssrc, Stamp(t.sequence, t.timestamp), frame))
  }

  function NextAll(cipher: Cipher, ssrc: U32, t: Talker, frames: seq<Frame>): Talker {
    if frames == [] then t
    else Next(cipher, ssrc, NextAll(cipher, ssrc, t, frames[..|frames| - 1]), frames[|frames| - 1])
  }

  lemma NextCounters(cipher: Cipher, ssrc: U32, t: Talker, frame: Frame)
    ensures var next, sent := Next(cipher, ssrc, t, frame), frame.Fate().Attempted?;
            && next.timestamp == (t.timestamp + NUM_SAMPLES) % POW32
            && next.sequence == (if sent then (t.sequence + 1) % POW16 else t.sequence)
            && next.mode == (if sent then t.mode.Next() else t.mode)
  {
  }

  /** One frame further: the counters move on by one frame and at most one attempt. */
  lemma CountersNext(t0: U32, s0: U16, mode: NonceMode, frames: seq<Frame>)
    requires frames != []
    ensures var k := |frames| - 1;
            var j, j' := Attempts(Fates(frames[..k])), Attempts(Fates(frames));
            && ((t0 + NUM_SAMPLES * k) % POW32 + NUM_SAMPLES) % POW32 == (t0 + NUM_SAMPLES * |frames|) % POW32
            && (frames[k].Fate().Unsent? ==> j' == j)
            && (frames[k].Fate().Attempted? ==>
                  ((s0 + j) % POW16 + 1) % POW16 == (s0 + j') % POW16 && After(mode, j).Next() == After(mode, j'))
  {
    var k := |frames| - 1;
    assert Fates(frames)[..k] == Fates(frames[..k]);
    Wrap32Twice(t0 + NUM_SAMPLES * k, NUM_SAMPLES);
    Wrap16Twice(s0 + Attempts(Fates(frames[..k])), 1);
    assert t0 + NUM_SAMPLES * k + NUM_SAMPLES == t0 + NUM_SAMPLES * |frames|;
  }

  /** Where the counters are after so many frames and attempts. */
  predicate CountersAt(start: Talker, t: Talker, frames: nat, attempts: nat) {
    && t.timestamp == (start.timestamp + NUM_SAMPLES * frames) % POW32
    && t.sequence == (start.sequence + attempts) % POW16
    && t.mode == After(start.mode, attempts)
  }

  lemma CountersStep(cipher: Cipher, ssrc: U32, start: Talker, before: Talker, frames: seq<Frame>)
    requires frames != []
    requires CountersAt(start, before, |frames| - 1, Attempts(Fates(frames[..|frames| - 1])))
    ensures CountersAt(start, Next(cipher, ssrc, before, frames[|frames| - 1]), |frames|, Attempts(Fates(frames)))
  {
    CountersNext(start.timestamp, start.sequence, start.mode, frames);
    NextCounters(cipher, ssrc, before, frames[|frames| - 1]);
  }

  lemma {:induction false} CountersAfter(cipher: Cipher, ssrc: U32, t: Talker, frames: seq<Frame>)
    ensures CountersAt(t, NextAll(cipher, ssrc, t, frames), |frames|, Attempts(Fates(frames)))
  {
    if frames == [] {
      assert t.timestamp % POW32 == t.timestamp && t.sequence % POW16 == t.sequence;
    } else {
      var k := |frames| - 1;
      CountersAfter(cipher, ssrc, t, frames[..k]);
      CountersStep(cipher, ssrc, t, NextAll(cipher, ssrc, t, frames[..k]), frames);
    }
  }

  /** Stepping the counters frame by frame, wrapping as they go, sends exactly the packets given in closed form. */
  lemma {:induction false} TalkingSendsPackets(cipher: Cipher, ssrc: U32, t: Talker, frames: seq<Frame>)
    ensures NextAll(cipher, ssrc, t, frames).sent ==
            t.sent + Packets(cipher, t.mode, t.timestamp, t.sequence, ssrc, frames)
  {
    if frames != [] {
      var k := |frames| - 1;
      var before, j := NextAll(cipher, ssrc, t, frames[..k]), Attempts(Fates(frames[..k]));
      TalkingSendsPackets(cipher, ssrc, t, frames[..k]);
      CountersAfter(cipher, ssrc, t, frames[..k]);
      assert before.mode == After(t.mode, j);
      assert NextAll(cipher, ssrc, t, frames).sent == Next(cipher, ssrc, before, frames[k]).sent;
    }
  }

  ghost function View(handle: CallHandle, channel: VoiceDataChannel): Talker
    requires channel.crypto.Some?
    reads handle, channel, channel.crypto.value.0
  {
    Talker(handle.timestamp, channel.sequenceNo, channel.crypto.value.0.mode, channel.sent)
  }

  /** A frame on its way from Asterisk's write callback to the data channel. */
  method TalkOnce(handle: CallHandle, channel: VoiceDataChannel, frame: Frame)
    requires channel.Valid() && channel.crypto.Some?
    requires frame.encoded.Some? ==> |frame.encoded.value| <= MAX_OPUS_PAYLOAD_SIZE
    modifies handle, channel`sequenceNo, channel`sent, channel.sendBuf, channel.crypto.value.0
    ensures channel.Valid()
    ensures View(handle, channel) == Next(channel.crypto.value.0.cipher, channel.ssrc, old(View(handle, channel)), frame)
  {
    var written := handle.WriteFrame(frame.encoded, frame.connected);
    if written {
      var request := handle.requests[|handle.requests| - 1];
      var ok := channel.SendVoice(request.timestamp, request.opusPayload, frame.random, frame.delivered);
    }
  }

  /** Over a whole call the channel sends exactly `Packets`. */
  method Talk(handle: CallHandle, channel: VoiceDataChannel, frames: seq<Frame>)
    requires channel.Valid() && channel.crypto.Some? && EncodedWithinLimit(frames)
    modifies handle, channel`sequenceNo, channel`sent, channel.sendBuf, channel.crypto.value.0
    ensures channel.Valid()
    ensures channel.sent == old(channel.sent)
              + Packets(channel.crypto.value.0.cipher, old(channel.crypto.value.0.mode), old(handle.timestamp),
                        old(channel.sequenceNo), channel.ssrc, frames)
  {
    ghost var start, cipher := View(handle, channel), channel.crypto.value.0.cipher;
    for k := 0 to |frames|
      invariant channel.Valid()
      invariant View(handle, channel) == NextAll(cipher, channel.ssrc, start, frames[..k])
    {
      TalkOnce(handle, channel, frames[k]);
      assert frames[..k + 1][..k] == frames[..k];
    }
    assert frames[..|frames|] == frames;
    TalkingSendsPackets(cipher, channel.ssrc, start, frames);
  }
}
