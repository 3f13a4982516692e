/**
  The counters of outgoing voice over a whole call: the timestamp advanced by
  every frame Asterisk writes, the sequence number advanced by every send
  attempt, and the nonce counter of Lite mode. All three wrap.
 */
module Counters {
  import opened Prelude
  import opened Crypto
  import opened DataChannel

  const NUM_SAMPLES: nat := 960

  datatype OutgoingVoicePacket = OutgoingVoicePacket(opusPayload: seq<Byte>, timestamp: U32)

  class CallHandle {
    var timestamp: U32
    /** Write requests sent to the call worker. */
    var requests: seq<OutgoingVoicePacket>

    constructor (initialTimestamp: U32)
      ensures timestamp == initialTimestamp && requests == []
    {
      timestamp, requests := initialTimestamp, [];
    }

    /** `encoded` is what the encoder makes of the frame, `answer` what the worker replies. */
    method WriteFrame(encoded: Option<seq<Byte>>, answer: bool) returns (ok: bool)
      requires encoded.Some? ==> |encoded.value| <= MAX_OPUS_PAYLOAD_SIZE
      modifies this
      ensures timestamp == (old(timestamp) + NUM_SAMPLES) % POW32
      ensures requests == old(requests) + if encoded.Some? then [OutgoingVoicePacket(encoded.value, old(timestamp))] else []
      ensures ok == (encoded.Some? && answer)
    {
      var current := timestamp;
      timestamp := (timestamp + NUM_SAMPLES) % POW32;
      if encoded == None {
        return false;
      }
      requests := requests + [OutgoingVoicePacket(encoded.value, current)];
      return answer;
    }
  }

  /** What becomes of one written frame: it never reaches the data channel, or a send is attempted. */
  datatype Fate = Unsent | Attempted

  function Attempts(fates: seq<Fate>): (n: nat)
    ensures n <= |fates|
  {
    if fates == [] then 0
    else Attempts(fates[..|fates| - 1]) + (if fates[|fates| - 1].Attempted? then 1 else 0)
  }

  datatype Stamp = Stamp(sequence: U16, timestamp: U32) {
    function Header(ssrc: U32): (h: seq<Byte>)
      ensures |h| == RTP_HEADER_LEN
    {
      RtpHeader(sequence, timestamp, ssrc)
    }
  }

  /** What a call's send attempts are stamped with, keeping the place of frames that were not sent. */
  function Stamps(timestamp: U32, sequence: U16, fates: seq<Fate>): (stamps: seq<Option<Stamp>>)
    ensures |stamps| == |fates|
    decreases |fates|
  {
    if fates == [] then []
    else
      var next := (timestamp + NUM_SAMPLES) % POW32;
      if fates[0].Attempted? then [Some(Stamp(sequence, timestamp))] + Stamps(next, (sequence + 1) % POW16, fates[1..])
      else [None] + Stamps(next, sequence, fates[1..])
  }

  lemma {:induction false} AttemptsSplit(a: seq<Fate>, b: seq<Fate>)
    ensures Attempts(a + b) == Attempts(a) + Attempts(b)
    decreases |b|
  {
    if b == [] {
      assert a + b == a;
    } else {
      AttemptsSplit(a, b[..|b| - 1]);
      assert (a + b)[..|a + b| - 1] == a + b[..|b| - 1];
    }
  }

  lemma Wrap16Twice(a: nat, z: nat)
    ensures (a % POW16 + z) % POW16 == (a + z) % POW16
  {
    var q, r := a / POW16, a % POW16;
    assert a + z == POW16 * q + (r + z);
  }

  lemma Wrap32Twice(a: nat, z: nat)
    ensures (a % POW32 + z) % POW32 == (a + z) % POW32
  {
    var q, r := a / POW32, a % POW32;
    assert a + z == POW32 * q + (r + z);
  }

  lemma StampsTail(t0: nat, s0: nat, fates: seq<Fate>, k: nat)
    requires 0 < k < |fates|
    ensures Stamps(t0 % POW32, s0 % POW16, fates)[k] ==
            Stamps((t0 + NUM_SAMPLES) % POW32, (s0 + if fates[0].Attempted? then 1 else 0) % POW16, fates[1..])[k - 1]
  {
    Wrap32Twice(t0, NUM_SAMPLES);
    Wrap16Twice(s0, 1);
  }

  lemma FirstAttempt(fates: seq<Fate>, k: nat)
    requires 0 < k <= |fates|
    ensures Attempts(fates[..k]) == (if fates[0].Attempted? then 1 else 0) + Attempts(fates[1..][..k - 1])
  {
    assert fates[..k] == [fates[0]] + fates[1..][..k - 1];
    AttemptsSplit([fates[0]], fates[1..][..k - 1]);
    assert [fates[0]][..0] == [];
  }

  /** The k-th frame carries timestamp t0 + 960 k, and the j-th attempt sequence number s0 + j, both wrapped. */
  lemma {:induction false} StampsOfCall(t0: nat, s0: nat, fates: seq<Fate>, k: nat)
    requires k < |fates|
    ensures Stamps(t0 % POW32, s0 % POW16, fates)[k] ==
            if fates[k].Unsent? then None
            else Some(Stamp((s0 + Attempts(fates[..k])) % POW16, (t0 + NUM_SAMPLES * k) % POW32))
    decreases k
  {
    if k == 0 {
      assert fates[..k] == [];
    } else {
      var sent := if fates[0].Attempted? then 1 else 0;
      StampsTail(t0, s0, fates, k);
      StampsOfCall(t0 + NUM_SAMPLES, s0 + sent, fates[1..], k - 1);
      FirstAttempt(fates, k);
      assert s0 + sent + Attempts(fates[1..][..k - 1]) == s0 + Attempts(fates[..k]);
      assert t0 + NUM_SAMPLES + NUM_SAMPLES * (k - 1) == t0 + NUM_SAMPLES * k;
    }
  }

  lemma Wrapped16Equal(a: nat, d: nat)
    ensures a % POW16 == (a + d) % POW16 <==> d % POW16 == 0
  {
    assert d == POW16 * ((a + d) / POW16 - a / POW16) + ((a + d) % POW16 - a % POW16);
  }

  lemma Wrapped32Equal(a: nat, d: nat)
    ensures a % POW32 == (a + d) % POW32 <==> d % POW32 == 0
  {
    assert d == POW32 * ((a + d) / POW32 - a / POW32) + ((a + d) % POW32 - a % POW32);
  }

  /** Wrapped sums agree exactly when the increments differ by a multiple of the modulus. */
  lemma WrappedEqual(base: nat, x: nat, y: nat, m: nat)
    requires x <= y && (m == POW16 || m == POW32)
    ensures (base + x) % m == (base + y) % m <==> (y - x) % m == 0
  {
    assert base + y == base + x + (y - x);
    if m == POW16 {
      Wrapped16Equal(base + x, y - x);
    } else {
      Wrapped32Equal(base + x, y - x);
    }
  }

  lemma Scale64(x: nat)
    ensures (64 * x) % POW32 == 0 <==> x % POW26 == 0
  {
    var q, r := x / POW26, x % POW26;
    assert 64 * x == POW32 * q + 64 * r;
  }

  const INVERSE_OF_15: nat := 49213167
  const QUOTIENT: nat := 11

  /** 2^26 is the order of 960 modulo 2^32, because 960 = 15 * 2^6 and 15 is invertible modulo 2^26. */
  lemma OrderOf960(d: nat)
    ensures (NUM_SAMPLES * d) % POW32 == 0 <==> d % POW26 == 0
  {
    Scale64(15 * d);
    assert NUM_SAMPLES * d == 64 * (15 * d);
    if (15 * d) % POW26 == 0 {
      var q := (15 * d) / POW26;
      assert 15 * d == POW26 * q;
      assert d == POW26 * (INVERSE_OF_15 * q - QUOTIENT * d);
    }
    if d % POW26 == 0 {
      var q := d / POW26;
      assert 15 * d == POW26 * (15 * q);
    }
  }

  lemma PadInjective(a: seq<Byte>, b: seq<Byte>)
    requires |a| == |b| <= NONCE_SIZE
    ensures Pad(a) == Pad(b) <==> a == b
  {
    assert Pad(a)[..|a|] == a && Pad(b)[..|b|] == b;
  }

  lemma HeaderNoncesEqual(s: U16, t: U32, s': U16, t': U32, ssrc: U32)
    ensures Pad(RtpHeader(s, t, ssrc)) == Pad(RtpHeader(s', t', ssrc)) <==> s == s' && t == t'
  {
    HeaderFields(s, t, ssrc);
    HeaderFields(s', t', ssrc);
    PadInjective(RtpHeader(s, t, ssrc), RtpHeader(s', t', ssrc));
  }

  /** Frames `d` apart have the same timestamp exactly when 2^26 divides `d`. */
  lemma TimestampsEqual(t0: U32, i: nat, j: nat)
    requires i <= j
    ensures (t0 + NUM_SAMPLES * i) % POW32 == (t0 + NUM_SAMPLES * j) % POW32 <==> (j - i) % POW26 == 0
  {
    WrappedEqual(t0, NUM_SAMPLES * i, NUM_SAMPLES * j, POW32);
    OrderOf960(j - i);
    assert NUM_SAMPLES * j - NUM_SAMPLES * i == NUM_SAMPLES * (j - i);
  }

  /** Exactly when two send attempts of one call are stamped alike. */
  lemma StampsRepeatExactly(t0: U32, s0: U16, fates: seq<Fate>, i: nat, j: nat)
    requires i < j < |fates| && fates[i].Attempted? && fates[j].Attempted?
    ensures var stamps := Stamps(t0, s0, fates);
            && stamps[i].Some? && stamps[j].Some?
            && (stamps[i] == stamps[j] <==> (j - i) % POW26 == 0 && Attempts(fates[i..j]) % POW16 == 0)
  {
    assert t0 % POW32 == t0 && s0 % POW16 == s0;
    StampsOfCall(t0, s0, fates, i);
    StampsOfCall(t0, s0, fates, j);
    TimestampsEqual(t0, i, j);
    var m, n := Attempts(fates[..i]), Attempts(fates[i..j]);
    AttemptsSplit(fates[..i], fates[i..j]);
    assert fates[..i] + fates[i..j] == fates[..j];
    WrappedEqual(s0, m, m + n, POW16);
  }

  lemma StampNoncesEqual(a: Stamp, b: Stamp, ssrc: U32, random: Nonce)
    ensures NormalNonce.NonceFor(a.Header(ssrc), random) == NormalNonce.NonceFor(b.Header(ssrc), random) <==> a == b
  {
    HeaderNoncesEqual(a.sequence, a.timestamp, b.sequence, b.timestamp, ssrc);
  }

  /**
    Exactly when two packets of one call share a Normal-mode nonce: the frames are a multiple of 2^26 apart
    and the attempts a multiple of 2^16.
   */
  lemma NormalNoncesRepeatExactly(t0: U32, s0: U16, ssrc: U32, fates: seq<Fate>, i: nat, j: nat, random: Nonce)
    requires i < j < |fates| && fates[i].Attempted? && fates[j].Attempted?
    ensures var stamps := Stamps(t0, s0, fates);
            && stamps[i].Some? && stamps[j].Some?
            && (NormalNonce.NonceFor(stamps[i].value.Header(ssrc), random) ==
                NormalNonce.NonceFor(stamps[j].value.Header(ssrc), random) <==>
                  (j - i) % POW26 == 0 && Attempts(fates[i..j]) % POW16 == 0)
  {
    StampsRepeatExactly(t0, s0, fates, i, j);
    StampNoncesEqual(Stamps(t0, s0, fates)[i].value, Stamps(t0, s0, fates)[j].value, ssrc, random);
  }

  /** So no two frames less than 2^26 apart, about fifteen days of audio, are sealed with the same nonce. */
  lemma NormalNoncesDistinct(t0: U32, s0: U16, ssrc: U32, fates: seq<Fate>, i: nat, j: nat, random: Nonce)
    requires i < j < |fates| && j - i < POW26 && fates[i].Attempted? && fates[j].Attempted?
    ensures var stamps := Stamps(t0, s0, fates);
            && stamps[i].Some? && stamps[j].Some?
            && NormalNonce.NonceFor(stamps[i].value.Header(ssrc), random) !=
               NormalNonce.NonceFor(stamps[j].value.Header(ssrc), random)
  {
    NormalNoncesRepeatExactly(t0, s0, ssrc, fates, i, j, random);
  }

  // Lite mode

  /** The nonce state after `k` packets. */
  function After(mode: NonceMode, k: nat): NonceMode {
    if k == 0 then mode else After(mode, k - 1).Next()
  }

  lemma {:induction false} LiteCounter(c0: U32, k: nat)
    ensures After(LiteNonce(c0), k) == LiteNonce((c0 + k) % POW32)
  {
    if k > 0 {
      LiteCounter(c0, k - 1);
      Wrap32Twice(c0 + k - 1, 1);
    }
  }

  /** The i-th and j-th packet of one encryption in Lite mode share a nonce exactly 2^32, 2 * 2^32, ... packets apart. */
  lemma LiteNoncesRepeatExactly(c0: U32, i: nat, j: nat, header: seq<Byte>, header': seq<Byte>, random: Nonce)
    requires i <= j && |header| <= NONCE_SIZE && |header'| <= NONCE_SIZE
    ensures After(LiteNonce(c0), i).NonceFor(header, random) == After(LiteNonce(c0), j).NonceFor(header', random) <==>
            (j - i) % POW32 == 0
  {
    LiteCounter(c0, i);
    LiteCounter(c0, j);
    var a, b := (c0 + i) % POW32, (c0 + j) % POW32;
    PadInjective(BigEndian32(a), BigEndian32(b));
    BigEndian32RoundTrip(a);
    BigEndian32RoundTrip(b);
    WrappedEqual(c0, i, j, POW32);
  }
}
