/** Sample arithmetic of the receiver: stereo to mono in place, saturating mixing, RTP time in milliseconds. */
module Samples {
  import opened Prelude

  const SAMPLE_RATE: nat := 48000

  type Sample = x: int | -32768 <= x <= 32767

  // Stereo to mono

  /** The average of two samples, rounded up. */
  function AverageCeil(left: Sample, right: Sample): (mono: Sample)
    ensures 2 * mono == left + right || 2 * mono == left + right + 1
    ensures (left <= mono <= right) || (right <= mono <= left)
  {
    (left + right + 1) / 2
  }

  /** Interleaved left and right samples averaged pair by pair. */
  function Mono(stereo: seq<Sample>, count: nat): (mono: seq<Sample>)
    requires 2 * count <= |stereo|
    ensures |mono| == count
    ensures forall i :: 0 <= i < count ==> mono[i] == AverageCeil(stereo[2 * i], stereo[2 * i + 1])
  {
    seq(count, i requires 0 <= i < count => AverageCeil(stereo[2 * i], stereo[2 * i + 1]))
  }

  /** Overwrites the front of the buffer while reading ahead of what has been overwritten. */
  method Monoize(voice: array<Sample>, count: nat)
    requires 2 * count <= voice.Length
    modifies voice
    ensures voice[..count] == Mono(old(voice[..]), count)
    ensures voice[count..] == old(voice[count..])
  {
    for i := 0 to count
      invariant voice[..i] == Mono(old(voice[..]), count)[..i]
      invariant voice[i..] == old(voice[i..])
    {
      assert voice[2 * i] == voice[i..][i] == old(voice[2 * i]);
      assert voice[2 * i + 1] == voice[i..][i + 1] == old(voice[2 * i + 1]);
      ghost var rest := voice[i..];
      voice[i] := AverageCeil(voice[2 * i], voice[2 * i + 1]);
      assert voice[i + 1..] == rest[1..];
      assert voice[..i + 1] == voice[..i] + [voice[i]];
    }
  }

  // Mixing

  function Clamp(x: int): Sample {
    if x < -32768 then -32768 else if x > 32767 then 32767 else x
  }

  /** `saturating_add`, sample after sample, in the order the frames are visited. */
  function Fold(samples: seq<Sample>): Sample {
    if samples == [] then 0 else Clamp(Fold(samples[..|samples| - 1]) as int + samples[|samples| - 1] as int)
  }

  function Sum(samples: seq<int>): int {
    if samples == [] then 0 else Sum(samples[..|samples| - 1]) + samples[|samples| - 1]
  }

  function Positive(x: Sample): nat {
    if x > 0 then x else 0
  }

  function Negative(x: Sample): nat {
    if x < 0 then -(x as int) else 0
  }

  /** Total of the positive samples. */
  function Up(samples: seq<Sample>): nat {
    if samples == [] then 0 else Up(samples[..|samples| - 1]) + Positive(samples[|samples| - 1])
  }

  /** Magnitude of the total of the negative samples. */
  function Down(samples: seq<Sample>): nat {
    if samples == [] then 0 else Down(samples[..|samples| - 1]) + Negative(samples[|samples| - 1])
  }

  lemma {:induction false} SumIsUpMinusDown(samples: seq<Sample>)
    ensures Sum(samples) == Up(samples) - Down(samples)
  {
    if samples != [] {
      SumIsUpMinusDown(samples[..|samples| - 1]);
    }
  }

  /** Neither total alone leaves the range of a sample. */
  predicate NoSaturation(samples: seq<Sample>) {
    Up(samples) <= 32767 && Down(samples) <= 32768
  }

  predicate OneSigned(samples: seq<Sample>) {
    Up(samples) == 0 || Down(samples) == 0
  }

  /** Mixing gives the exact sum when no running total can saturate, and the clamped sum when all signs agree. */
  lemma {:induction false} MixedExactly(samples: seq<Sample>)
    ensures NoSaturation(samples) ==> Fold(samples) == Sum(samples)
    ensures OneSigned(samples) ==> Fold(samples) == Clamp(Sum(samples))
  {
    if samples != [] {
      MixedExactly(samples[..|samples| - 1]);
      SumIsUpMinusDown(samples[..|samples| - 1]);
      SumIsUpMinusDown(samples);
    }
  }

  // Visiting order

  lemma {:induction false} SplitTotals(a: seq<Sample>, b: seq<Sample>)
    ensures Up(a + b) == Up(a) + Up(b) && Down(a + b) == Down(a) + Down(b)
    decreases |b|
  {
    if b == [] {
      assert a + b == a;
    } else {
      SplitTotals(a, b[..|b| - 1]);
      assert (a + b)[..|a + b| - 1] == a + b[..|b| - 1];
    }
  }

  /** Taking one sample out of the middle. */
  lemma WithoutOne(samples: seq<Sample>, i: nat)
    requires i < |samples|
    ensures var rest := samples[..i] + samples[i + 1..];
            && multiset(samples) == multiset(rest) + multiset{samples[i]}
            && Up(samples) == Up(rest) + Positive(samples[i])
            && Down(samples) == Down(rest) + Negative(samples[i])
  {
    var before, one, after := samples[..i], [samples[i]], samples[i + 1..];
    assert samples == before + one + after;
    SplitTotals(before + one, after);
    SplitTotals(before, one);
    SplitTotals(before, after);
    assert one[..0] == [];
  }

  /** The totals do not depend on the order of the samples. */
  lemma {:induction false} TotalsPermute(a: seq<Sample>, b: seq<Sample>)
    requires multiset(a) == multiset(b)
    ensures Up(a) == Up(b) && Down(a) == Down(b)
    decreases |a|
  {
    if a == [] {
      assert multiset(a) == multiset{} && |multiset(b)| == |b|;
    } else {
      var n := |a| - 1;
      assert a[n] in multiset(b);
      var i :| 0 <= i < |b| && b[i] == a[n];
      WithoutOne(b, i);
      assert a == a[..n] + [a[n]];
      assert multiset(a[..n]) == multiset(a) - multiset{a[n]};
      TotalsPermute(a[..n], b[..i] + b[i + 1..]);
    }
  }

  function Keep(samples: seq<Sample>, positive: bool): seq<Sample> {
    if samples == [] then []
    else
      var rest, x := Keep(samples[..|samples| - 1], positive), samples[|samples| - 1];
      if (x > 0) == positive then rest + [x] else rest
  }

  /** The two parts make up the samples. */
  lemma {:induction false} KeepParts(samples: seq<Sample>)
    ensures multiset(Keep(samples, true)) + multiset(Keep(samples, false)) == multiset(samples)
  {
    if samples != [] {
      var n := |samples| - 1;
      KeepParts(samples[..n]);
      assert samples == samples[..n] + [samples[n]];
    }
  }

  /** Each part has the whole total of its sign and none of the other. */
  lemma {:induction false} KeepTotals(samples: seq<Sample>, positive: bool)
    ensures Up(Keep(samples, positive)) == if positive then Up(samples) else 0
    ensures Down(Keep(samples, positive)) == if positive then 0 else Down(samples)
  {
    if samples != [] {
      var n := |samples| - 1;
      KeepTotals(samples[..n], positive);
      var rest := Keep(samples[..n], positive);
      assert (rest + [samples[n]])[..|rest|] == rest;
    }
  }

  /** Visiting one sign after the other: the running total saturates twice at most. */
  lemma {:induction false} FoldOneSigned(a: seq<Sample>, b: seq<Sample>)
    requires OneSigned(b)
    ensures Down(b) == 0 ==> Fold(a + b) == Clamp(Fold(a) as int + Up(b))
    ensures Up(b) == 0 ==> Fold(a + b) == Clamp(Fold(a) as int - Down(b))
    decreases |b|
  {
    if b == [] {
      assert a + b == a;
    } else {
      FoldOneSigned(a, b[..|b| - 1]);
      assert (a + b)[..|a + b| - 1] == a + b[..|b| - 1];
    }
  }

  /** One sign first, then the other, both ways round: only the two totals matter. */
  lemma OneSignAfterTheOther(up: seq<Sample>, down: seq<Sample>)
    requires Down(up) == 0 && Up(down) == 0
    ensures Fold(up + down) == Clamp(Clamp(Up(up)) as int - Down(down))
    ensures Fold(down + up) == Clamp(Clamp(0 - Down(down)) as int + Up(up))
  {
    MixedExactly(up);
    MixedExactly(down);
    SumIsUpMinusDown(up);
    SumIsUpMinusDown(down);
    FoldOneSigned(up, down);
    FoldOneSigned(down, up);
  }

  lemma SameInEveryOrder(samples: seq<Sample>, other: seq<Sample>)
    requires OneSigned(samples) || NoSaturation(samples)
    requires multiset(other) == multiset(samples)
    ensures Fold(other) == Fold(samples)
  {
    TotalsPermute(other, samples);
    MixedExactly(other);
    MixedExactly(samples);
    SumIsUpMinusDown(other);
    SumIsUpMinusDown(samples);
  }

  lemma ClampsDiffer(up: nat, down: nat)
    requires up > 0 && down > 0 && (up > 32767 || down > 32768)
    ensures Clamp(Clamp(up) as int - down) != Clamp(Clamp(0 - down) as int + up)
  {
  }

  lemma OrderMatters(samples: seq<Sample>)
    requires !OneSigned(samples) && !NoSaturation(samples)
    ensures var up, down := Keep(samples, true), Keep(samples, false); Fold(up + down) != Fold(down + up)
  {
    var up, down := Keep(samples, true), Keep(samples, false);
    KeepTotals(samples, true);
    KeepTotals(samples, false);
    OneSignAfterTheOther(up, down);
    ClampsDiffer(Up(up), Down(down));
  }

  /**
    Exactly when the mix of these samples is the same for every visiting order: when all of them have one
    sign, or when neither the positive nor the negative ones alone would saturate.
   */
  lemma OrderIrrelevantExactly(samples: seq<Sample>)
    ensures OneSigned(samples) || NoSaturation(samples) <==>
            forall other: seq<Sample> :: multiset(other) == multiset(samples) ==> Fold(other) == Fold(samples)
  {
    if OneSigned(samples) || NoSaturation(samples) {
      forall other: seq<Sample> | multiset(other) == multiset(samples)
        ensures Fold(other) == Fold(samples)
      {
        SameInEveryOrder(samples, other);
      }
    } else {
      var up, down := Keep(samples, true), Keep(samples, false);
      KeepParts(samples);
      OrderMatters(samples);
      assert multiset(up + down) == multiset(samples) && multiset(down + up) == multiset(samples);
    }
  }

  function Distance(x: int, y: int): nat {
    if x < y then y - x else x - y
  }

  /** Changing one input sample by d changes the mix by at most d. */
  lemma {:induction false} MixIsLipschitz(samples: seq<Sample>, i: nat, x: Sample)
    requires i < |samples|
    ensures Distance(Fold(samples), Fold(samples[i := x])) <= Distance(samples[i], x)
  {
    var n := |samples| - 1;
    if i < n {
      MixIsLipschitz(samples[..n], i, x);
      assert samples[i := x][..n] == samples[..n][i := x];
    } else {
      assert samples[i := x][..n] == samples[..n];
    }
  }

  /** The samples at one index, in visiting order. */
  function Column(frames: seq<seq<Sample>>, i: nat): seq<Sample>
    requires forall f :: f in frames ==> i < |f|
  {
    seq(|frames|, k requires 0 <= k < |frames| => frames[k][i])
  }

  predicate EqualLengths(frames: seq<seq<Sample>>) {
    forall f, g :: f in frames && g in frames ==> |f| == |g|
  }

  method MinLength(frames: seq<seq<Sample>>) returns (len: nat)
    requires frames != []
    ensures forall f :: f in frames ==> len <= |f|
    ensures exists f :: f in frames && |f| == len
  {
    len := |frames[0]|;
    for k := 0 to |frames|
      invariant forall j :: 0 <= j < k ==> len <= |frames[j]|
      invariant exists f :: f in frames && |f| == len
    {
      if |frames[k]| < len {
        len := |frames[k]|;
      }
    }
  }

  /** Adding one frame more in, at one index. */
  lemma ColumnFolds(frames: seq<seq<Sample>>, i: nat, k: nat)
    requires (forall f :: f in frames ==> i < |f|) && k < |frames|
    ensures Fold(Column(frames, i)[..k + 1]) == Clamp(Fold(Column(frames, i)[..k]) as int + frames[k][i] as int)
  {
    assert Column(frames, i)[..k + 1][..k] == Column(frames, i)[..k];
  }

  lemma ColumnWhole(frames: seq<seq<Sample>>, i: nat)
    requires forall f :: f in frames ==> i < |f|
    ensures Column(frames, i)[..|frames|] == Column(frames, i)
  {
  }

  /** Adds one frame in; None if it is longer than the room there is. */
  method AddFrame(out: array<Sample>, frame: seq<Sample>) returns (fits: bool)
    modifies out
    ensures fits <==> |frame| <= out.Length
    ensures fits ==> forall i :: 0 <= i < out.Length ==>
              out[i] == if i < |frame| then Clamp(old(out[i]) as int + frame[i] as int) else old(out[i])
  {
    for i := 0 to |frame|
      invariant i <= out.Length
      invariant forall j :: 0 <= j < i ==> out[j] == Clamp(old(out[j]) as int + frame[j] as int)
      invariant forall j :: i <= j < out.Length ==> out[j] == old(out[j])
    {
      if i >= out.Length {
        return false;
      }
      out[i] := Clamp(out[i] as int + frame[i] as int);
    }
    return true;
  }

  /**
    Room for the shortest frame, every sample of every frame added in. Indexing past that room is a panic
    (None): it happens exactly when the frames do not all have one length.
   */
  method Mix(frames: seq<seq<Sample>>) returns (mixed: Option<seq<Sample>>)
    requires frames != []
    ensures mixed.Some? <==> EqualLengths(frames)
    ensures mixed.Some? ==>
              && |mixed.value| == |frames[0]|
              && forall i :: 0 <= i < |mixed.value| ==> mixed.value[i] == Fold(Column(frames, i))
  {
    var len := MinLength(frames);
    var out := new Sample[len](_ => 0);
    for k := 0 to |frames|
      invariant forall j :: 0 <= j < k ==> |frames[j]| == len
      invariant forall i :: 0 <= i < len ==> out[i] == Fold(Column(frames, i)[..k])
    {
      var fits := AddFrame(out, frames[k]);
      if !fits {
        return None;
      }
      assert |frames[k]| == len;
      forall i | 0 <= i < len
        ensures out[i] == Fold(Column(frames, i)[..k + 1])
      {
        ColumnFolds(frames, i, k);
      }
    }
    forall i | 0 <= i < len
      ensures out[i] == Fold(Column(frames, i))
    {
      ColumnWhole(frames, i);
    }
    return Some(out[..]);
  }

  // RTP time (section 5.1 of RFC 3550) to milliseconds

  /** The time handed to the jitter buffer: wrapping distance from the first packet, in milliseconds. */
  function JitterTimestamp(first: U32, timestamp: U32): nat {
    1000 * ((timestamp - first) % POW32) / SAMPLE_RATE
  }

  /** The length of so many samples in whole milliseconds. */
  function DurationMs(samples: nat): nat {
    1000 * samples / SAMPLE_RATE
  }

  lemma ThousandOver48000(x: nat)
    ensures 1000 * x / SAMPLE_RATE == x / 48
  {
    var q, r := x / 48, x % 48;
    assert 1000 * x == SAMPLE_RATE * q + 1000 * r;
  }

  /** Where a packet with this true sample offset from the first one wraps to. */
  function At(first: U32, offset: int): U32 {
    (first + offset) % POW32
  }

  lemma WrappedOffset(first: U32, offset: int)
    ensures (At(first, offset) - first) % POW32 == offset % POW32
  {
  }

  /** The timestamp is right, whatever wrapped around in between, exactly for offsets within one cycle. */
  lemma TimestampExact(first: U32, offset: int)
    ensures JitterTimestamp(first, At(first, offset)) == offset / 48 <==> 0 <= offset < POW32
  {
    WrappedOffset(first, offset);
    ThousandOver48000(offset % POW32);
    var w := offset % POW32;
    if offset < 0 {
      assert w >= offset + POW32;
    } else if offset >= POW32 {
      assert w <= offset - POW32;
    }
  }

  /** It is monotone, leaves no gap or overlap of more than a millisecond between adjacent frames, and fits an i64. */
  lemma TimestampsContiguous(first: U32, offset: nat, samples: nat)
    requires offset + samples < POW32
    ensures var t, t', d := JitterTimestamp(first, At(first, offset)), JitterTimestamp(first, At(first, offset + samples)), DurationMs(samples);
            && t <= t' < 0x8000_0000_0000_0000
            && t + d <= t' <= t + d + 1
            && (samples % 48 == 0 ==> t' == t + d)
  {
    TimestampExact(first, offset);
    TimestampExact(first, offset + samples);
    ThousandOver48000(samples);
  }

  /** The frame of so many samples at this offset ends at the time at which the next one begins. */
  predicate Contiguous(first: U32, offset: nat, samples: nat) {
    JitterTimestamp(first, At(first, offset + samples)) == JitterTimestamp(first, At(first, offset)) + DurationMs(samples)
  }

  /** Frames of one length are contiguous at every offset exactly if 48 divides the length. */
  lemma ContiguousExactly(first: U32, samples: nat)
    requires samples + 47 < POW32
    ensures samples % 48 == 0 <==> forall offset: nat :: offset + samples < POW32 ==> Contiguous(first, offset, samples)
  {
    if samples % 48 == 0 {
      forall offset: nat | offset + samples < POW32
        ensures Contiguous(first, offset, samples)
      {
        TimestampsContiguous(first, offset, samples);
      }
    } else {
      TimestampExact(first, 47);
      TimestampExact(first, 47 + samples);
      ThousandOver48000(samples);
      assert !Contiguous(first, 47, samples);
    }
  }
}
