/** Dial strings: a guild's and a channel's id in decimal with a slash between them. */
module DialString {
  import opened Prelude

  /** Ids are nonzero; constructing one from 0 panics. */
  datatype Destination = Destination(guild: U64, channel: U64) | Rejected | Panics

  // Numbers

  predicate IsDigit(c: char) {
    '0' <= c <= '9'
  }

  function DigitValue(c: char): nat
    requires IsDigit(c)
  {
    c as int - '0' as int
  }

  function Digit(d: nat): (c: char)
    requires d < 10
    ensures IsDigit(c) && DigitValue(c) == d
  {
    '0' + d as char
  }

  predicate AllDigits(s: string) {
    forall i :: 0 <= i < |s| ==> IsDigit(s[i])
  }

  function Value(digits: string): nat
    requires AllDigits(digits)
  {
    if digits == "" then 0 else 10 * Value(digits[..|digits| - 1]) + DigitValue(digits[|digits| - 1])
  }

  /** What Rust's `parse` strips from an unsigned number. */
  function Unsigned(s: string): string {
    if s != "" && s[0] == '+' then s[1..] else s
  }

  /** The 64-bit number that a string denotes, if it denotes one. */
  function Number(s: string): Option<U64> {
    var digits := Unsigned(s);
    if digits != "" && AllDigits(digits) && Value(digits) < POW64 then Some(Value(digits)) else None
  }

  lemma {:induction false} PrefixIsNotLarger(digits: string, n: nat)
    requires AllDigits(digits) && n <= |digits|
    ensures Value(digits[..n]) <= Value(digits)
    decreases |digits|
  {
    if n == |digits| {
      assert digits[..n] == digits;
    } else {
      var rest := digits[..|digits| - 1];
      assert rest[..n] == digits[..n];
      PrefixIsNotLarger(rest, n);
    }
  }

  /** Digit by digit, with checked multiplication and addition. */
  method ParseU64(s: string) returns (number: Option<U64>)
    ensures number == Number(s)
  {
    if s == "" || s == "+" || s == "-" {
      return None;
    }
    var digits := if s[0] == '+' then s[1..] else s;
    var value: U64 := 0;
    for i := 0 to |digits|
      invariant AllDigits(digits[..i]) && Value(digits[..i]) == value
    {
      if !IsDigit(digits[i]) {
        return None;
      }
      assert digits[..i + 1][..i] == digits[..i];
      if AllDigits(digits) {
        PrefixIsNotLarger(digits, i + 1);
      }
      var shifted := 10 * value as int;
      if shifted >= POW64 {
        return None;
      }
      var sum := shifted + DigitValue(digits[i]);
      if sum >= POW64 {
        return None;
      }
      value := sum;
    }
    assert digits[..|digits|] == digits;
    return Some(value);
  }

  function Decimal(n: nat): string {
    if n < 10 then [Digit(n)] else Decimal(n / 10) + [Digit(n % 10)]
  }

  function Padding(k: nat): (zeros: string)
    ensures |zeros| == k && AllDigits(zeros)
  {
    seq(k, _ => '0')
  }

  /** An optional plus, any number of zeros and the number's decimal form. */
  predicate Denotes(s: string, n: nat, plus: bool, zeros: nat) {
    s == (if plus then "+" else "") + Padding(zeros) + Decimal(n)
  }

  lemma {:induction false} DecimalDigits(n: nat)
    ensures AllDigits(Decimal(n)) && Decimal(n) != ""
  {
    if n >= 10 {
      DecimalDigits(n / 10);
    }
  }

  lemma ValueSnoc(digits: string, c: char)
    requires AllDigits(digits) && IsDigit(c)
    ensures AllDigits(digits + [c]) && Value(digits + [c]) == 10 * Value(digits) + DigitValue(c)
  {
    assert (digits + [c])[..|digits|] == digits;
  }

  lemma {:induction false} PaddingIsZero(k: nat)
    ensures Value(Padding(k)) == 0
  {
    if k > 0 {
      assert Padding(k)[..k - 1] == Padding(k - 1);
      PaddingIsZero(k - 1);
    }
  }

  lemma {:induction false} PaddedValue(zeros: nat, n: nat)
    ensures AllDigits(Padding(zeros) + Decimal(n)) && Value(Padding(zeros) + Decimal(n)) == n
  {
    DecimalDigits(n);
    PaddingIsZero(zeros);
    if n < 10 {
      ValueSnoc(Padding(zeros), Digit(n));
    } else {
      PaddedValue(zeros, n / 10);
      assert Padding(zeros) + Decimal(n) == Padding(zeros) + Decimal(n / 10) + [Digit(n % 10)];
      ValueSnoc(Padding(zeros) + Decimal(n / 10), Digit(n % 10));
    }
  }

  lemma {:induction false} ZeroDigits(digits: string)
    requires AllDigits(digits) && Value(digits) == 0
    ensures digits == Padding(|digits|)
  {
    if digits != "" {
      var n := |digits| - 1;
      ZeroDigits(digits[..n]);
      assert digits == digits[..n] + [digits[n]];
      assert DigitValue(digits[n]) == 0;
    }
  }

  lemma PaddedSnoc(a: string, b: string, c: char)
    ensures a + b + [c] == a + (b + [c])
  {
  }

  /** Digits of positive value begin with the zeros that the decimal form leaves out. */
  lemma {:induction false} PositiveDigits(digits: string) returns (zeros: nat)
    requires AllDigits(digits) && Value(digits) > 0
    ensures digits == Padding(zeros) + Decimal(Value(digits))
  {
    var n := |digits| - 1;
    assert digits == digits[..n] + [digits[n]];
    assert digits[n] == Digit(Value(digits) % 10);
    if Value(digits[..n]) == 0 {
      ZeroDigits(digits[..n]);
      zeros := n;
    } else {
      zeros := PositiveDigits(digits[..n]);
      assert Value(digits) / 10 == Value(digits[..n]);
      PaddedSnoc(Padding(zeros), Decimal(Value(digits[..n])), digits[n]);
    }
  }

  /** Digits of value 0 are all zeros, others begin with the zeros that the decimal form leaves out. */
  lemma DigitsArePadded(digits: string) returns (zeros: nat)
    requires AllDigits(digits)
    ensures Value(digits) == 0 ==> zeros == |digits| && digits == Padding(zeros)
    ensures Value(digits) > 0 ==> digits == Padding(zeros) + Decimal(Value(digits))
  {
    if Value(digits) == 0 {
      ZeroDigits(digits);
      zeros := |digits|;
    } else {
      zeros := PositiveDigits(digits);
    }
  }

  lemma DenotedThenNumber(s: string, n: nat, plus: bool, zeros: nat)
    requires n < POW64 && Denotes(s, n, plus, zeros)
    ensures Number(s) == Some(n)
  {
    var digits := Padding(zeros) + Decimal(n);
    PaddedValue(zeros, n);
    DecimalDigits(n);
    assert IsDigit(digits[0]);
    assert s == (if plus then "+" else "") + digits;
    assert Unsigned(s) == digits;
  }

  /** A positive number is denoted by exactly these strings. */
  lemma NumberExactly(s: string, n: nat)
    requires 0 < n < POW64
    ensures Number(s) == Some(n) <==> exists plus, zeros :: Denotes(s, n, plus, zeros)
  {
    if Number(s) == Some(n) {
      var zeros := DigitsArePadded(Unsigned(s));
      var plus := s[0] == '+';
      assert plus ==> s == "+" + s[1..];
      assert Denotes(s, n, plus, zeros);
    }
    if plus, zeros :| Denotes(s, n, plus, zeros) {
      DenotedThenNumber(s, n, plus, zeros);
    }
  }

  lemma DenotesNoSlash(s: string, n: nat, plus: bool, zeros: nat)
    requires Denotes(s, n, plus, zeros)
    ensures '/' !in s
  {
    DecimalDigits(n);
  }

  lemma Denoted(s: string, n: nat, plus: bool, zeros: nat)
    requires 0 < n < POW64 && Denotes(s, n, plus, zeros)
    ensures Number(s) == Some(n) && '/' !in s
  {
    NumberExactly(s, n);
    DenotesNoSlash(s, n, plus, zeros);
  }

  // Parts

  function Split(s: string): (parts: seq<string>)
    ensures |parts| > 0
  {
    if s == "" then [""]
    else
      var rest := Split(s[1..]);
      if s[0] == '/' then [""] + rest else [[s[0]] + rest[0]] + rest[1..]
  }

  function Join(parts: seq<string>): string
    requires |parts| > 0
  {
    if |parts| == 1 then parts[0] else parts[0] + "/" + Join(parts[1..])
  }

  predicate NoSlashes(parts: seq<string>) {
    forall i :: 0 <= i < |parts| ==> '/' !in parts[i]
  }

  lemma {:induction false} SplitThenJoin(s: string)
    ensures Join(Split(s)) == s && NoSlashes(Split(s))
  {
    if s != "" {
      var rest := Split(s[1..]);
      SplitThenJoin(s[1..]);
      assert s == [s[0]] + s[1..];
      if s[0] == '/' {
        assert ([""] + rest)[1..] == rest;
      } else {
        var parts := [[s[0]] + rest[0]] + rest[1..];
        assert parts[1..] == rest[1..];
        if |rest| > 1 {
          assert Join(parts) == [s[0]] + (rest[0] + "/" + Join(rest[1..]));
        }
      }
    }
  }

  lemma {:induction false} JoinThenSplit(parts: seq<string>)
    requires |parts| > 0 && NoSlashes(parts)
    ensures Split(Join(parts)) == parts
    decreases |parts|, if |parts| > 0 then |parts[0]| else 0
  {
    var first := parts[0];
    if first != "" {
      var shorter := [first[1..]] + parts[1..];
      forall i | 0 <= i < |shorter|
        ensures '/' !in shorter[i]
      {
        assert '/' !in parts[i];
      }
      JoinThenSplit(shorter);
      assert shorter[1..] == parts[1..];
      assert Join(parts)[0] == first[0] && Join(parts)[1..] == Join(shorter);
      assert first == [first[0]] + first[1..];
      assert parts == [first] + parts[1..];
    } else if |parts| > 1 {
      forall i | 0 <= i < |parts[1..]|
        ensures '/' !in parts[1..][i]
      {
        assert '/' !in parts[i + 1];
      }
      JoinThenSplit(parts[1..]);
      assert Join(parts)[1..] == Join(parts[1..]);
      assert parts == [""] + parts[1..];
    } else {
      assert parts == [""];
    }
  }

  lemma SplitPair(a: string, b: string)
    requires '/' !in a && '/' !in b
    ensures Split(a + "/" + b) == [a, b]
  {
    assert [a, b][1..] == [b];
    JoinThenSplit([a, b]);
  }

  // Destinations

  function ParseDestinationAddr(s: string): Destination {
    var parts := Split(s);
    var guild := Number(parts[0]);
    if guild == None then Rejected
    else if guild.value == 0 then Panics
    else if |parts| == 1 then Rejected
    else
      var channel := Number(parts[1]);
      if channel == None then Rejected
      else if channel.value == 0 then Panics
      else if |parts| > 2 then Rejected
      else Destination(guild.value, channel.value)
  }

  /** Two spelled-out numbers with a slash between them. */
  predicate Spells(s: string, a: string, b: string, guild: nat, channel: nat,
                   plus: bool, zeros: nat, plus': bool, zeros': nat)
  {
    s == a + "/" + b && Denotes(a, guild, plus, zeros) && Denotes(b, channel, plus', zeros')
  }

  ghost predicate Spelled(s: string, guild: nat, channel: nat) {
    exists a, b, plus, zeros, plus', zeros' :: Spells(s, a, b, guild, channel, plus, zeros, plus', zeros')
  }

  lemma RecognisedThenSpelled(s: string, guild: nat, channel: nat)
    requires 0 < guild < POW64 && 0 < channel < POW64
    requires ParseDestinationAddr(s) == Destination(guild, channel)
    ensures Spelled(s, guild, channel)
  {
    var parts := Split(s);
    SplitThenJoin(s);
    NumberExactly(parts[0], guild);
    NumberExactly(parts[1], channel);
    var plus, zeros :| Denotes(parts[0], guild, plus, zeros);
    var plus', zeros' :| Denotes(parts[1], channel, plus', zeros');
    assert Spells(s, parts[0], parts[1], guild, channel, plus, zeros, plus', zeros');
  }

  lemma SpelledThenRecognised(s: string, guild: nat, channel: nat)
    requires 0 < guild < POW64 && 0 < channel < POW64
    requires Spelled(s, guild, channel)
    ensures ParseDestinationAddr(s) == Destination(guild, channel)
  {
    var a, b, plus, zeros, plus', zeros' :| Spells(s, a, b, guild, channel, plus, zeros, plus', zeros');
    Denoted(a, guild, plus, zeros);
    Denoted(b, channel, plus', zeros');
    SplitPair(a, b);
  }

  /** A pair of ids is recognised in exactly the strings that spell it, and in no others. */
  lemma RecognisedExactly(s: string, guild: nat, channel: nat)
    requires 0 < guild < POW64 && 0 < channel < POW64
    ensures ParseDestinationAddr(s) == Destination(guild, channel) <==> Spelled(s, guild, channel)
  {
    if ParseDestinationAddr(s) == Destination(guild, channel) {
      RecognisedThenSpelled(s, guild, channel);
    }
    if Spelled(s, guild, channel) {
      SpelledThenRecognised(s, guild, channel);
    }
  }

  lemma DialStringRoundTrip(guild: nat, channel: nat)
    requires 0 < guild < POW64 && 0 < channel < POW64
    ensures ParseDestinationAddr(Decimal(guild) + "/" + Decimal(channel)) == Destination(guild, channel)
  {
    var a, b := Decimal(guild), Decimal(channel);
    assert Padding(0) == "";
    assert Spells(a + "/" + b, a, b, guild, channel, false, 0, false, 0);
    RecognisedExactly(a + "/" + b, guild, channel);
  }

  /** Zero is an optional plus and at least one zero. */
  predicate DenotesZero(s: string, plus: bool, zeros: nat) {
    zeros > 0 && s == (if plus then "+" else "") + Padding(zeros)
  }

  lemma ZeroExactly(s: string)
    ensures Number(s) == Some(0) <==> exists plus, zeros :: DenotesZero(s, plus, zeros)
  {
    if Number(s) == Some(0) {
      var zeros := DigitsArePadded(Unsigned(s));
      assert s[0] == '+' ==> s == "+" + s[1..];
      assert DenotesZero(s, s[0] == '+', zeros);
    }
    if plus, zeros :| DenotesZero(s, plus, zeros) {
      PaddingIsZero(zeros);
      assert Padding(zeros)[0] == '0';
      assert Unsigned(s) == Padding(zeros);
    }
  }

  /** The first part is a zero, whatever follows it. */
  ghost predicate ZeroGuild(s: string, zero: string, rest: seq<string>) {
    && NoSlashes([zero] + rest) && s == Join([zero] + rest)
    && exists plus, zeros :: DenotesZero(zero, plus, zeros)
  }

  /** The first part is a proper id, the second a zero, whatever follows it. */
  ghost predicate ZeroChannel(s: string, guild: string, zero: string, rest: seq<string>) {
    && NoSlashes([guild, zero] + rest) && s == Join([guild, zero] + rest)
    && (exists n, plus, zeros :: 0 < n < POW64 && Denotes(guild, n, plus, zeros))
    && exists plus, zeros :: DenotesZero(zero, plus, zeros)
  }

  lemma ZeroGuildPanics(s: string, zero: string, rest: seq<string>)
    requires ZeroGuild(s, zero, rest)
    ensures ParseDestinationAddr(s) == Panics
  {
    ZeroExactly(zero);
    JoinThenSplit([zero] + rest);
  }

  lemma ZeroChannelPanics(s: string, guild: string, zero: string, rest: seq<string>)
    requires ZeroChannel(s, guild, zero, rest)
    ensures ParseDestinationAddr(s) == Panics
  {
    var n, plus, zeros :| 0 < n < POW64 && Denotes(guild, n, plus, zeros);
    NumberExactly(guild, n);
    ZeroExactly(zero);
    JoinThenSplit([guild, zero] + rest);
  }

  lemma ZeroGuildFound(s: string, parts: seq<string>)
    requires parts == Split(s) && Number(parts[0]) == Some(0)
    ensures ZeroGuild(s, parts[0], parts[1..])
  {
    ZeroExactly(parts[0]);
    assert parts == [parts[0]] + parts[1..];
    SplitThenJoin(s);
  }

  lemma ZeroChannelFound(s: string, parts: seq<string>, n: nat)
    requires parts == Split(s) && |parts| > 1 && Number(parts[0]) == Some(n) && n > 0 && Number(parts[1]) == Some(0)
    ensures ZeroChannel(s, parts[0], parts[1], parts[2..])
  {
    NumberExactly(parts[0], n);
    ZeroExactly(parts[1]);
    assert parts == [parts[0], parts[1]] + parts[2..];
    SplitThenJoin(s);
  }

  /** Ids cannot be 0, and asking for one is no error but a panic, even where a later part would be rejected. */
  lemma PanicsExactly(s: string)
    ensures ParseDestinationAddr(s) == Panics <==>
            || (exists zero, rest :: ZeroGuild(s, zero, rest))
            || (exists guild, zero, rest :: ZeroChannel(s, guild, zero, rest))
  {
    if zero, rest :| ZeroGuild(s, zero, rest) {
      ZeroGuildPanics(s, zero, rest);
    }
    if guild, zero, rest :| ZeroChannel(s, guild, zero, rest) {
      ZeroChannelPanics(s, guild, zero, rest);
    }
    if ParseDestinationAddr(s) == Panics {
      var parts := Split(s);
      if Number(parts[0]) == Some(0) {
        ZeroGuildFound(s, parts);
      } else {
        ZeroChannelFound(s, parts, Number(parts[0]).value);
      }
    }
  }

  lemma JoinedTwo(a: string, b: string)
    ensures [a] + [b] == [a, b] && Join([a, b]) == a + "/" + b
  {
    assert [a, b][1..] == [b];
  }

  /** It does happen, with a guild of 0. */
  lemma ZeroGuildHappens()
    ensures ParseDestinationAddr("0/1") == Panics
  {
    assert Padding(1) == "0" && DenotesZero("0", false, 1);
    JoinedTwo("0", "1");
    ZeroGuildPanics("0/1", "0", ["1"]);
  }

  /** And with a channel of 0, here before a part that would be rejected. */
  lemma ZeroChannelHappens()
    ensures ParseDestinationAddr("1/0/x") == Panics
  {
    assert Padding(1) == "0" && DenotesZero("0", false, 1);
    assert Padding(0) == "" && Denotes("1", 1, false, 0);
    JoinedTwo("0", "x");
    assert ["1", "0"] + ["x"] == ["1", "0", "x"] && ["1", "0", "x"][1..] == ["0", "x"];
    ZeroChannelPanics("1/0/x", "1", "0", ["x"]);
  }
}
