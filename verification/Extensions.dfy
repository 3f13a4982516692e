/** Discord's header extensions at the front of a decrypted payload: marker, word count, words. */
module Extensions {
  import opened Prelude
  import opened Crypto
  import opened DataChannel

  /** The closed form: where the media starts, if the declared words fit. */
  function Skipped(payload: seq<Byte>): Option<nat> {
    if payload == [] then None
    else if payload[0] != 0xBE then Some(0)
    else if |payload| == 1 then None
    else if payload[1] != 0xDE then Some(0)
    else if |payload| < 4 then None
    else
      var skip := 4 + 4 * FromBigEndian16(payload[2..4]);
      if skip <= |payload| then Some(skip) else None
  }

  /** The cursor walks over the payload byte by byte. */
  method SkipOverExtensions(packet: seq<Byte>, start: nat, end: nat) returns (range: Option<(nat, nat)>)
    requires start <= end <= |packet|
    ensures range == match Skipped(packet[start..end])
                     case None => None
                     case Some(skip) => Some((start + skip, end))
  {
    var cursor := start;
    if cursor == end {
      return None;
    }
    cursor := cursor + 1;
    if packet[cursor - 1] != 0xBE {
      return Some((start, end));
    }
    if cursor == end {
      return None;
    }
    cursor := cursor + 1;
    if packet[cursor - 1] != 0xDE {
      return Some((start, end));
    }
    if end - cursor < 2 {
      return None;
    }
    cursor := cursor + 2;
    var entries := 256 * (packet[cursor - 2] as int) + packet[cursor - 1] as int;
    for i := 0 to 4 * entries
      invariant cursor == start + 4 + i <= end
    {
      if cursor == end {
        return None;
      }
      cursor := cursor + 1;
    }
    return Some((cursor, end));
  }

  /** A payload with an extension of `|words| / 4` words. */
  function WithExtension(words: seq<Byte>, opus: seq<Byte>): seq<Byte>
    requires |words| % 4 == 0 && |words| / 4 < POW16
  {
    [0xBE, 0xDE, |words| / 4 / 256, |words| / 4 % 256] + words + opus
  }

  lemma ExtensionSkipped(words: seq<Byte>, opus: seq<Byte>)
    requires |words| % 4 == 0 && |words| / 4 < POW16
    ensures Skipped(WithExtension(words, opus)) == Some(4 + |words|)
    ensures WithExtension(words, opus)[4 + |words|..] == opus
  {
    assert WithExtension(words, opus)[2..4] == BigEndian16(|words| / 4);
    BigEndian16RoundTrip(|words| / 4);
  }

  /** A payload that does not begin with the marker, and has not ended before that is known. */
  predicate NoExtension(payload: seq<Byte>) {
    payload != [] && payload != [0xBE] && !(|payload| >= 2 && payload[..2] == [0xBE, 0xDE])
  }

  ghost predicate IsExtended(payload: seq<Byte>, words: seq<Byte>, opus: seq<Byte>) {
    |words| % 4 == 0 && |words| / 4 < POW16 && payload == WithExtension(words, opus)
  }

  lemma MarkedIsExtended(payload: seq<Byte>)
    requires |payload| >= 2 && payload[..2] == [0xBE, 0xDE] && Skipped(payload).Some?
    ensures var skip := Skipped(payload).value;
            4 <= skip <= |payload| && IsExtended(payload, payload[4..skip], payload[skip..])
  {
    assert payload[0] == payload[..2][0] && payload[1] == payload[..2][1];
    var skip := Skipped(payload).value;
    assert payload[2] as int == (skip - 4) / 4 / 256 && payload[3] as int == (skip - 4) / 4 % 256;
    assert payload == payload[..4] + payload[4..skip] + payload[skip..];
  }

  /** What is skipped is nothing, without an extension, or exactly the extension in front. */
  lemma SkippedExactly(payload: seq<Byte>, skip: nat)
    ensures Skipped(payload) == Some(skip) <==>
            || (NoExtension(payload) && skip == 0)
            || exists words, opus :: IsExtended(payload, words, opus) && skip == 4 + |words|
  {
    if |payload| >= 2 && payload[..2] == [0xBE, 0xDE] && Skipped(payload).Some? {
      MarkedIsExtended(payload);
    }
    forall words, opus | IsExtended(payload, words, opus)
      ensures Skipped(payload) == Some(4 + |words|) && !NoExtension(payload)
    {
      ExtensionSkipped(words, opus);
    }
    assert |payload| >= 2 ==> payload[..2] == [payload[0], payload[1]];
  }

  /** A payload is refused exactly when it is empty or begins an extension that it does not hold in full. */
  lemma RefusedExactly(payload: seq<Byte>)
    ensures Skipped(payload) == None <==>
            || payload == []
            || payload == [0xBE]
            || (|payload| >= 2 && payload[..2] == [0xBE, 0xDE] &&
                  forall words, opus :: !IsExtended(payload, words, opus))
  {
    if Skipped(payload).Some? {
      SkippedExactly(payload, Skipped(payload).value);
    } else {
      forall words, opus
        ensures !IsExtended(payload, words, opus)
      {
        if IsExtended(payload, words, opus) {
          SkippedExactly(payload, 4 + |words|);
        }
      }
      if NoExtension(payload) {
        SkippedExactly(payload, 0);
      }
    }
  }

  /** Sealed with an extension in front, sent and received: skipping leaves exactly the Opus bytes. */
  lemma OpusRecovered(cipher: Cipher, mode: NonceMode, random: Nonce,
                      sequence: U16, timestamp: U32, ssrc: U32, words: seq<Byte>, opus: seq<Byte>)
    requires |words| % 4 == 0 && |words| / 4 < POW16
    requires Wire(cipher, mode, random, RtpHeader(sequence, timestamp, ssrc), WithExtension(words, opus)).Some?
    ensures var wire := Wire(cipher, mode, random, RtpHeader(sequence, timestamp, ssrc), WithExtension(words, opus)).value;
            && |wire| >= RTP_HEADER_LEN
            && var received := ReceivedFrom(cipher, mode.Mode(), wire, AsRtp);
            && received.Rtp? && received.start <= received.end <= |received.buffer|
            && var skip := Skipped(received.buffer[received.start..received.end]);
               skip == Some(4 + |words|) && received.buffer[received.start + skip.value..received.end] == opus
  {
    SentIsReceived(cipher, mode, random, sequence, timestamp, ssrc, WithExtension(words, opus));
    ExtensionSkipped(words, opus);
    var wire := Wire(cipher, mode, random, RtpHeader(sequence, timestamp, ssrc), WithExtension(words, opus)).value;
    var received := ReceivedFrom(cipher, mode.Mode(), wire, AsRtp);
    var payload := received.buffer[received.start..received.end];
    assert payload[4 + |words|..] == received.buffer[received.start + 4 + |words|..received.end];
  }

  /**
    Sealed without an extension, sent and received: exactly the Opus bytes are handed on if and only if they do not look
    like the beginning of one.
   */
  lemma PlainOpusRecoveredExactly(cipher: Cipher, mode: NonceMode, random: Nonce,
                                  sequence: U16, timestamp: U32, ssrc: U32, opus: seq<Byte>)
    requires Wire(cipher, mode, random, RtpHeader(sequence, timestamp, ssrc), opus).Some?
    ensures var wire := Wire(cipher, mode, random, RtpHeader(sequence, timestamp, ssrc), opus).value;
            && |wire| >= RTP_HEADER_LEN
            && var received := ReceivedFrom(cipher, mode.Mode(), wire, AsRtp);
            && received.Rtp? && received.start <= received.end <= |received.buffer|
            && received.buffer[received.start..received.end] == opus
            && (Skipped(opus) == Some(0) <==> NoExtension(opus))
            && (NoExtension(opus) <==> Skipped(opus).Some? && opus[Skipped(opus).value..] == opus)
  {
    SentIsReceived(cipher, mode, random, sequence, timestamp, ssrc, opus);
    SkippedExactly(opus, 0);
    if Skipped(opus).Some? && opus[Skipped(opus).value..] == opus {
      assert Skipped(opus).value == 0;
    }
  }
}
