/**
  The UDP side of a call: voice packets are built and sealed in one reused send
  buffer, received packets are opened in place and RTCP packets cut down to
  header and plaintext. The RTP header is that of section 5.1 of RFC 3550.
 */
module DataChannel {
  import opened Prelude
  import opened EncryptionModes
  import opened Crypto

  const VOICE_PACKET_MAX: nat := 1460
  const MAX_RTP_PACKET_SIZE: nat := 1450
  const MAX_OPUS_PAYLOAD_SIZE: nat := MAX_RTP_PACKET_SIZE - RTP_HEADER_LEN - TAG_SIZE - NONCE_SIZE
  const RTP_PROFILE_TYPE: Byte := 0x78

  /** Version 2, no padding, no extension, no CSRC; the dynamic payload type. */
  function RtpHeader(sequence: U16, timestamp: U32, ssrc: U32): (h: seq<Byte>)
    ensures |h| == RTP_HEADER_LEN
  {
    [0x80, RTP_PROFILE_TYPE] + BigEndian16(sequence) + BigEndian32(timestamp) + BigEndian32(ssrc)
  }

  function CsrcCount(packet: seq<Byte>): nat
    requires packet != []
  {
    packet[0] % 16
  }

  /** Where the packet view says the payload starts. */
  function RtpHeaderLen(packet: seq<Byte>): nat
    requires packet != []
  {
    var len := RTP_HEADER_LEN + 4 * CsrcCount(packet);
    if len <= |packet| then len else |packet|
  }

  /** How the demultiplexer classifies a datagram; for RTCP the length of the header is its to say. */
  datatype Demuxed = AsRtp | AsRtcp(headerLen: nat) | FailedParse | TooSmall

  predicate PlausibleFor(kind: Demuxed, packet: seq<Byte>) {
    && (kind.AsRtp? ==> |packet| >= RTP_HEADER_LEN)
    && (kind.AsRtcp? ==> kind.headerLen <= |packet|)
  }

  datatype Received =
    | Rtp(sequence: U16, timestamp: U32, ssrc: U32, buffer: seq<Byte>, start: nat, end: nat)
    | Rtcp(decrypted: seq<Byte>)
    | ReceiveError
    | ReceivePanics

  function Truncated(datagram: seq<Byte>): seq<Byte> {
    if |datagram| <= VOICE_PACKET_MAX then datagram else datagram[..VOICE_PACKET_MAX]
  }

  function ReceiveRtp(result: (Outcome, seq<Byte>)): Received
    requires |result.1| >= RTP_HEADER_LEN
  {
    match result.0
    case Rejected => ReceiveError
    case Panics => ReceivePanics
    case Plain(start, end) =>
      Rtp(FromBigEndian16(result.1[2..4]), FromBigEndian32(result.1[4..8]), FromBigEndian32(result.1[8..12]),
          result.1, start, end)
  }

  /** The suffix and the tag are drained away. */
  function ReceiveRtcp(headerLen: nat, result: (Outcome, seq<Byte>)): Received
    requires result.0.Plain? ==> headerLen <= result.0.start <= result.0.end <= |result.1|
  {
    match result.0
    case Rejected => ReceiveError
    case Panics => ReceivePanics
    case Plain(start, end) => Rtcp(result.1[..headerLen] + result.1[start..end])
  }

  function ReceivedFrom(cipher: Cipher, mode: EncryptionMode, packet: seq<Byte>, kind: Demuxed): Received
    requires PlausibleFor(kind, packet)
  {
    match kind
    case AsRtp => ReceiveRtp(Open(cipher, mode, RtpHeaderLen(packet), packet))
    case AsRtcp(headerLen) => ReceiveRtcp(headerLen, Open(cipher, mode, headerLen, packet))
    case _ => ReceiveError
  }

  /** A packet whose header does not fit the nonce it is padded to. */
  predicate LongHeader(packet: seq<Byte>, kind: Demuxed) {
    match kind
    case AsRtp => |packet| > NONCE_SIZE && CsrcCount(packet) > 3
    case AsRtcp(headerLen) => headerLen > NONCE_SIZE
    case _ => false
  }

  class VoiceDataChannel {
    const ssrc: U32
    var sequenceNo: U16
    var crypto: Option<(VoiceEncryption, VoiceDecryption)>
    const sendBuf: array<Byte>
    /** Datagrams handed to the socket. */
    var sent: seq<seq<Byte>>

    /** In particular the CSRC count of the reused header stays 0. */
    ghost predicate Valid()
      reads this, sendBuf
    {
      && sendBuf.Length == VOICE_PACKET_MAX
      && sendBuf[0] % 64 == 0 && sendBuf[1] < 128
      && (crypto.Some? ==> crypto.value.0.cipher == crypto.value.1.cipher)
    }

    constructor (ssrc: U32, firstSequenceNo: U16)
      ensures Valid() && fresh(sendBuf) && crypto == None && sent == []
      ensures this.ssrc == ssrc && sequenceNo == firstSequenceNo
    {
      this.ssrc := ssrc;
      sequenceNo, crypto, sent := firstSequenceNo, None, [];
      sendBuf := new Byte[VOICE_PACKET_MAX](_ => 0);
    }

    method SetKey(mode: EncryptionMode, cipher: Cipher, initialCounter: U32)
      requires Valid()
      modifies this`crypto
      ensures Valid() && crypto.Some? && fresh(crypto.value.0)
      ensures crypto.value.0.cipher == cipher && crypto.value.0.mode.Mode() == mode == crypto.value.1.mode
      ensures crypto.value.0.mode.LiteNonce? ==> crypto.value.0.mode.counter == initialCounter
    {
      var encryption := new VoiceEncryption(mode, cipher, initialCounter);
      var decryption := new VoiceDecryption(mode, cipher);
      crypto := Some((encryption, decryption));
    }

    /** The setters of the packet view: each writes its own bits and keeps its neighbours'. */
    method StampHeader(sequence: U16, timestamp: U32)
      requires Valid()
      modifies sendBuf
      ensures Valid()
      ensures sendBuf[..RTP_HEADER_LEN] == RtpHeader(sequence, timestamp, ssrc)
      ensures sendBuf[RTP_HEADER_LEN..] == old(sendBuf[RTP_HEADER_LEN..])
    {
      sendBuf[0] := 2 * 64 + sendBuf[0] % 64;
      sendBuf[1] := sendBuf[1] / 128 * 128 + RTP_PROFILE_TYPE;
      CopyInto(sendBuf, 2, BigEndian16(sequence) + BigEndian32(timestamp) + BigEndian32(ssrc));
    }

    /** One send attempt; the sequence number moves on whatever happens. */
    method SendVoice(timestamp: U32, voice: seq<Byte>, random: Nonce, delivered: bool) returns (ok: bool)
      requires Valid() && |voice| <= MAX_OPUS_PAYLOAD_SIZE
      modifies this`sequenceNo, this`sent, sendBuf, if crypto.Some? then {crypto.value.0} else {}
      ensures Valid() && sequenceNo == (old(sequenceNo) + 1) % POW16
      ensures crypto == None ==> !ok && sent == old(sent)
      ensures crypto.Some? ==>
                && crypto.value.0.mode == old(crypto.value.0.mode).Next()
                && var wire := Wire(crypto.value.0.cipher, old(crypto.value.0.mode), random,
                                    RtpHeader(old(sequenceNo), timestamp, ssrc), voice);
                   match wire
                   case None => !ok && sent == old(sent)
                   case Some(bytes) => ok == delivered && sent == old(sent) + [bytes]
    {
      var sequence := sequenceNo;
      sequenceNo := (sequenceNo + 1) % POW16;
      if crypto == None {
        return false;
      }
      StampHeader(sequence, timestamp);
      assert RtpHeaderLen(sendBuf[..]) == RTP_HEADER_LEN;
      var payload := RtpHeaderLen(sendBuf[..]) + TAG_SIZE;
      CopyInto(sendBuf, payload, voice);
      assert sendBuf[payload..payload + |voice|] == voice;
      assert sendBuf[..RTP_HEADER_LEN] == RtpHeader(sequence, timestamp, ssrc);
      var size := crypto.value.0.EncryptPacket(sendBuf, |voice|, random);
      assert sendBuf[0] == sendBuf[..RTP_HEADER_LEN][0] && sendBuf[1] == sendBuf[..RTP_HEADER_LEN][1];
      if size == None {
        return false;
      }
      sent := sent + [sendBuf[..size.value]];
      return delivered;
    }

    method ReceivePacket(datagram: seq<Byte>, kind: Demuxed) returns (received: Received)
      requires Valid() && PlausibleFor(kind, Truncated(datagram))
      ensures received == match crypto
                          case None => ReceiveError
                          case Some((_, decrypt)) =>
                            ReceivedFrom(decrypt.cipher, decrypt.mode, Truncated(datagram), kind)
    {
      var bytes := Truncated(datagram);
      var buffer := new Byte[|bytes|](i requires 0 <= i < |bytes| => bytes[i]);
      assert buffer[..] == bytes;
      if crypto == None {
        return ReceiveError;
      }
      var decrypt := crypto.value.1;
      match kind {
        case AsRtp =>
          var outcome := decrypt.DecryptPacket(buffer, RtpHeaderLen(buffer[..]));
          match outcome {
            case Rejected => return ReceiveError;
            case Panics => return ReceivePanics;
            case Plain(start, end) =>
              return Rtp(FromBigEndian16(buffer[2..4]), FromBigEndian32(buffer[4..8]),
                         FromBigEndian32(buffer[8..12]), buffer[..], start, end);
          }
        case AsRtcp(headerLen) =>
          var outcome := decrypt.DecryptPacket(buffer, headerLen);
          match outcome {
            case Rejected => return ReceiveError;
            case Panics => return ReceivePanics;
            case Plain(start, end) =>
              var rest := buffer[..end];
              rest := rest[..headerLen] + rest[start..];
              return Rtcp(rest);
          }
        case _ =>
          return ReceiveError;
      }
    }
  }

  // Round trips

  /** Opening undoes sealing, whatever the header (up to a nonce long), payload, counter or random bytes. */
  lemma OpenUndoesWire(cipher: Cipher, mode: NonceMode, random: Nonce, header: seq<Byte>, payload: seq<Byte>)
    requires |header| <= NONCE_SIZE && Wire(cipher, mode, random, header, payload).Some?
    ensures var wire := Wire(cipher, mode, random, header, payload).value;
            var start, end := |header| + TAG_SIZE, |header| + TAG_SIZE + |payload|;
            && |wire| == end + mode.Mode().SuffixLen()
            && Open(cipher, mode.Mode(), |header|, wire) ==
               (Plain(start, end), header + wire[|header|..start] + payload + wire[end..])
  {
    var nonce := mode.NonceFor(header, random);
    var sealed := cipher.seal(nonce, payload).value;
    var wire := Wire(cipher, mode, random, header, payload).value;
    var start, end := |header| + TAG_SIZE, |header| + TAG_SIZE + |payload|;
    assert wire[..|header|] == header && wire[|header|..start] == sealed.tag && wire[start..end] == sealed.text;
    assert wire[end..] == nonce[..mode.Mode().SuffixLen()];
    assert nonce == Pad(if mode.NormalNonce? then wire[..|header|] else wire[end..]);
    assert wire[..start] == header + wire[|header|..start];
  }

  lemma HeaderFields(sequence: U16, timestamp: U32, ssrc: U32)
    ensures var h := RtpHeader(sequence, timestamp, ssrc);
            && CsrcCount(h) == 0
            && FromBigEndian16(h[2..4]) == sequence
            && FromBigEndian32(h[4..8]) == timestamp
            && FromBigEndian32(h[8..12]) == ssrc
  {
    var h := RtpHeader(sequence, timestamp, ssrc);
    assert h[2..4] == BigEndian16(sequence) && h[4..8] == BigEndian32(timestamp) && h[8..12] == BigEndian32(ssrc);
    BigEndian16RoundTrip(sequence);
    BigEndian32RoundTrip(timestamp);
    BigEndian32RoundTrip(ssrc);
  }

  /**
    The header of section 5.1 of RFC 3550, bit by bit: version 2, no padding, no extension, no contributing sources, no
    marker, payload type 120, and the three numbers with their most significant bytes first.
   */
  lemma HeaderBits(sequence: U16, timestamp: U32, ssrc: U32)
    ensures var h := RtpHeader(sequence, timestamp, ssrc);
            && h[0] as int / 64 == 2 && h[0] as int / 32 % 2 == 0 && h[0] as int / 16 % 2 == 0 && h[0] as int % 16 == 0
            && h[1] as int / 128 == 0 && h[1] as int % 128 == 120
            && 0x100 * h[2] as int + h[3] as int == sequence
            && 0x100_0000 * h[4] as int + 0x1_0000 * h[5] as int + 0x100 * h[6] as int + h[7] as int == timestamp
            && 0x100_0000 * h[8] as int + 0x1_0000 * h[9] as int + 0x100 * h[10] as int + h[11] as int == ssrc
  {
    var h := RtpHeader(sequence, timestamp, ssrc);
    assert h[4..8] == BigEndian32(timestamp) && h[8..12] == BigEndian32(ssrc);
    assert h[4..8] == [h[4], h[5], h[6], h[7]] && h[8..12] == [h[8], h[9], h[10], h[11]];
    CounterBytes(timestamp, h[4..8]);
    CounterBytes(ssrc, h[8..12]);
  }

  /** What one side sends, the other side with the same key receives: the same fields and the same payload. */
  lemma SentIsReceived(cipher: Cipher, mode: NonceMode, random: Nonce,
                       sequence: U16, timestamp: U32, ssrc: U32, voice: seq<Byte>)
    requires Wire(cipher, mode, random, RtpHeader(sequence, timestamp, ssrc), voice).Some?
    ensures var wire := Wire(cipher, mode, random, RtpHeader(sequence, timestamp, ssrc), voice).value;
            var received := ReceivedFrom(cipher, mode.Mode(), wire, AsRtp);
            && |wire| >= RTP_HEADER_LEN
            && received.Rtp?
            && (received.sequence, received.timestamp, received.ssrc) == (sequence, timestamp, ssrc)
            && (received.start, received.end) == (28, 28 + |voice|)
            && received.end <= |received.buffer|
            && received.buffer[28..28 + |voice|] == voice
            && received.buffer[..RTP_HEADER_LEN] == RtpHeader(sequence, timestamp, ssrc)
  {
    var header := RtpHeader(sequence, timestamp, ssrc);
    var wire := Wire(cipher, mode, random, header, voice).value;
    OpenUndoesWire(cipher, mode, random, header, voice);
    HeaderFields(sequence, timestamp, ssrc);
    assert wire[0] == header[0];
    var buffer := Open(cipher, mode.Mode(), RTP_HEADER_LEN, wire).1;
    assert buffer[..RTP_HEADER_LEN] == header;
    assert buffer[2..4] == header[2..4] && buffer[4..8] == header[4..8] && buffer[8..12] == header[8..12];
  }

  /** An RTCP packet comes out as exactly its header followed by its plaintext. */
  lemma RtcpIsHeaderAndPlaintext(cipher: Cipher, mode: NonceMode, random: Nonce, header: seq<Byte>, report: seq<Byte>)
    requires |header| <= NONCE_SIZE && Wire(cipher, mode, random, header, report).Some?
    ensures var wire := Wire(cipher, mode, random, header, report).value;
            && |wire| >= |header|
            && ReceivedFrom(cipher, mode.Mode(), wire, AsRtcp(|header|)) == Rtcp(header + report)
  {
    OpenUndoesWire(cipher, mode, random, header, report);
  }

  /** Receiving panics exactly for a Normal-mode packet whose header does not fit the nonce. */
  lemma ReceivingPanicsExactlyOnLongHeader(cipher: Cipher, mode: EncryptionMode, packet: seq<Byte>, kind: Demuxed)
    requires PlausibleFor(kind, packet)
    ensures ReceivedFrom(cipher, mode, packet, kind) == ReceivePanics <==>
            mode == Normal && LongHeader(packet, kind)
  {
  }

  /** It does happen: a Normal-mode RTP packet that counts fifteen contributing sources. */
  lemma LongHeaderPanics(cipher: Cipher)
    ensures ReceivedFrom(cipher, Normal, [0x8F] + Zeros(71), AsRtp) == ReceivePanics
  {
    ReceivingPanicsExactlyOnLongHeader(cipher, Normal, [0x8F] + Zeros(71), AsRtp);
  }

  /** Every payload the encoder may produce fits, in every mode, and stays within the size meant for RTP packets. */
  lemma PacketSizes(cipher: Cipher, mode: NonceMode, random: Nonce, header: seq<Byte>, voice: seq<Byte>)
    requires |header| == RTP_HEADER_LEN && |voice| <= MAX_OPUS_PAYLOAD_SIZE
    requires Wire(cipher, mode, random, header, voice).Some?
    ensures |Wire(cipher, mode, random, header, voice).value| <= 1450 <= VOICE_PACKET_MAX
    ensures |Wire(cipher, mode, random, header, voice).value| == 1450 <==>
            |voice| == MAX_OPUS_PAYLOAD_SIZE && mode.SuffixNonce?
  {
    OpenUndoesWire(cipher, mode, random, header, voice);
  }

  /** No packet of permitted size is truncated on receipt, and no longer one comes through whole. */
  lemma NothingTruncated(datagram: seq<Byte>)
    ensures |datagram| <= 1450 ==> Truncated(datagram) == datagram
    ensures Truncated(datagram) == datagram <==> |datagram| <= 1460
    ensures Truncated(datagram) <= datagram && |Truncated(datagram)| <= 1460
  {
  }

  lemma OpenKeepsFront(cipher: Cipher, mode: EncryptionMode, headerLen: nat, packet: seq<Byte>)
    requires RTP_HEADER_LEN <= headerLen <= |packet|
    ensures var buffer := Open(cipher, mode, headerLen, packet).1;
            |buffer| >= RTP_HEADER_LEN && buffer[..RTP_HEADER_LEN] == packet[..RTP_HEADER_LEN]
  {
    var buffer := Open(cipher, mode, headerLen, packet).1;
    if buffer != packet {
      assert packet[..headerLen + TAG_SIZE][..RTP_HEADER_LEN] == packet[..RTP_HEADER_LEN];
    }
  }

  lemma NumbersInFront(h: seq<Byte>, buffer: seq<Byte>)
    requires |h| == RTP_HEADER_LEN <= |buffer| && buffer[..RTP_HEADER_LEN] == h
    ensures FromBigEndian16(buffer[2..4]) as int == 0x100 * h[2] as int + h[3] as int
    ensures FromBigEndian32(buffer[4..8]) as int ==
            0x100_0000 * h[4] as int + 0x1_0000 * h[5] as int + 0x100 * h[6] as int + h[7] as int
    ensures FromBigEndian32(buffer[8..12]) as int ==
            0x100_0000 * h[8] as int + 0x1_0000 * h[9] as int + 0x100 * h[10] as int + h[11] as int
  {
    assert buffer[2..4] == h[2..4] == [h[2], h[3]];
    assert buffer[4..8] == h[4..8] == [h[4], h[5], h[6], h[7]];
    assert buffer[8..12] == h[8..12] == [h[8], h[9], h[10], h[11]];
  }

  /**
    What an RTP packet is received as: its fields are read from its header, most significant bytes first, and its payload
    lies between the sources it counts and the tag in front, and the nonce bytes of the mode behind.
   */
  lemma ReceivedFields(cipher: Cipher, mode: EncryptionMode, packet: seq<Byte>)
    requires |packet| >= RTP_HEADER_LEN && ReceivedFrom(cipher, mode, packet, AsRtp).Rtp?
    ensures var received, h := ReceivedFrom(cipher, mode, packet, AsRtp), packet[..RTP_HEADER_LEN];
            && received.sequence == 0x100 * h[2] as int + h[3] as int
            && received.timestamp == 0x100_0000 * h[4] as int + 0x1_0000 * h[5] as int + 0x100 * h[6] as int + h[7] as int
            && received.ssrc == 0x100_0000 * h[8] as int + 0x1_0000 * h[9] as int + 0x100 * h[10] as int + h[11] as int
            && received.start == 12 + 4 * (h[0] as int % 16) + 16 && received.end == |packet| - Appended(mode)
  {
    OpenKeepsFront(cipher, mode, RtpHeaderLen(packet), packet);
    NumbersInFront(packet[..RTP_HEADER_LEN], Open(cipher, mode, RtpHeaderLen(packet), packet).1);
  }
}
