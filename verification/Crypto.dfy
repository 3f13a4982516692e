/**
  Sealing and opening voice packets in place. The cipher is any pair of functions
  that obeys one law: opening what was sealed with the same nonce gives it back.
 */
module Crypto {
  import opened Prelude
  import opened EncryptionModes

  const NONCE_SIZE: nat := 24
  const TAG_SIZE: nat := 16
  const RTP_HEADER_LEN: nat := 12

  type Nonce = s: seq<Byte> | |s| == NONCE_SIZE witness Zeros(NONCE_SIZE)
  type Tag = s: seq<Byte> | |s| == TAG_SIZE witness Zeros(TAG_SIZE)

  datatype Sealed = Sealed(text: seq<Byte>, tag: Tag)

  datatype CipherFunctions = CipherFunctions(
    seal: (Nonce, seq<Byte>) -> Option<Sealed>,
    open: (Nonce, Sealed) -> Option<seq<Byte>>)

  ghost predicate Lawful(c: CipherFunctions) {
    && (forall n, m :: c.seal(n, m).Some? ==>
          |c.seal(n, m).value.text| == |m| && c.open(n, c.seal(n, m).value) == Some(m))
    && (forall n, s :: c.open(n, s).Some? ==> |c.open(n, s).value| == |s.text|)
  }

  const IDENTITY := CipherFunctions((n: Nonce, m: seq<Byte>) => Some(Sealed(m, Zeros(TAG_SIZE))), (n: Nonce, s: Sealed) => Some(s.text))

  /** XSalsa20-Poly1305 under some key. */
  type Cipher = c: CipherFunctions | Lawful(c) ghost witness IDENTITY

  function Pad(bytes: seq<Byte>): Nonce
    requires |bytes| <= NONCE_SIZE
  {
    bytes + Zeros(NONCE_SIZE - |bytes|)
  }

  datatype NonceMode = NormalNonce | SuffixNonce | LiteNonce(counter: U32) {

    function Mode(): EncryptionMode {
      match this
      case NormalNonce => Normal
      case SuffixNonce => Suffix
      case LiteNonce(_) => Lite
    }

    /** The counter wraps. */
    function Next(): NonceMode {
      match this
      case LiteNonce(counter) => LiteNonce((counter + 1) % POW32)
      case _ => this
    }

    /** The nonce for the next packet; `random` is what the generator would hand out. */
    function NonceFor(header: seq<Byte>, random: Nonce): Nonce
      requires |header| <= NONCE_SIZE
    {
      match this
      case NormalNonce => Pad(header)
      case SuffixNonce => random
      case LiteNonce(counter) => Pad(BigEndian32(counter))
    }
  }

  /** The packet on the wire: header, tag, ciphertext and the nonce bytes the mode appends. */
  function Wire(cipher: Cipher, mode: NonceMode, random: Nonce, header: seq<Byte>, payload: seq<Byte>)
    : Option<seq<Byte>>
    requires |header| <= NONCE_SIZE
  {
    var nonce := mode.NonceFor(header, random);
    match cipher.seal(nonce, payload)
    case None => None
    case Some(sealed) => Some(header + sealed.tag + sealed.text + nonce[..mode.Mode().SuffixLen()])
  }

  /** Plaintext at this range, an error, or a panic on a slice that is too long. */
  datatype Outcome = Plain(start: nat, end: nat) | Rejected | Panics

  /** `copy_from_slice` */
  method CopyInto(target: array<Byte>, at: nat, source: seq<Byte>)
    requires at + |source| <= target.Length
    modifies target
    ensures target[..] == old(target[..at]) + source + old(target[at + |source|..])
  {
    forall i | 0 <= i < |source| {
      target[at + i] := source[i];
    }
  }

  /** Writing ciphertext, suffix and tag into a buffer one after the other lays the packet out. */
  lemma Assembled(b0: seq<Byte>, tag: Tag, text: seq<Byte>, suffix: seq<Byte>)
    requires |b0| >= RTP_HEADER_LEN + TAG_SIZE + |text| + |suffix|
    ensures var start := RTP_HEADER_LEN + TAG_SIZE;
            var b1 := b0[..start] + text + b0[start + |text|..];
            var b2 := b1[..start + |text|] + suffix + b1[start + |text| + |suffix|..];
            b2[..RTP_HEADER_LEN] + tag + b2[start..] ==
            b0[..RTP_HEADER_LEN] + tag + text + suffix + b0[start + |text| + |suffix|..]
  {
  }

  class VoiceEncryption {
    const cipher: Cipher
    var mode: NonceMode

    constructor (mode: EncryptionMode, cipher: Cipher, initialCounter: U32)
      ensures this.cipher == cipher && this.mode.Mode() == mode
      ensures this.mode.LiteNonce? ==> this.mode.counter == initialCounter
    {
      this.cipher := cipher;
      this.mode := match mode
        case Normal => NormalNonce
        case Suffix => SuffixNonce
        case Lite => LiteNonce(initialCounter);
    }

    /** Seals the payload that starts after the room left for the tag; returns the packet's length. */
    method EncryptPacket(packet: array<Byte>, payloadLen: nat, random: Nonce) returns (size: Option<nat>)
      requires packet.Length >= RTP_HEADER_LEN + TAG_SIZE + payloadLen + mode.Mode().SuffixLen()
      modifies this`mode, packet
      ensures mode == old(mode).Next()
      ensures packet[..RTP_HEADER_LEN] == old(packet[..RTP_HEADER_LEN])
      ensures var start := RTP_HEADER_LEN + TAG_SIZE;
              var wire := Wire(cipher, old(mode), random, old(packet[..RTP_HEADER_LEN]), old(packet[start..start + payloadLen]));
              match wire
              case None => size == None
              case Some(bytes) =>
                && size == Some(|bytes|) && |bytes| == start + payloadLen + mode.Mode().SuffixLen()
                && packet[..] == bytes + old(packet[|bytes|..])
    {
      var start := RTP_HEADER_LEN + TAG_SIZE;
      var header, payload := packet[..RTP_HEADER_LEN], packet[start..start + payloadLen];
      var nonce := mode.NonceFor(header, random);
      var suffix := nonce[..mode.Mode().SuffixLen()];
      mode := mode.Next();
      var sealed := cipher.seal(nonce, payload);
      if sealed == None {
        CopyInto(packet, start + payloadLen, suffix);
        return None;
      }
      ghost var b0 := packet[..];
      CopyInto(packet, start, sealed.value.text);
      ghost var b1 := packet[..];
      assert b1 == b0[..start] + sealed.value.text + b0[start + payloadLen..];
      CopyInto(packet, start + payloadLen, suffix);
      ghost var b2 := packet[..];
      assert b2 == b1[..start + payloadLen] + suffix + b1[start + payloadLen + |suffix|..];
      CopyInto(packet, RTP_HEADER_LEN, sealed.value.tag);
      assert packet[..] == b2[..RTP_HEADER_LEN] + sealed.value.tag + b2[start..];
      Assembled(b0, sealed.value.tag, sealed.value.text, suffix);
      assert packet[..][..RTP_HEADER_LEN] == header;
      return Some(start + payloadLen + |suffix|);
    }
  }

  /** Opening a received packet whose header takes `headerLen` bytes: the outcome and the buffer afterwards. */
  function Open(cipher: Cipher, mode: EncryptionMode, headerLen: nat, packet: seq<Byte>): (Outcome, seq<Byte>)
    requires headerLen <= |packet|
  {
    var end := |packet| - mode.SuffixLen();
    if mode != Normal && end < headerLen then (Rejected, packet)
    else if mode == Normal && headerLen > NONCE_SIZE then (Panics, packet)
    else if end < headerLen + TAG_SIZE then (Rejected, packet)
    else
      var nonce := Pad(if mode == Normal then packet[..headerLen] else packet[end..]);
      var start := headerLen + TAG_SIZE;
      match cipher.open(nonce, Sealed(packet[start..end], packet[headerLen..start]))
      case None => (Rejected, packet)
      case Some(text) => (Plain(start, end), packet[..start] + text + packet[end..])
  }

  class VoiceDecryption {
    const cipher: Cipher
    const mode: EncryptionMode

    constructor (mode: EncryptionMode, cipher: Cipher)
      ensures this.mode == mode && this.cipher == cipher
    {
      this.mode := mode;
      this.cipher := cipher;
    }

    /** Where the nonce and the rest of the body lie, or None if the body is too short. */
    method ExtractNonce(headerLen: nat, length: nat) returns (parts: Option<((nat, nat), nat)>)
      requires headerLen <= length
      ensures parts == None <==> mode != Normal && length - headerLen < mode.SuffixLen()
      ensures parts.Some? ==>
                && parts.value.1 == length - mode.SuffixLen()
                && parts.value.0 == if mode == Normal then (0, headerLen) else (parts.value.1, length)
    {
      match mode {
        case Normal =>
          return Some(((0, headerLen), length));
        case _ =>
          var suffix := mode.SuffixLen();
          if length - headerLen < suffix {
            return None;
          }
          return Some(((length - suffix, length), length - suffix));
      }
    }

    /** Opens a packet in place. */
    method DecryptPacket(packet: array<Byte>, headerLen: nat) returns (outcome: Outcome)
      requires headerLen <= packet.Length
      modifies packet
      ensures (outcome, packet[..]) == Open(cipher, mode, headerLen, old(packet[..]))
    {
      var parts := ExtractNonce(headerLen, packet.Length);
      if parts == None {
        return Rejected;
      }
      var ((nonceStart, nonceEnd), end) := parts.value;
      var nonceBytes := packet[nonceStart..nonceEnd];
      if |nonceBytes| > NONCE_SIZE {
        return Panics;
      }
      if end < headerLen + TAG_SIZE {
        return Rejected;
      }
      var start := headerLen + TAG_SIZE;
      var sealed := Sealed(packet[start..end], packet[headerLen..start]);
      assert nonceBytes == if mode == Normal then packet[..][..headerLen] else packet[..][end..];
      var text := cipher.open(Pad(nonceBytes), sealed);
      if text == None {
        return Rejected;
      }
      CopyInto(packet, start, text.value);
      return Plain(start, end);
    }
  }

  // The bytes of every nonce

  /** The header's bytes and then zeros; 24 random bytes; or the counter, its most significant byte first, and then zeros. */
  predicate SealsUnder(mode: NonceMode, header: seq<Byte>, random: Nonce, nonce: Nonce) {
    match mode
    case NormalNonce => forall i :: 0 <= i < 24 ==> nonce[i] == if i < |header| then header[i] else 0
    case SuffixNonce => nonce == random
    case LiteNonce(counter) =>
      && 0x100_0000 * nonce[0] as int + 0x1_0000 * nonce[1] as int + 0x100 * nonce[2] as int + nonce[3] as int == counter
      && forall i :: 4 <= i < 24 ==> nonce[i] == 0
  }

  lemma CounterBytes(counter: U32, bytes: seq<Byte>)
    requires |bytes| == 4
    ensures bytes == BigEndian32(counter) <==>
            0x100_0000 * bytes[0] as int + 0x1_0000 * bytes[1] as int + 0x100 * bytes[2] as int + bytes[3] as int == counter
  {
    BigEndian32RoundTrip(counter);
    var b := BigEndian32(counter);
    assert b[..2] == [b[0], b[1]] && b[2..] == [b[2], b[3]];
    if 0x100_0000 * bytes[0] as int + 0x1_0000 * bytes[1] as int + 0x100 * bytes[2] as int + bytes[3] as int == counter {
      assert bytes[0] == b[0];
      assert bytes[1] == b[1];
      assert bytes[2] == b[2];
      assert bytes == b;
    }
  }

  lemma PaddedBytes(bytes: seq<Byte>, nonce: Nonce)
    requires |bytes| <= 24
    ensures nonce == Pad(bytes) <==> nonce[..|bytes|] == bytes && forall i :: |bytes| <= i < 24 ==> nonce[i] == 0
  {
    if nonce[..|bytes|] == bytes && forall i :: |bytes| <= i < 24 ==> nonce[i] == 0 {
      assert nonce == nonce[..|bytes|] + nonce[|bytes|..];
      assert nonce[|bytes|..] == Zeros(24 - |bytes|);
    }
  }

  /** The nonce a packet is sealed with, byte by byte. */
  lemma NonceBytes(mode: NonceMode, header: seq<Byte>, random: Nonce, nonce: Nonce)
    requires |header| <= 24
    ensures nonce == mode.NonceFor(header, random) <==> SealsUnder(mode, header, random, nonce)
  {
    match mode {
      case NormalNonce =>
        PaddedBytes(header, nonce);
      case LiteNonce(counter) =>
        CounterBytes(counter, nonce[..4]);
        PaddedBytes(BigEndian32(counter), nonce);
      case _ =>
    }
  }

  /** How many bytes of the nonce go after the ciphertext: none, all 24, or the counter's four. */
  function Appended(mode: EncryptionMode): nat {
    match mode
    case Normal => 0
    case Suffix => 24
    case Lite => 4
  }

  /** Where everything is in a packet on the wire, and under which nonce its payload was sealed. */
  lemma SealedAs(cipher: Cipher, mode: NonceMode, random: Nonce, header: seq<Byte>, payload: seq<Byte>, nonce: Nonce)
    requires |header| <= 24 && SealsUnder(mode, header, random, nonce)
    ensures Wire(cipher, mode, random, header, payload).Some? <==> cipher.seal(nonce, payload).Some?
    ensures Wire(cipher, mode, random, header, payload).Some? ==>
              var wire, sealed := Wire(cipher, mode, random, header, payload).value, cipher.seal(nonce, payload).value;
              var text := |header| + 16;
              var suffix := text + |payload|;
              && |wire| == suffix + Appended(mode.Mode())
              && wire[..|header|] == header && wire[|header|..text] == sealed.tag && wire[text..suffix] == sealed.text
              && forall i :: 0 <= i < Appended(mode.Mode()) ==> wire[suffix + i] == nonce[i]
  {
    NonceBytes(mode, header, random, nonce);
  }

  /** The header's bytes and then zeros; or the packet's last bytes, filled up with zeros. */
  predicate OpensUnder(mode: EncryptionMode, headerLen: nat, packet: seq<Byte>, nonce: Nonce)
    requires headerLen <= |packet| && Appended(mode) <= |packet|
  {
    forall i :: 0 <= i < 24 ==>
      nonce[i] as int == match mode
                         case Normal => if i < headerLen then packet[i] as int else 0
                         case Suffix => packet[|packet| - 24 + i] as int
                         case Lite => if i < 4 then packet[|packet| - 4 + i] as int else 0
  }

  /** Which bytes of a received packet the cipher is asked to open, under which nonce, and where the answer goes. */
  lemma OpenedAs(cipher: Cipher, mode: EncryptionMode, headerLen: nat, packet: seq<Byte>, nonce: Nonce)
    requires headerLen + 16 + Appended(mode) <= |packet| && (mode == Normal ==> headerLen <= 24)
    requires OpensUnder(mode, headerLen, packet, nonce)
    ensures var text, end := headerLen + 16, |packet| - Appended(mode);
            Open(cipher, mode, headerLen, packet) ==
            match cipher.open(nonce, Sealed(packet[text..end], packet[headerLen..text]))
            case None => (Rejected, packet)
            case Some(message) => (Plain(text, end), packet[..text] + message + packet[end..])
  {
    var bytes := if mode == Normal then packet[..headerLen] else packet[|packet| - Appended(mode)..];
    PaddedBytes(bytes, nonce);
    assert nonce[..|bytes|] == bytes;
  }
}
