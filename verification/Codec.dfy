/** Big-endian integers: `u64::to_be_bytes` and `u64::from_be_bytes`. */
module BigEndian {
  import opened Base

  function Pow256(k: nat): nat {
    if k == 0 then 1 else 256 * Pow256(k - 1)
  }

  function ToBytes(n: nat, k: nat): (b: seq<byte>)
    ensures |b| == k
  {
    if k == 0 then [] else ToBytes(n / 256, k - 1) + [(n % 256) as byte]
  }

  function FromBytes(b: seq<byte>): nat {
    if b == [] then 0 else 256 * FromBytes(b[..|b| - 1]) + b[|b| - 1] as nat
  }

  lemma {:induction false} FromToBytes(n: nat, k: nat)
    requires n < Pow256(k)
    ensures FromBytes(ToBytes(n, k)) == n
  {
    if k > 0 {
      FromToBytes(n / 256, k - 1);
      assert ToBytes(n, k)[..k - 1] == ToBytes(n / 256, k - 1);
    }
  }

  lemma {:induction false} ToFromBytes(b: seq<byte>)
    ensures FromBytes(b) < Pow256(|b|)
    ensures ToBytes(FromBytes(b), |b|) == b
  {
    if b != [] {
      ToFromBytes(b[..|b| - 1]);
    }
  }

  lemma {:induction false} PowPositive(k: nat)
    ensures Pow256(k) > 0
  {
    if k > 0 { PowPositive(k - 1); }
  }

  lemma {:induction false} Multiples(d: nat, a: nat, b: nat)
    requires a < b
    ensures d * a + d <= d * b
    decreases b
  {
    if a < b - 1 { Multiples(d, a, b - 1); }
  }

  lemma DivUnique(n: nat, d: nat, q: nat, r: nat)
    requires n == d * q + r && r < d
    ensures n / d == q
  {
    var p := n / d;
    assert d * p <= n < d * p + d;
    if p < q { Multiples(d, p, q); }
    if q < p { Multiples(d, q, p); }
  }

  lemma DivTwice(n: nat, p: nat)
    requires p > 0
    ensures n / 256 / p == n / (256 * p)
  {
    var m := n / 256;
    var q, r := m / p, m % p;
    assert n == 256 * (p * q + r) + n % 256;
    assert 256 * (p * q) == (256 * p) * q;
    DivUnique(n, 256 * p, q, 256 * r + n % 256);
  }

  /** Byte `i` is the digit of weight 256^(k-1-i): the most significant byte comes first. */
  lemma {:induction false} BigEndianAt(n: nat, k: nat, i: nat)
    requires i < k
    ensures ToBytes(n, k)[i] as nat == (n / Weight(k, i)) % 256
  {
    if i < k - 1 {
      BigEndianAt(n / 256, k - 1, i);
      PowPositive(k - 2 - i);
      DivTwice(n, Pow256(k - 2 - i));
    }
  }

  function Weight(k: nat, i: nat): (w: nat)
    requires i < k
    ensures w > 0
  {
    PowPositive(k - 1 - i);
    Pow256(k - 1 - i)
  }

  lemma Pow256Of8()
    ensures Pow256(8) == U64_MAX + 1
  {
    assert Pow256(4) == 0x1_0000_0000;
    assert Pow256(8) == 256 * (256 * (256 * (256 * Pow256(4))));
  }
}

/** The wire codec of src/message.rs: nested encoders and decoders. */
module Codec {
  import opened Base
  import opened Messages
  import BigEndian

  const NONCE_LENGTH: nat := 8
  const TRANSPORT_HEADER: nat := NONCE_LENGTH + ID_LENGTH

  /** The foreign byte codecs of Nym recipients and libp2p peer ids. */
  datatype Foreign = Foreign(
    recipientFrom: RecipientBytes -> Option<Recipient>,
    peerTo: PeerId -> seq<byte>,
    peerFrom: seq<byte> -> Option<PeerId>)
  {
    /** The foreign codecs round-trip on the values this message carries. */
    predicate Lawful(c: ConnectionMessage) {
      && peerTo(c.peerId) != []
      && peerFrom(peerTo(c.peerId)) == Some(c.peerId)
      && (c.recipient.Some? ==> recipientFrom(c.recipient.value.bytes) == c.recipient)
    }
  }

  predicate LawfulMessage(f: Foreign, m: Message) {
    match m
    case ConnectionRequest(c) => f.Lawful(c)
    case ConnectionResponse(c) => f.Lawful(c)
    case Transport(_) => true
  }

  // ---------------------------------------------------------------- decoders

  function DecodeSubstream(b: seq<byte>): Result<SubstreamMessage, Error> {
    if |b| < ID_LENGTH + 1 then Err(InvalidSubstreamMessageBytes)
    else
      var id := SubstreamId(b[..ID_LENGTH]);
      match b[ID_LENGTH]
      case 0 => Ok(SubstreamMessage(id, OpenRequest))
      case 1 => Ok(SubstreamMessage(id, OpenResponse))
      case 2 => Ok(SubstreamMessage(id, Close))
      case 3 =>
        if |b| < ID_LENGTH + 2 then Err(InvalidSubstreamMessageBytes)
        else Ok(SubstreamMessage(id, Data(b[ID_LENGTH + 1..])))
      case _ => Err(InvalidSubstreamMessageType)
  }

  function DecodeNonce(b: seq<byte>): u64
    requires |b| == NONCE_LENGTH
  {
    BigEndian.Pow256Of8();
    BigEndian.ToFromBytes(b);
    BigEndian.FromBytes(b)
  }

  function DecodeTransport(b: seq<byte>): Result<TransportMessage, Error> {
    if |b| < TRANSPORT_HEADER + 1 then Err(TransportMessageBytesTooShort)
    else
      var nonce := DecodeNonce(b[..NONCE_LENGTH]);
      var id := ConnectionId(b[NONCE_LENGTH..TRANSPORT_HEADER]);
      match DecodeSubstream(b[TRANSPORT_HEADER..])
      case Ok(m) => Ok(TransportMessage(nonce, m, id))
      case Err(e) => Err(e)
  }

  function DecodePeer(f: Foreign, id: ConnectionId, recipient: Option<Recipient>, b: seq<byte>)
    : Result<ConnectionMessage, Error>
  {
    if b == [] then Err(ConnectionMessageBytesNoPeerId)
    else
      match f.peerFrom(b)
      case Some(p) => Ok(ConnectionMessage(p, id, recipient))
      case None => Err(InvalidPeerIdBytes)
  }

  function DecodeConnection(f: Foreign, b: seq<byte>): Result<ConnectionMessage, Error> {
    if |b| < ID_LENGTH + 1 then Err(ConnectionMessageBytesTooShort)
    else
      var id := ConnectionId(b[..ID_LENGTH]);
      match b[ID_LENGTH]
      case 0 => DecodePeer(f, id, None, b[ID_LENGTH + 1..])
      case 1 =>
        if |b| < ID_LENGTH + 1 + RECIPIENT_LENGTH then Err(ConnectionMessageBytesNoRecipient)
        else (
          match f.recipientFrom(b[ID_LENGTH + 1..ID_LENGTH + 1 + RECIPIENT_LENGTH])
          case None => Err(InvalidRecipientBytes)
          case Some(r) => DecodePeer(f, id, Some(r), b[ID_LENGTH + 1 + RECIPIENT_LENGTH..]))
      case _ => Err(InvalidRecipientPrefixByte)
  }

  /** `parse_message_data` and `Message::try_from_bytes`. */
  function DecodeMessage(f: Foreign, b: seq<byte>): Result<Message, Error> {
    if |b| < 2 then Err(InvalidMessageBytes)
    else
      match b[0]
      case 0 => (match DecodeConnection(f, b[1..]) case Ok(c) => Ok(ConnectionRequest(c)) case Err(e) => Err(e))
      case 1 => (match DecodeConnection(f, b[1..]) case Ok(c) => Ok(ConnectionResponse(c)) case Err(e) => Err(e))
      case 2 => (match DecodeTransport(b[1..]) case Ok(t) => Ok(Transport(t)) case Err(e) => Err(e))
      case _ => Err(InvalidMessageBytes)
  }

  // ---------------------------------------------------------------- encoders

  function TypeByte(t: SubstreamMessageType): byte {
    match t
    case OpenRequest => 0
    case OpenResponse => 1
    case Close => 2
    case Data(_) => 3
  }

  function EncodeSubstream(m: SubstreamMessage): seq<byte> {
    m.substreamId.bytes + [TypeByte(m.messageType)] +
    (if m.messageType.Data? then m.messageType.data else [])
  }

  function EncodeTransport(t: TransportMessage): seq<byte> {
    BigEndian.ToBytes(t.nonce, NONCE_LENGTH) + t.id.bytes + EncodeSubstream(t.message)
  }

  function EncodeConnection(f: Foreign, c: ConnectionMessage): seq<byte> {
    c.id.bytes + (if c.recipient.Some? then [1] + c.recipient.value.bytes else [0]) + f.peerTo(c.peerId)
  }

  function EncodeMessage(f: Foreign, m: Message): seq<byte> {
    match m
    case ConnectionRequest(c) => [0] + EncodeConnection(f, c)
    case ConnectionResponse(c) => [1] + EncodeConnection(f, c)
    case Transport(t) => [2] + EncodeTransport(t)
  }

  // ---------------------------------------------------------------- the wire format

  /** Byte by byte: the nonce with its most significant byte first, both ids, the type
      byte, and the data. */
  lemma TransportLayout(t: TransportMessage)
    ensures var b, data := EncodeTransport(t), if t.message.messageType.Data? then t.message.messageType.data else [];
            && |b| == 73 + |data|
            && (forall i: nat | i < 8 :: b[i] as nat == (t.nonce / BigEndian.Weight(8, i)) % 256)
            && b[8..40] == t.id.bytes && b[40..72] == t.message.substreamId.bytes
            && b[73..] == data
            && (b[72] == 0 <==> t.message.messageType.OpenRequest?)
            && (b[72] == 1 <==> t.message.messageType.OpenResponse?)
            && (b[72] == 2 <==> t.message.messageType.Close?)
            && (b[72] == 3 <==> t.message.messageType.Data?)
  {
    var b := EncodeTransport(t);
    assert b[..8] == BigEndian.ToBytes(t.nonce, 8);
    forall i: nat | i < 8 ensures b[i] as nat == (t.nonce / BigEndian.Weight(8, i)) % 256 {
      BigEndian.BigEndianAt(t.nonce, 8, i);
      assert b[i] == b[..8][i];
    }
    assert b[40..] == EncodeSubstream(t.message);
    assert b[40..72] == b[40..][..32] && b[73..] == b[40..][33..];
  }

  lemma ConnectionLayout(f: Foreign, c: ConnectionMessage)
    ensures var b := EncodeConnection(f, c);
            && |b| == (if c.recipient.Some? then 129 else 33) + |f.peerTo(c.peerId)|
            && b[..32] == c.id.bytes
            && (b[32] == 0 <==> c.recipient.None?) && (b[32] == 1 <==> c.recipient.Some?)
            && (c.recipient.Some? ==> b[33..129] == c.recipient.value.bytes && b[129..] == f.peerTo(c.peerId))
            && (c.recipient.None? ==> b[33..] == f.peerTo(c.peerId))
  {
    var b := EncodeConnection(f, c);
    assert b[..32] == c.id.bytes;
    if c.recipient.Some? {
      assert b[33..129] == c.recipient.value.bytes && b[129..] == f.peerTo(c.peerId);
    } else {
      assert b[33..] == f.peerTo(c.peerId);
    }
  }

  lemma MessageLayout(f: Foreign, m: Message)
    ensures var b := EncodeMessage(f, m);
            && b != []
            && (m.ConnectionRequest? ==> b[0] == 0 && b[1..] == EncodeConnection(f, m.request))
            && (m.ConnectionResponse? ==> b[0] == 1 && b[1..] == EncodeConnection(f, m.response))
            && (m.Transport? ==> b[0] == 2 && b[1..] == EncodeTransport(m.transport))
  {
  }

  /** Which byte strings are transport messages, and why the others are refused. */
  lemma TransportAcceptedIff(b: seq<byte>)
    ensures var r := DecodeTransport(b);
            && (r.Ok? <==> |b| >= 73 && b[72] <= 3 && (b[72] == 3 ==> |b| > 73))
            && (r == Err(TransportMessageBytesTooShort) <==> |b| < 41)
            && (r == Err(InvalidSubstreamMessageBytes) <==> 41 <= |b| < 73 || (|b| == 73 && b[72] == 3))
            && (r == Err(InvalidSubstreamMessageType) <==> |b| >= 73 && b[72] > 3)
  {
  }

  /** Which byte strings are connection messages, given which recipients and peer ids the
      foreign codecs take, and why the others are refused. */
  lemma ConnectionAcceptedIff(f: Foreign, b: seq<byte>)
    ensures var r := DecodeConnection(f, b);
            && (r == Err(ConnectionMessageBytesTooShort) <==> |b| < 33)
            && (|b| >= 33 ==>
                  && (r == Err(InvalidRecipientPrefixByte) <==> b[32] > 1)
                  && (r == Err(ConnectionMessageBytesNoRecipient) <==> b[32] == 1 && |b| < 129)
                  && (r == Err(InvalidRecipientBytes) <==>
                        b[32] == 1 && |b| >= 129 && f.recipientFrom(b[33..129]).None?)
                  && (b[32] == 0 ==> r == PeerResult(f, b, 33, None))
                  && (b[32] == 1 && |b| >= 129 && f.recipientFrom(b[33..129]).Some? ==>
                        r == PeerResult(f, b, 129, f.recipientFrom(b[33..129]))))
  {
  }

  /** What is left from byte `at` on must be a peer id. */
  function PeerResult(f: Foreign, b: seq<byte>, at: nat, recipient: Option<Recipient>)
    : Result<ConnectionMessage, Error>
    requires 33 <= at <= |b|
  {
    if |b| == at then Err(ConnectionMessageBytesNoPeerId)
    else if f.peerFrom(b[at..]).None? then Err(InvalidPeerIdBytes)
    else Ok(ConnectionMessage(f.peerFrom(b[at..]).value, ConnectionId(b[..32]), recipient))
  }

  /** The leading byte decides what the rest is read as. */
  lemma MessageAcceptedIff(f: Foreign, b: seq<byte>)
    ensures var r := DecodeMessage(f, b);
            && (|b| < 2 || b[0] > 2 ==> r == Err(InvalidMessageBytes))
            && (|b| >= 2 && b[0] == 2 ==>
                  && (r.Ok? <==> DecodeTransport(b[1..]).Ok?)
                  && (r.Ok? ==> r.value == Transport(DecodeTransport(b[1..]).value))
                  && (r.Err? ==> r.error == DecodeTransport(b[1..]).error))
            && (|b| >= 2 && b[0] <= 1 ==>
                  && (r.Ok? <==> DecodeConnection(f, b[1..]).Ok?)
                  && (r.Err? ==> r.error == DecodeConnection(f, b[1..]).error)
                  && (r.Ok? ==>
                        r.value == if b[0] == 0 then ConnectionRequest(DecodeConnection(f, b[1..]).value)
                                   else ConnectionResponse(DecodeConnection(f, b[1..]).value)))
  {
  }

  // ---------------------------------------------------------------- round trip

  lemma SubstreamRoundTrip(m: SubstreamMessage)
    ensures DecodeSubstream(EncodeSubstream(m)) ==
            if IsEmptyData(m) then Err(InvalidSubstreamMessageBytes) else Ok(m)
  {
    var b := EncodeSubstream(m);
    assert b[..ID_LENGTH] == m.substreamId.bytes;
    assert b[ID_LENGTH + 1..] == if m.messageType.Data? then m.messageType.data else [];
  }

  lemma TransportRoundTrip(t: TransportMessage)
    ensures DecodeTransport(EncodeTransport(t)) ==
            if IsEmptyData(t.message) then Err(InvalidSubstreamMessageBytes) else Ok(t)
  {
    var b := EncodeTransport(t);
    assert b[..NONCE_LENGTH] == BigEndian.ToBytes(t.nonce, NONCE_LENGTH);
    assert b[NONCE_LENGTH..TRANSPORT_HEADER] == t.id.bytes;
    assert b[TRANSPORT_HEADER..] == EncodeSubstream(t.message);
    BigEndian.Pow256Of8();
    BigEndian.FromToBytes(t.nonce, NONCE_LENGTH);
    SubstreamRoundTrip(t.message);
  }

  lemma ConnectionRoundTrip(f: Foreign, c: ConnectionMessage)
    requires f.Lawful(c)
    ensures DecodeConnection(f, EncodeConnection(f, c)) == Ok(c)
  {
    var b := EncodeConnection(f, c);
    assert b[..ID_LENGTH] == c.id.bytes;
    match c.recipient {
      case None =>
        assert b[ID_LENGTH + 1..] == f.peerTo(c.peerId);
      case Some(r) =>
        assert b[ID_LENGTH] == 1;
        assert b[ID_LENGTH + 1..ID_LENGTH + 1 + RECIPIENT_LENGTH] == r.bytes;
        assert b[ID_LENGTH + 1 + RECIPIENT_LENGTH..] == f.peerTo(c.peerId);
    }
  }

  /** Every message survives the wire except an empty `Data`, which is always refused. */
  lemma MessageRoundTrip(f: Foreign, m: Message)
    requires LawfulMessage(f, m)
    ensures DecodeMessage(f, EncodeMessage(f, m)) ==
            if m.Transport? && IsEmptyData(m.transport.message)
            then Err(InvalidSubstreamMessageBytes) else Ok(m)
  {
    var b := EncodeMessage(f, m);
    match m {
      case ConnectionRequest(c) =>
        assert b[1..] == EncodeConnection(f, c);
        ConnectionRoundTrip(f, c);
      case ConnectionResponse(c) =>
        assert b[1..] == EncodeConnection(f, c);
        ConnectionRoundTrip(f, c);
      case Transport(t) =>
        assert b[1..] == EncodeTransport(t);
        TransportRoundTrip(t);
    }
  }

  /** Two messages with the same bytes are the same message. */
  lemma EncodingIsInjective(f: Foreign, m: Message, m': Message)
    requires LawfulMessage(f, m) && LawfulMessage(f, m')
    requires EncodeMessage(f, m) == EncodeMessage(f, m')
    ensures m == m'
  {
    MessageRoundTrip(f, m);
    MessageRoundTrip(f, m');
    if m.Transport? && IsEmptyData(m.transport.message) {
      var t, t' := m.transport, m'.transport;
      assert EncodeMessage(f, m)[1..] == EncodeTransport(t);
      assert EncodeMessage(f, m')[1..] == EncodeTransport(t');
      assert EncodeTransport(t)[..NONCE_LENGTH] == BigEndian.ToBytes(t.nonce, NONCE_LENGTH);
      assert EncodeTransport(t')[..NONCE_LENGTH] == BigEndian.ToBytes(t'.nonce, NONCE_LENGTH);
      BigEndian.Pow256Of8();
      BigEndian.FromToBytes(t.nonce, NONCE_LENGTH);
      BigEndian.FromToBytes(t'.nonce, NONCE_LENGTH);
      assert EncodeTransport(t)[NONCE_LENGTH..TRANSPORT_HEADER] == t.id.bytes;
      assert EncodeTransport(t')[NONCE_LENGTH..TRANSPORT_HEADER] == t'.id.bytes;
      assert EncodeTransport(t)[TRANSPORT_HEADER..] == EncodeSubstream(t.message);
      assert EncodeTransport(t')[TRANSPORT_HEADER..] == EncodeSubstream(t'.message);
      assert EncodeSubstream(t.message)[..ID_LENGTH] == t.message.substreamId.bytes;
      assert EncodeSubstream(t'.message)[..ID_LENGTH] == t'.message.substreamId.bytes;
    }
  }

  // ---------------------------------------------------------------- decode, then encode

  lemma SubstreamReencoding(b: seq<byte>)
    requires DecodeSubstream(b).Ok?
    ensures var m := DecodeSubstream(b).value;
            EncodeSubstream(m) == if m.messageType.Data? then b else b[..ID_LENGTH + 1]
  {
    assert b[..ID_LENGTH] + [b[ID_LENGTH]] == b[..ID_LENGTH + 1];
    assert b == b[..ID_LENGTH + 1] + b[ID_LENGTH + 1..];
  }

  /** Re-encoding an accepted transport message gives the input back: all of it for
      `Data`, its first 73 bytes for the three control messages, which tolerate a tail. */
  lemma TransportReencoding(b: seq<byte>)
    requires DecodeTransport(b).Ok?
    ensures var t := DecodeTransport(b).value;
            EncodeTransport(t) == if t.message.messageType.Data? then b else b[..73]
  {
    BigEndian.ToFromBytes(b[..NONCE_LENGTH]);
    SubstreamReencoding(b[TRANSPORT_HEADER..]);
    assert b == b[..NONCE_LENGTH] + b[NONCE_LENGTH..TRANSPORT_HEADER] + b[TRANSPORT_HEADER..];
    assert b[..73] == b[..NONCE_LENGTH] + b[NONCE_LENGTH..TRANSPORT_HEADER] + b[TRANSPORT_HEADER..][..ID_LENGTH + 1];
  }

  lemma MessageReencoding(f: Foreign, b: seq<byte>)
    requires DecodeMessage(f, b).Ok? && DecodeMessage(f, b).value.Transport?
    ensures var m := DecodeMessage(f, b).value;
            EncodeMessage(f, m) == if m.transport.message.messageType.Data? then b else b[..74]
  {
    TransportReencoding(b[1..]);
    assert b == [b[0]] + b[1..];
    assert b[..74] == [b[0]] + b[1..][..73];
  }

  // ---------------------------------------------------------------- the imperative encoders

  method SubstreamToBytes(m: SubstreamMessage) returns (bytes: seq<byte>)
    ensures bytes == EncodeSubstream(m)
    ensures DecodeSubstream(bytes).Ok? <==> !IsEmptyData(m)
  {
    bytes := m.substreamId.bytes;
    bytes := bytes + [TypeByte(m.messageType)];
    if m.messageType.Data? {
      bytes := bytes + m.messageType.data;
    }
    SubstreamRoundTrip(m);
  }

  method TransportToBytes(t: TransportMessage) returns (bytes: seq<byte>)
    ensures bytes == EncodeTransport(t)
    ensures |bytes| == 73 + if t.message.messageType.Data? then |t.message.messageType.data| else 0
  {
    bytes := BigEndian.ToBytes(t.nonce, NONCE_LENGTH);
    bytes := bytes + t.id.bytes;
    var tail := SubstreamToBytes(t.message);
    bytes := bytes + tail;
  }

  method ConnectionToBytes(f: Foreign, c: ConnectionMessage) returns (bytes: seq<byte>)
    ensures bytes == EncodeConnection(f, c)
  {
    bytes := c.id.bytes;
    match c.recipient {
      case Some(r) =>
        bytes := bytes + [1];
        bytes := bytes + r.bytes;
      case None =>
        bytes := bytes + [0];
    }
    bytes := bytes + f.peerTo(c.peerId);
  }

  method MessageToBytes(f: Foreign, m: Message) returns (bytes: seq<byte>)
    ensures bytes == EncodeMessage(f, m)
    ensures LawfulMessage(f, m) && !(m.Transport? && IsEmptyData(m.transport.message)) ==>
              DecodeMessage(f, bytes) == Ok(m)
  {
    match m {
      case ConnectionRequest(c) =>
        var tail := ConnectionToBytes(f, c);
        bytes := [0] + tail;
      case ConnectionResponse(c) =>
        var tail := ConnectionToBytes(f, c);
        bytes := [1] + tail;
      case Transport(t) =>
        var tail := TransportToBytes(t);
        bytes := [2] + tail;
    }
    if LawfulMessage(f, m) {
      MessageRoundTrip(f, m);
    }
  }
}
