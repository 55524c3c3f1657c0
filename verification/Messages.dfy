/** Machine integers and small containers shared by every other module. */
module Base {
  newtype byte = x: int | 0 <= x < 256

  const U64_MAX: nat := 0xFFFF_FFFF_FFFF_FFFF

  type u64 = n: nat | n <= U64_MAX

  /** `u64::wrapping_add(1)`, also the effect of `AtomicU64::fetch_add(1)`. */
  function WrappingSucc(n: u64): u64 {
    if n == U64_MAX then 0 else n + 1
  }

  datatype Option<+T> = None | Some(value: T)

  datatype Result<+T, +E> = Ok(value: T) | Err(error: E)

  function Min(a: nat, b: nat): nat {
    if a <= b then a else b
  }
}

/** The wire entities of src/message.rs and the errors the core raises. */
module Messages {
  import opened Base

  const ID_LENGTH: nat := 32
  const RECIPIENT_LENGTH: nat := 96

  type Id32 = b: seq<byte> | |b| == ID_LENGTH witness seq(ID_LENGTH, i => 0)

  datatype ConnectionId = ConnectionId(bytes: Id32)

  datatype SubstreamId = SubstreamId(bytes: Id32)

  type RecipientBytes = b: seq<byte> | |b| == RECIPIENT_LENGTH witness seq(RECIPIENT_LENGTH, i => 0)

  /** A Nym address: an opaque byte string of fixed length. */
  datatype Recipient = Recipient(bytes: RecipientBytes)

  /** A libp2p peer identity; its byte form belongs to a foreign codec. */
  datatype PeerId = PeerId(multihash: seq<byte>)

  datatype SubstreamMessageType = OpenRequest | OpenResponse | Close | Data(data: seq<byte>)

  datatype SubstreamMessage = SubstreamMessage(substreamId: SubstreamId, messageType: SubstreamMessageType)

  datatype TransportMessage = TransportMessage(nonce: u64, message: SubstreamMessage, id: ConnectionId)

  datatype ConnectionMessage = ConnectionMessage(peerId: PeerId, id: ConnectionId, recipient: Option<Recipient>)

  datatype Message =
    | ConnectionRequest(request: ConnectionMessage)
    | ConnectionResponse(response: ConnectionMessage)
    | Transport(transport: TransportMessage)

  datatype OutboundMessage = OutboundMessage(message: Message, recipient: Recipient)

  datatype Error =
    | InvalidMessageBytes
    | NoConnectionForResponse
    | ConnectionAlreadyEstablished
    | NoneRecipientInConnectionRequest
    | ConnectionIDExists
    | NoConnectionForTransportMessage
    | ConnectionMessageBytesTooShort
    | ConnectionMessageBytesNoRecipient
    | ConnectionMessageBytesNoPeerId
    | InvalidPeerIdBytes
    | InvalidRecipientBytes
    | InvalidRecipientPrefixByte
    | TransportMessageBytesTooShort
    | InvalidSubstreamMessageBytes
    | InvalidSubstreamMessageType
    | SubstreamIdExists(existing: SubstreamId)
    | SubstreamIdDoesNotExist(missing: SubstreamId)
    | OutboundSendError
    | InboundSendError
    | ConnectionSendError

  /** The one kind of message that encodes but never decodes. */
  predicate IsEmptyData(m: SubstreamMessage) {
    m.messageType == Data([])
  }

  /** The connection a message belongs to. */
  function IdOf(m: Message): ConnectionId {
    match m
    case ConnectionRequest(c) => c.id
    case ConnectionResponse(c) => c.id
    case Transport(t) => t.id
  }
}
