/** The transport of src/transport.rs, as a value and its step functions. */
module TransportSpec {
  import opened Base
  import opened Messages
  import opened Queue
  import opened Receiver

  /** An established connection: its channel and what its `Connection` was made with. */
  datatype Conn = Conn(inbox: Inbox, peer: PeerId, remote: Recipient)

  /** A pending dial; `waiting` is false once the dial future was dropped (timeout). */
  datatype Dial = Dial(remote: Recipient, waiting: bool)

  datatype Node = Node(
    address: Recipient,
    peerId: PeerId,
    conns: map<ConnectionId, Conn>,
    dials: map<ConnectionId, Dial>,
    queues: map<ConnectionId, QueueState>,
    outOpen: bool)

  function NewNode(address: Recipient, peerId: PeerId): Node {
    Node(address, peerId, map[], map[], map[], true)
  }

  /** What handling one message does: the new state, what is sent, how it ended. */
  datatype Handled = Handled(node: Node, out: seq<OutboundMessage>, outcome: Outcome)

  function QueueOf(t: Node, id: ConnectionId): QueueState {
    if id in t.queues then t.queues[id] else FRESH
  }

  function LinkOf(t: Node, id: ConnectionId): Link {
    Link(if id in t.conns then Some(t.conns[id].inbox) else None, QueueOf(t, id))
  }

  function HandleTransport(t: Node, m: TransportMessage): Handled {
    var (l, o) := Receive(LinkOf(t, m.id), m);
    var conns := if m.id in t.conns
                 then t.conns[m.id := t.conns[m.id].(inbox := l.inbox.value)] else t.conns;
    Handled(t.(conns := conns, queues := t.queues[m.id := l.q]), [], o)
  }

  /** Store a fresh channel under `id` and release what waited for it. */
  function Establish(t: Node, id: ConnectionId, peer: PeerId, remote: Recipient): (Node, Outcome) {
    var (l, o) := Initiate(QueueOf(t, id));
    (t.(conns := t.conns[id := Conn(l.inbox.value, peer, remote)], queues := t.queues[id := l.q]), o)
  }

  /** The `Connection` was dropped with its receiving end. */
  function Abandon(t: Node, id: ConnectionId): Node {
    if id in t.conns
    then t.(conns := t.conns[id := t.conns[id].(inbox := t.conns[id].inbox.(alive := false))])
    else t
  }

  function HandleRequest(t: Node, c: ConnectionMessage): Handled {
    if c.recipient.None? then Handled(t, [], Failed(NoneRecipientInConnectionRequest))
    else if c.id in t.conns then Handled(t, [], Failed(ConnectionIDExists))
    else
      var (t', o) := Establish(t, c.id, c.peerId, c.recipient.value);
      if o != Done then Handled(t', [], o)
      else if !t.outOpen then Handled(Abandon(t', c.id), [], Failed(OutboundSendError))
      else
        var reply := ConnectionResponse(ConnectionMessage(t.peerId, c.id, None));
        Handled(t', [OutboundMessage(reply, c.recipient.value)], Done)
  }

  function HandleResponse(t: Node, c: ConnectionMessage): Handled {
    if c.id in t.conns then Handled(t, [], Failed(ConnectionAlreadyEstablished))
    else if c.id !in t.dials then Handled(t, [], Failed(NoConnectionForResponse))
    else
      var dial := t.dials[c.id];
      var (t', o) := Establish(t.(dials := t.dials - {c.id}), c.id, c.peerId, dial.remote);
      if o != Done then Handled(t', [], o)
      else if !dial.waiting then Handled(Abandon(t', c.id), [], Failed(ConnectionSendError))
      else Handled(t', [], Done)
  }

  /** `handle_inbound`. */
  function HandleInbound(t: Node, m: Message): Handled {
    match m
    case ConnectionRequest(c) => HandleRequest(t, c)
    case ConnectionResponse(c) => HandleResponse(t, c)
    case Transport(m) => HandleTransport(t, m)
  }

  /** The state part of `dial`, with the generated id as a parameter. */
  function StartDial(t: Node, id: ConnectionId, remote: Recipient): Node {
    t.(dials := t.dials[id := Dial(remote, true)])
  }

  function DialRequest(t: Node, id: ConnectionId): Message {
    ConnectionRequest(ConnectionMessage(t.peerId, id, Some(t.address)))
  }

  // ---------------------------------------------------------------- runs of one node

  datatype NodeEvent =
    | Inbound(msg: Message)
    | Dialed(dialId: ConnectionId, remote: Recipient)
    | DialDropped(id: ConnectionId)
    | ConnectionDropped(id: ConnectionId)

  function NodeStep(t: Node, e: NodeEvent): Handled {
    match e
    case Inbound(m) => HandleInbound(t, m)
    case Dialed(id, r) => Handled(StartDial(t, id, r), [], Done)
    case DialDropped(id) =>
      Handled(if id in t.dials then t.(dials := t.dials[id := t.dials[id].(waiting := false)]) else t, [], Done)
    case ConnectionDropped(id) => Handled(Abandon(t, id), [], Done)
  }

  function NodeRun(t: Node, es: seq<NodeEvent>): Node {
    if es == [] then t else NodeStep(NodeRun(t, es[..|es| - 1]), es[|es| - 1]).node
  }

  function EventId(e: NodeEvent): ConnectionId {
    match e
    case Inbound(m) => IdOf(m)
    case Dialed(id, _) => id
    case DialDropped(id) => id
    case ConnectionDropped(id) => id
  }

  // ---------------------------------------------------------------- establishment

  /** The event is not a transport message with nonce 0. */
  predicate Numbered(e: NodeEvent) {
    e.Inbound? && e.msg.Transport? ==> e.msg.transport.nonce >= 1
  }

  /** The nonces of the transport messages that arrived for one connection. */
  function Nonces(es: seq<NodeEvent>, id: ConnectionId): set<nat> {
    if es == [] then {} else Nonces(es[..|es| - 1], id) + NonceIn(es[|es| - 1], id)
  }

  function NonceIn(e: NodeEvent, id: ConnectionId): set<nat> {
    if e.Inbound? && e.msg.Transport? && e.msg.transport.id == id then {e.msg.transport.nonce as nat} else {}
  }

  /** Nonces `from` up to the last u64 have all been used. */
  ghost predicate Exhausted(seen: set<nat>, from: nat) {
    forall k: nat | from <= k <= U64_MAX :: k in seen
  }

  /** A queue that expects `next` after its handshake has seen all nonces before it; it
      expects 0 only once the counter has wrapped around. */
  ghost predicate Through(next: u64, seen: set<nat>) {
    if next == 0 then Exhausted(seen, 1) else forall k: nat | 1 <= k < next :: k in seen
  }

  ghost predicate Waits(q: QueueState, seen: set<nat>) {
    forall n | n in q.buf :: n >= 1 && n in seen
  }

  lemma {:induction false} DrainGoesThrough(q: QueueState, inbox: Inbox, seen: set<nat>)
    requires Waits(q, seen) && Through(q.next, seen)
    ensures Waits(Drain(q, inbox).0, seen) && Through(Drain(q, inbox).0.next, seen)
    decreases |q.buf|
  {
    if HeadReady(q) && inbox.alive {
      assert Through(Popped(q).next, seen);
      DrainGoesThrough(Popped(q), inbox.(sent := inbox.sent + [q.buf[q.next].message]), seen);
    }
  }

  /** The link form of establishment. */
  ghost predicate LinkEstablished(l: Link, seen: set<nat>) {
    Waits(l.q, seen) && if l.inbox.Some? then Through(l.q.next, seen) else l.q.next == 0
  }

  lemma ReceiveKeepsEstablished(l: Link, m: TransportMessage, seen: set<nat>)
    requires LinkEstablished(l, seen) && m.nonce >= 1
    ensures LinkEstablished(Receive(l, m).0, seen + {m.nonce as nat})
    ensures Receive(l, m).1 != Panicked && Receive(l, m).1 != Failed(NoConnectionForTransportMessage)
  {
    var seen' := seen + {m.nonce as nat};
    if m.nonce == l.q.next {
      assert Through(Push(l.q, m).0.next, seen');
      if l.inbox.value.alive {
        DrainGoesThrough(Push(l.q, m).0, l.inbox.value.(sent := l.inbox.value.sent + [m.message]), seen');
      }
    }
  }

  lemma InitiateEstablishes(q: QueueState, seen: set<nat>)
    requires q.next == 0 && Waits(q, seen)
    ensures LinkEstablished(Initiate(q).0, seen) && Initiate(q).0.inbox.Some?
    ensures Initiate(q).1 == Done
  {
    DrainGoesThrough(q.(next := 1), EMPTY_INBOX, seen);
  }

  lemma EstablishKeeps(t: Node, id: ConnectionId, peer: PeerId, remote: Recipient, seen: set<nat>)
    requires LinkEstablished(LinkOf(t, id), seen) && id !in t.conns
    ensures var (t', o) := Establish(t, id, peer, remote);
            && o == Done
            && LinkEstablished(LinkOf(t', id), seen) && LinkEstablished(LinkOf(Abandon(t', id), id), seen)
  {
    InitiateEstablishes(QueueOf(t, id), seen);
  }

  /** One numbered event keeps establishment and raises none of the three alarms. */
  lemma OwnStepKeepsEstablished(t: Node, e: NodeEvent, seen: set<nat>)
    requires LinkEstablished(LinkOf(t, EventId(e)), seen) && Numbered(e)
    ensures LinkEstablished(LinkOf(NodeStep(t, e).node, EventId(e)), seen + NonceIn(e, EventId(e)))
    ensures NodeStep(t, e).outcome != Panicked
    ensures NodeStep(t, e).outcome != Failed(NoConnectionForTransportMessage)
  {
    var id := EventId(e);
    if e.Inbound? && e.msg.Transport? {
      ReceiveKeepsEstablished(LinkOf(t, id), e.msg.transport, seen);
      TransportSlice(t, e.msg.transport);
    } else if e.Inbound? {
      HandshakeKeepsEstablished(t, e.msg, seen);
    }
  }

  lemma HandshakeKeepsEstablished(t: Node, m: Message, seen: set<nat>)
    requires !m.Transport? && LinkEstablished(LinkOf(t, IdOf(m)), seen)
    ensures LinkEstablished(LinkOf(HandleInbound(t, m).node, IdOf(m)), seen)
    ensures HandleInbound(t, m).outcome !in {Panicked, Failed(NoConnectionForTransportMessage)}
  {
    var id := IdOf(m);
    match m {
      case ConnectionRequest(c) =>
        if c.recipient.Some? && id !in t.conns {
          EstablishKeeps(t, id, c.peerId, c.recipient.value, seen);
        }
      case ConnectionResponse(c) =>
        if id !in t.conns && id in t.dials {
          EstablishKeeps(t.(dials := t.dials - {id}), id, c.peerId, t.dials[id].remote, seen);
        }
    }
  }

  /** A connection message leaves its link alone or initiates it, and a `Connection`
      that could not be handed over is dropped at once. */
  lemma HandshakeLink(t: Node, e: NodeEvent)
    requires e.Inbound? && !e.msg.Transport?
    ensures var id := EventId(e);
            var l' := LinkOf(NodeStep(t, e).node, id);
            || l' == LinkOf(t, id)
            || (id !in t.conns && l'.inbox.Some? && l'.inbox.value.alive && l' == Initiate(QueueOf(t, id)).0)
            || (id !in t.conns && l'.inbox.Some? && !l'.inbox.value.alive
                && l' == LinkStep(Initiate(QueueOf(t, id)).0, Dropped).0)
  {
    var id := EventId(e);
    match e.msg {
      case ConnectionRequest(c) =>
        if c.recipient.Some? && id !in t.conns {
          EstablishLink(t, id, c.peerId, c.recipient.value);
        }
      case ConnectionResponse(c) =>
        if id !in t.conns && id in t.dials {
          EstablishLink(t.(dials := t.dials - {id}), id, c.peerId, t.dials[id].remote);
        }
    }
  }

  lemma EstablishLink(t: Node, id: ConnectionId, peer: PeerId, remote: Recipient)
    ensures var (t', o) := Establish(t, id, peer, remote);
            var (l, o') := Initiate(QueueOf(t, id));
            && o == o' && l.inbox.Some? && l.inbox.value.alive
            && LinkOf(t', id) == l
            && LinkOf(Abandon(t', id), id) == LinkStep(l, Dropped).0
  {
  }

  /** Every link of the node, with the nonces that arrived for it. */
  ghost predicate Established(t: Node, es: seq<NodeEvent>) {
    forall id: ConnectionId :: LinkEstablished(LinkOf(t, id), Nonces(es, id))
  }

  lemma StepKeepsEstablished(t: Node, p: seq<NodeEvent>, e: NodeEvent)
    requires Established(t, p) && Numbered(e)
    ensures Established(NodeStep(t, e).node, p + [e])
  {
    assert (p + [e])[..|p|] == p;
    forall id: ConnectionId ensures LinkEstablished(LinkOf(NodeStep(t, e).node, id), Nonces(p + [e], id)) {
      if id == EventId(e) {
        OwnStepKeepsEstablished(t, e, Nonces(p, id));
      } else {
        ForeignEventsDoNothing(t, e, id);
        SliceHasLink(t, NodeStep(t, e).node, id);
      }
    }
  }

  lemma SliceHasLink(t: Node, t': Node, id: ConnectionId)
    requires SliceOf(t, id) == SliceOf(t', id)
    ensures LinkOf(t, id) == LinkOf(t', id)
  {
  }

  /** Establishment invariant over whole runs with nonces from 1: an id is in
      `connections` if and only if its queue expects nonce 1 or later, until every other
      nonce of a u64 has arrived; and neither the "received twice" panic nor a missing
      connection ever occurs. */
  lemma {:induction false} Establishment(address: Recipient, peer: PeerId, es: seq<NodeEvent>)
    requires forall i | 0 <= i < |es| :: Numbered(es[i])
    ensures Established(NodeRun(NewNode(address, peer), es), es)
    ensures forall id: ConnectionId ::
              var t := NodeRun(NewNode(address, peer), es);
              && (id !in t.conns ==> QueueOf(t, id).next == 0)
              && (id in t.conns && !Exhausted(Nonces(es, id), 1) ==> id in t.queues && t.queues[id].next >= 1)
    ensures forall i | 0 <= i < |es| ::
              NodeStep(NodeRun(NewNode(address, peer), es[..i]), es[i]).outcome
                !in {Panicked, Failed(NoConnectionForTransportMessage)}
  {
    var t0 := NewNode(address, peer);
    if es != [] {
      var p, e := es[..|es| - 1], es[|es| - 1];
      assert es == p + [e];
      Establishment(address, peer, p);
      StepKeepsEstablished(NodeRun(t0, p), p, e);
      OwnStepKeepsEstablished(NodeRun(t0, p), e, Nonces(p, EventId(e)));
      forall i | 0 <= i < |es|
        ensures NodeStep(NodeRun(t0, es[..i]), es[i]).outcome !in {Panicked, Failed(NoConnectionForTransportMessage)}
      {
        if i < |p| { assert es[..i] == p[..i] && es[i] == p[i]; }
      }
    }
    var t := NodeRun(t0, es);
    forall id: ConnectionId
      ensures id !in t.conns ==> QueueOf(t, id).next == 0
      ensures id in t.conns && !Exhausted(Nonces(es, id), 1) ==> id in t.queues && t.queues[id].next >= 1
    {
      assert LinkEstablished(LinkOf(t, id), Nonces(es, id));
    }
  }

  /** What a run leaves behind for an id that is not established: its queue has moved on
      if and only if nonce 0 arrived, short of a complete wrap-around. */
  ghost predicate Untouched(q: QueueState, seen: set<nat>) {
    && (forall k: nat | k < q.next :: k in seen)
    && (q.next == 0 ==> 0 !in seen || Exhausted(seen, 0))
  }

  lemma {:induction false} BeforeHandshake(address: Recipient, peer: PeerId, es: seq<NodeEvent>, id: ConnectionId)
    ensures var t := NodeRun(NewNode(address, peer), es);
            id !in t.conns ==> Untouched(QueueOf(t, id), Nonces(es, id))
  {
    if es != [] {
      BeforeHandshake(address, peer, es[..|es| - 1], id);
      var t := NodeRun(NewNode(address, peer), es[..|es| - 1]);
      StepBeforeHandshake(t, es[|es| - 1], id, Nonces(es[..|es| - 1], id));
    }
  }

  lemma ReceiveKeepsUntouched(l: Link, m: TransportMessage, seen: set<nat>)
    requires l.inbox.None? && Untouched(l.q, seen)
    ensures Receive(l, m).0.inbox.None? && Untouched(Receive(l, m).0.q, seen + {m.nonce as nat})
  {
    var next, seen' := l.q.next, seen + {m.nonce as nat};
    if m.nonce == next == U64_MAX {
      assert Exhausted(seen', 0);
    }
  }

  lemma StepBeforeHandshake(t: Node, e: NodeEvent, id: ConnectionId, seen: set<nat>)
    requires id !in t.conns ==> Untouched(QueueOf(t, id), seen)
    ensures var t' := NodeStep(t, e).node;
            id !in t'.conns ==> Untouched(QueueOf(t', id), seen + NonceIn(e, id))
  {
    if EventId(e) != id {
      ForeignEventsDoNothing(t, e, id);
      SliceHasLink(t, NodeStep(t, e).node, id);
    } else if e.Inbound? {
      match e.msg {
        case Transport(m) =>
          TransportSlice(t, m);
          if id !in t.conns {
            ReceiveKeepsUntouched(LinkOf(t, id), m, seen);
          }
        case _ => HandshakeLink(t, e);
      }
    }
  }

  /** The exact condition of the panic. After any run, a connection message that is
      otherwise accepted panics if and only if a transport message with nonce 0 and that
      id arrived earlier; only a queue that took every u64 nonce may escape. */
  lemma HandshakePanicsIff(address: Recipient, peer: PeerId, es: seq<NodeEvent>, c: ConnectionMessage)
    requires c.id !in NodeRun(NewNode(address, peer), es).conns
    ensures var t, seen := NodeRun(NewNode(address, peer), es), Nonces(es, c.id);
            && (c.recipient.Some? ==> PanicsFor(HandleInbound(t, ConnectionRequest(c)).outcome, seen))
            && (c.id in t.dials ==> PanicsFor(HandleInbound(t, ConnectionResponse(c)).outcome, seen))
  {
    BeforeHandshake(address, peer, es, c.id);
  }

  ghost predicate PanicsFor(o: Outcome, seen: set<nat>) {
    && (o == Panicked ==> 0 in seen)
    && (0 in seen && !Exhausted(seen, 0) ==> o == Panicked)
  }

  /** The failing input: one nonce-0 message, then the handshake it precedes. */
  lemma ZeroNonceThenRequestPanics(address: Recipient, peer: PeerId, m: TransportMessage, c: ConnectionMessage)
    requires m.nonce == 0 && m.id == c.id && c.recipient.Some?
    ensures var t := NodeRun(NewNode(address, peer), [Inbound(Transport(m))]);
            HandleInbound(t, ConnectionRequest(c)).outcome == Panicked
  {
    var es := [Inbound(Transport(m))];
    assert es[..0] == [] && Nonces(es, c.id) == {0};
    assert 1 !in Nonces(es, c.id);
    HandshakePanicsIff(address, peer, es, c);
  }

  // ---------------------------------------------------------------- answering and resolving

  /** A connection made of `peer` at `remote`, its channel with or without a reader. */
  ghost predicate Connects(t: Node, id: ConnectionId, peer: PeerId, remote: Recipient, alive: bool) {
    && id in t.conns
    && t.conns[id].peer == peer && t.conns[id].remote == remote && t.conns[id].inbox.alive == alive
  }

  lemma EstablishConnects(t: Node, id: ConnectionId, peer: PeerId, remote: Recipient)
    ensures var (t', o) := Establish(t, id, peer, remote);
            && o == (if QueueOf(t, id).next == 0 then Done else Panicked)
            && Connects(t', id, peer, remote, true) && Connects(Abandon(t', id), id, peer, remote, false)
            && t'.dials == t.dials
  {
  }

  /** What a connection request comes to, in every case. It is accepted if and only if it
      names its sender, the id is not connected, no nonce-0 message has moved the queue
      and the mixnet channel is open. Then, and only then, the node answers: one response
      with its own peer id and the request's id, to the sender. */
  lemma RequestIsAnsweredIff(t: Node, c: ConnectionMessage)
    ensures var h := HandleInbound(t, ConnectionRequest(c));
            && (h.outcome == Failed(NoneRecipientInConnectionRequest) <==> c.recipient.None?)
            && (h.outcome == Failed(ConnectionIDExists) <==> c.recipient.Some? && c.id in t.conns)
            && (c.recipient.None? || c.id in t.conns ==> h.node == t && h.out == [])
            && (c.recipient.Some? && c.id !in t.conns ==>
                  && (h.outcome == Panicked <==> QueueOf(t, c.id).next != 0)
                  && (h.outcome == Done <==> QueueOf(t, c.id).next == 0 && t.outOpen)
                  && (h.outcome == Failed(OutboundSendError) <==> QueueOf(t, c.id).next == 0 && !t.outOpen)
                  && Connects(h.node, c.id, c.peerId, c.recipient.value, h.outcome != Failed(OutboundSendError))
                  && h.node.dials == t.dials)
            && (h.outcome != Done ==> h.out == [])
            && (h.outcome == Done ==>
                  h.out == [OutboundMessage(
                              ConnectionResponse(ConnectionMessage(t.peerId, c.id, None)), c.recipient.value)])
  {
    if c.recipient.Some? {
      EstablishConnects(t, c.id, c.peerId, c.recipient.value);
    }
  }

  /** What a connection response comes to, in every case. It resolves the dial of its id if
      and only if there is one and the id is not connected; the connection is handed over
      if and only if the dial is still waited for and no nonce-0 message came first. */
  lemma ResponseResolvesIff(t: Node, c: ConnectionMessage)
    ensures var h := HandleInbound(t, ConnectionResponse(c));
            && h.out == []
            && (h.outcome == Failed(ConnectionAlreadyEstablished) <==> c.id in t.conns)
            && (h.outcome == Failed(NoConnectionForResponse) <==> c.id !in t.conns && c.id !in t.dials)
            && (c.id in t.conns || c.id !in t.dials ==> h.node == t)
            && (c.id !in t.conns && c.id in t.dials ==>
                  && h.node.dials == t.dials - {c.id}
                  && (h.outcome == Panicked <==> QueueOf(t, c.id).next != 0)
                  && (h.outcome == Done <==> QueueOf(t, c.id).next == 0 && t.dials[c.id].waiting)
                  && (h.outcome == Failed(ConnectionSendError) <==>
                        QueueOf(t, c.id).next == 0 && !t.dials[c.id].waiting)
                  && Connects(h.node, c.id, c.peerId, t.dials[c.id].remote,
                              h.outcome != Failed(ConnectionSendError)))
  {
    if c.id in t.dials {
      EstablishConnects(t.(dials := t.dials - {c.id}), c.id, c.peerId, t.dials[c.id].remote);
    }
  }

  /** So after any run, a request from a stranger whose id no nonce-0 message used is
      accepted and answered. */
  lemma RequestIsAnswered(address: Recipient, peer: PeerId, es: seq<NodeEvent>, c: ConnectionMessage)
    requires c.recipient.Some? && 0 !in Nonces(es, c.id)
    requires c.id !in NodeRun(NewNode(address, peer), es).conns
    ensures var h := HandleInbound(NodeRun(NewNode(address, peer), es), ConnectionRequest(c));
            && h.outcome == Done && Connects(h.node, c.id, c.peerId, c.recipient.value, true)
            && h.out == [OutboundMessage(
                           ConnectionResponse(ConnectionMessage(peer, c.id, None)), c.recipient.value)]
  {
    var t := NodeRun(NewNode(address, peer), es);
    BeforeHandshake(address, peer, es, c.id);
    OutboundStaysOpen(NewNode(address, peer), es);
    PeerStays(NewNode(address, peer), es);
    RequestIsAnsweredIff(t, c);
  }

  lemma {:induction false} PeerStays(t: Node, es: seq<NodeEvent>)
    ensures NodeRun(t, es).peerId == t.peerId && NodeRun(t, es).address == t.address
  {
    if es != [] { PeerStays(t, es[..|es| - 1]); }
  }

  // ---------------------------------------------------------------- isolation

  /** Everything a node holds about one connection. */
  datatype Slice = Slice(conn: Option<Conn>, dial: Option<Dial>, q: QueueState)

  function SliceOf(t: Node, id: ConnectionId): Slice {
    Slice(
      if id in t.conns then Some(t.conns[id]) else None,
      if id in t.dials then Some(t.dials[id]) else None,
      QueueOf(t, id))
  }

  function Only(es: seq<NodeEvent>, id: ConnectionId): seq<NodeEvent> {
    if es == [] then []
    else
      var p := Only(es[..|es| - 1], id);
      if EventId(es[|es| - 1]) == id then p + [es[|es| - 1]] else p
  }

  lemma ForeignEventsDoNothing(t: Node, e: NodeEvent, id: ConnectionId)
    requires EventId(e) != id
    ensures SliceOf(NodeStep(t, e).node, id) == SliceOf(t, id)
  {
    if e.Inbound? {
      match e.msg {
        case ConnectionRequest(c) => RequestFrame(t, c, id);
        case ConnectionResponse(c) => ResponseFrame(t, c, id);
        case Transport(m) =>
      }
    }
  }

  lemma RequestFrame(t: Node, c: ConnectionMessage, id: ConnectionId)
    requires c.id != id
    ensures SliceOf(HandleRequest(t, c).node, id) == SliceOf(t, id)
  {
    if c.recipient.Some? && c.id !in t.conns {
      EstablishFrame(t, c.id, c.peerId, c.recipient.value, id);
    }
  }

  lemma ResponseFrame(t: Node, c: ConnectionMessage, id: ConnectionId)
    requires c.id != id
    ensures SliceOf(HandleResponse(t, c).node, id) == SliceOf(t, id)
  {
    if c.id !in t.conns && c.id in t.dials {
      EstablishFrame(t.(dials := t.dials - {c.id}), c.id, c.peerId, t.dials[c.id].remote, id);
    }
  }

  lemma EstablishFrame(t: Node, id: ConnectionId, peer: PeerId, remote: Recipient, other: ConnectionId)
    requires id != other
    ensures var t' := Establish(t, id, peer, remote).0;
            && SliceOf(t', other) == SliceOf(t, other)
            && SliceOf(Abandon(t', id), other) == SliceOf(t, other)
  {
  }

  lemma OwnEventsDependOnSlice(t: Node, t': Node, e: NodeEvent)
    requires t.outOpen == t'.outOpen
    requires SliceOf(t, EventId(e)) == SliceOf(t', EventId(e))
    ensures SliceOf(NodeStep(t, e).node, EventId(e)) == SliceOf(NodeStep(t', e).node, EventId(e))
    ensures NodeStep(t, e).outcome == NodeStep(t', e).outcome
  {
    var id := EventId(e);
    if e.Inbound? {
      match e.msg {
        case ConnectionRequest(c) =>
          if c.recipient.Some? && id !in t.conns {
            EstablishDepends(t, t', id, c.peerId, c.recipient.value);
          }
        case ConnectionResponse(c) =>
          if id !in t.conns && id in t.dials {
            var r := t.dials[id].remote;
            EstablishDepends(t.(dials := t.dials - {id}), t'.(dials := t'.dials - {id}), id, c.peerId, r);
          }
        case Transport(m) => TransportDepends(t, t', m);
      }
    }
  }

  lemma TransportDepends(t: Node, t': Node, m: TransportMessage)
    requires SliceOf(t, m.id) == SliceOf(t', m.id)
    ensures HandleTransport(t, m).outcome == HandleTransport(t', m).outcome
    ensures SliceOf(HandleTransport(t, m).node, m.id) == SliceOf(HandleTransport(t', m).node, m.id)
  {
    SliceHasLink(t, t', m.id);
    TransportSlice(t, m);
    TransportSlice(t', m);
  }

  lemma EstablishDepends(t: Node, t': Node, id: ConnectionId, peer: PeerId, remote: Recipient)
    requires SliceOf(t, id) == SliceOf(t', id)
    ensures var (u, o) := Establish(t, id, peer, remote);
            var (u', o') := Establish(t', id, peer, remote);
            && o == o'
            && SliceOf(u, id) == SliceOf(u', id)
            && SliceOf(Abandon(u, id), id) == SliceOf(Abandon(u', id), id)
  {
  }

  lemma TransportSlice(t: Node, m: TransportMessage)
    ensures var h := HandleTransport(t, m);
            var (l, o) := Receive(LinkOf(t, m.id), m);
            && h.outcome == o
            && LinkOf(h.node, m.id) == l
            && SliceOf(h.node, m.id) == SliceOf(t, m.id).(
                 q := l.q,
                 conn := if m.id in t.conns then Some(t.conns[m.id].(inbox := l.inbox.value)) else None)
  {
  }

  lemma {:induction false} OutboundStaysOpen(t: Node, es: seq<NodeEvent>)
    ensures NodeRun(t, es).outOpen == t.outOpen
  {
    if es != [] { OutboundStaysOpen(t, es[..|es| - 1]); }
  }

  /** Connection isolation: what a node holds about one connection after any run is
      what the events of that connection alone produce. */
  lemma {:induction false} Isolation(t: Node, es: seq<NodeEvent>, id: ConnectionId)
    ensures SliceOf(NodeRun(t, es), id) == SliceOf(NodeRun(t, Only(es, id)), id)
  {
    if es != [] {
      var p, e := es[..|es| - 1], es[|es| - 1];
      Isolation(t, p, id);
      if EventId(e) == id {
        OutboundStaysOpen(t, p);
        OutboundStaysOpen(t, Only(p, id));
        OwnEventsDependOnSlice(NodeRun(t, p), NodeRun(t, Only(p, id)), e);
        assert (Only(p, id) + [e])[..|Only(p, id) + [e]| - 1] == Only(p, id);
      } else {
        ForeignEventsDoNothing(NodeRun(t, p), e, id);
      }
    }
  }

  // ---------------------------------------------------------------- a node's run, link by link

  /** The link event a node event is for the connection `id`. */
  function LinkEvents(t: Node, es: seq<NodeEvent>, id: ConnectionId): seq<Event> {
    if es == [] then []
    else
      var p, e := es[..|es| - 1], es[|es| - 1];
      LinkEvents(t, p, id) + LinkEvent(NodeRun(t, p), e, id)
  }

  function LinkEvent(t: Node, e: NodeEvent, id: ConnectionId): seq<Event> {
    if EventId(e) != id then []
    else
      match e
      case ConnectionDropped(_) => [Dropped]
      case Inbound(Transport(m)) => [Arrived(m)]
      case Inbound(_) =>
        if id !in t.conns && id in NodeStep(t, e).node.conns
        then [Connected] + (if NodeStep(t, e).node.conns[id].inbox.alive then [] else [Dropped])
        else []
      case _ => []
  }

  lemma StepIsLinkStep(t: Node, e: NodeEvent, id: ConnectionId)
    ensures LinkOf(NodeStep(t, e).node, id) == LinkSteps(LinkOf(t, id), LinkEvent(t, e, id))
  {
    var l, l' := LinkOf(t, id), LinkOf(NodeStep(t, e).node, id);
    if EventId(e) != id {
      ForeignEventsDoNothing(t, e, id);
      SliceHasLink(t, NodeStep(t, e).node, id);
    } else if e.Inbound? {
      match e.msg {
        case Transport(m) =>
          TransportSlice(t, m);
          assert l' == LinkSteps(l, [Arrived(m)]) by { assert [Arrived(m)][..0] == []; }
        case _ =>
          HandshakeLink(t, e);
          assert LinkSteps(l, [Connected]) == LinkStep(l, Connected).0 by { assert [Connected][..0] == []; }
          assert LinkSteps(l, [Connected, Dropped]) == LinkStep(LinkStep(l, Connected).0, Dropped).0 by {
            assert [Connected, Dropped][..1] == [Connected];
          }
          assert [Connected] + [Dropped] == [Connected, Dropped] && [Connected] + [] == [Connected];
      }
    } else if e.ConnectionDropped? {
      assert l' == LinkSteps(l, [Dropped]) by { assert [Dropped][..0] == []; }
    }
  }

  function LinkSteps(l: Link, es: seq<Event>): Link {
    if es == [] then l else LinkStep(LinkSteps(l, es[..|es| - 1]), es[|es| - 1]).0
  }

  lemma {:induction false} RunAppend(es: seq<Event>, more: seq<Event>)
    ensures Run(es + more) == LinkSteps(Run(es), more)
  {
    if more == [] {
      assert es + more == es;
    } else {
      RunAppend(es, more[..|more| - 1]);
      assert (es + more)[..|es + more| - 1] == es + more[..|more| - 1];
    }
  }

  /** Every connection of a node behaves as one reordering link, so the link theorems
      hold of each connection of a running transport. */
  lemma {:induction false} NodeRunsLinks(address: Recipient, peer: PeerId, es: seq<NodeEvent>, id: ConnectionId)
    ensures var t0 := NewNode(address, peer);
            LinkOf(NodeRun(t0, es), id) == Run(LinkEvents(t0, es, id))
  {
    var t0 := NewNode(address, peer);
    if es != [] {
      var p, e := es[..|es| - 1], es[|es| - 1];
      NodeRunsLinks(address, peer, p, id);
      StepIsLinkStep(NodeRun(t0, p), e, id);
      RunAppend(LinkEvents(t0, p, id), LinkEvent(NodeRun(t0, p), e, id));
    }
  }

  /** Hence each connection of a running node obeys the reordering theorem: unless its
      `Connection` is dropped or nonce 0 is used, it was forwarded exactly the first
      arrivals of nonces 1..k, k maximal. */
  lemma NodeDeliversInOrder(address: Recipient, peer: PeerId, es: seq<NodeEvent>, id: ConnectionId)
    requires Proper(LinkEvents(NewNode(address, peer), es, id))
    ensures var t := NodeRun(NewNode(address, peer), es);
            var ls := LinkEvents(NewNode(address, peer), es, id);
            && (id in t.conns <==> Connected in ls)
            && (id in t.conns ==> Settled(LinkOf(t, id), First(ls)))
  {
    NodeRunsLinks(address, peer, es, id);
    Reordering(LinkEvents(NewNode(address, peer), es, id));
  }

  ghost predicate Arrives(es: seq<Event>, n: u64) {
    exists i | 0 <= i < |es| :: es[i].Arrived? && es[i].m.nonce == n
  }

  lemma FirstHasArrivals(es: seq<Event>, n: u64)
    ensures n in First(es) <==> Arrives(es, n)
  {
    if n in First(es) {
      FirstOrigin(es, n);
    }
    if i: nat :| i < |es| && es[i].Arrived? && es[i].m.nonce == n {
      FirstSeen(es, i);
    }
  }

  lemma ArrivesInSum(es: seq<Event>, more: seq<Event>, n: u64)
    ensures Arrives(es + more, n) <==> Arrives(es, n) || Arrives(more, n)
  {
    var all := es + more;
    if i :| 0 <= i < |es| && es[i].Arrived? && es[i].m.nonce == n { assert all[i] == es[i]; }
    if i :| 0 <= i < |more| && more[i].Arrived? && more[i].m.nonce == n { assert all[|es| + i] == more[i]; }
  }

  lemma LinkEventArrives(t: Node, e: NodeEvent, id: ConnectionId, n: u64)
    ensures Arrives(LinkEvent(t, e, id), n) <==> n as nat in NonceIn(e, id)
  {
    if EventId(e) == id && e.Inbound? && e.msg.Transport? {
      assert LinkEvent(t, e, id)[0] == Arrived(e.msg.transport);
    }
  }

  lemma {:induction false} NoncesArrive(t: Node, es: seq<NodeEvent>, id: ConnectionId, n: u64)
    ensures Arrives(LinkEvents(t, es, id), n) <==> n as nat in Nonces(es, id)
  {
    if es != [] {
      var p, e := es[..|es| - 1], es[|es| - 1];
      NoncesArrive(t, p, id, n);
      LinkEventArrives(NodeRun(t, p), e, id, n);
      ArrivesInSum(LinkEvents(t, p, id), LinkEvent(NodeRun(t, p), e, id), n);
    }
  }

  lemma NoncesAreArrivals(t: Node, es: seq<NodeEvent>, id: ConnectionId, n: u64)
    ensures n in First(LinkEvents(t, es, id)) <==> n as nat in Nonces(es, id)
  {
    NoncesArrive(t, es, id, n);
    FirstHasArrivals(LinkEvents(t, es, id), n);
  }

  /** The limit of establishment is reached exactly: an established connection that is
      not dropped expects nonce 0 again if and only if nonces 1 to the last u64 arrived. */
  lemma WrapsWhenExhausted(address: Recipient, peer: PeerId, es: seq<NodeEvent>, id: ConnectionId)
    requires Proper(LinkEvents(NewNode(address, peer), es, id))
    requires id in NodeRun(NewNode(address, peer), es).conns
    ensures QueueOf(NodeRun(NewNode(address, peer), es), id).next == 0 <==> Exhausted(Nonces(es, id), 1)
  {
    var t0 := NewNode(address, peer);
    var ls := LinkEvents(t0, es, id);
    NodeDeliversInOrder(address, peer, es, id);
    var out := LinkOf(NodeRun(t0, es), id).inbox.value.sent;
    if |out| < U64_MAX {
      NoncesAreArrivals(t0, es, id, |out| + 1);
    } else {
      forall k: nat | 1 <= k <= U64_MAX ensures k in Nonces(es, id) {
        NoncesAreArrivals(t0, es, id, k);
      }
    }
  }
}
