/** The mutable transport object of src/transport.rs, verified against `TransportSpec`.
    Each connection owns one `MessageQueue` object. */
module NymTransport {
  import opened Base
  import opened Messages
  import opened Queue
  import opened Receiver
  import opened TransportSpec
  import opened Channels

  /** What is left to do once `m` was popped: send it and go on, or fail. */
  ghost function AfterPop(q: QueueState, inbox: Inbox, m: TransportMessage): (QueueState, Inbox, Outcome) {
    if inbox.alive then Drain(q, inbox.(sent := inbox.sent + [m.message]))
    else (q, inbox, Failed(InboundSendError))
  }

  /** The drain loop both handlers run: pop while the head is expected, send each
      message on the connection's channel, stop at the first failed send. */
  method DrainQueue(queue: MessageQueue, channel: Inbox) returns (inbox: Inbox, outcome: Outcome)
    requires queue.Valid()
    modifies queue
    ensures queue.Valid()
    ensures (queue.State(), inbox, outcome) == Drain(old(queue.State()), channel)
  {
    inbox, outcome := channel, Done;
    ghost var target := Drain(queue.State(), channel);
    var m := queue.Pop();
    while m.Some? && outcome == Done
      invariant queue.Valid()
      invariant m.None? || outcome != Done ==> (queue.State(), inbox, outcome) == target
      invariant m.Some? && outcome == Done ==> target == AfterPop(queue.State(), inbox, m.value)
      decreases |queue.State().buf|, m.Some? && outcome == Done
    {
      if inbox.alive {
        inbox := inbox.(sent := inbox.sent + [m.value.message]);
        m := queue.Pop();
      } else {
        outcome := Failed(InboundSendError);
      }
    }
  }

  /** `handle_transport_message` once the queue was looked up. */
  method ReceiveOn(queue: MessageQueue, channel: Option<Inbox>, msg: TransportMessage)
    returns (inbox: Option<Inbox>, outcome: Outcome)
    requires queue.Valid()
    modifies queue
    ensures queue.Valid()
    ensures (Link(inbox, queue.State()), outcome) == Receive(Link(channel, old(queue.State())), msg)
  {
    inbox, outcome := channel, Done;
    var ready := queue.TryPush(msg);
    if ready.None? {
      return;
    }
    if channel.None? {
      outcome := Failed(NoConnectionForTransportMessage);
      return;
    }
    if !channel.value.alive {
      outcome := Failed(InboundSendError);
      return;
    }
    var drained;
    drained, outcome := DrainQueue(queue, channel.value.(sent := channel.value.sent + [ready.value.message]));
    inbox := Some(drained);
  }

  /** The handshake reaches the queue: expect nonce 1, release what waited. */
  method InitiateOn(queue: MessageQueue) returns (inbox: Inbox, outcome: Outcome)
    requires queue.Valid()
    modifies queue
    ensures queue.Valid()
    ensures (Link(Some(inbox), queue.State()), outcome) == Initiate(old(queue.State()))
  {
    var panicked := queue.SetConnectionMessageReceived();
    if panicked {
      return EMPTY_INBOX, Panicked;
    }
    inbox, outcome := DrainQueue(queue, EMPTY_INBOX);
  }

  class NymTransport {
    const selfAddress: Recipient
    const peerId: PeerId
    const outboundTx: Outbox
    var connections: map<ConnectionId, Conn>
    var pendingDials: map<ConnectionId, Dial>
    var messageQueues: map<ConnectionId, MessageQueue>
    /** Whose each queue object is, and the value it stands for. */
    ghost var owner: map<MessageQueue, ConnectionId>
    ghost var queues: map<ConnectionId, QueueState>

    /** Queues are sorted, each has one owner, and `queues` tells their values, except
        that the queue of `id` may have moved on. */
    ghost predicate ValidBut(id: ConnectionId)
      reads this`messageQueues, this`owner, this`queues, owner.Keys
    {
      && (forall j :: j in messageQueues || j == id <==> j in queues || j == id)
      && (forall j | j in messageQueues ::
            && messageQueues[j] in owner && owner[messageQueues[j]] == j
            && messageQueues[j].Valid()
            && (j != id ==> queues[j] == messageQueues[j].State()))
    }

    ghost predicate Valid()
      reads this`messageQueues, this`owner, this`queues, owner.Keys
    {
      && (forall j :: j in messageQueues <==> j in queues)
      && (forall j | j in messageQueues ::
            && messageQueues[j] in owner && owner[messageQueues[j]] == j
            && messageQueues[j].Valid()
            && queues[j] == messageQueues[j].State())
    }

    ghost function View(): Node
      reads this, outboundTx
    {
      Node(selfAddress, peerId, connections, pendingDials, queues, outboundTx.open)
    }

    constructor (address: Recipient, peer: PeerId, outbox: Outbox)
      requires outbox.open
      ensures Valid() && View() == NewNode(address, peer) && outboundTx == outbox
    {
      selfAddress, peerId, outboundTx := address, peer, outbox;
      connections, pendingDials, messageQueues := map[], map[], map[];
      owner, queues := map[], map[];
    }

    /** Make sure `id` has a queue. */
    method QueueFor(id: ConnectionId) returns (queue: MessageQueue)
      requires Valid()
      modifies this`messageQueues, this`owner
      ensures ValidBut(id) && fresh(owner.Keys - old(owner.Keys))
      ensures id in messageQueues && messageQueues[id] == queue
      ensures queue.State() == QueueOf(View(), id)
    {
      if id !in messageQueues {
        queue := new MessageQueue();
        messageQueues, owner := messageQueues[id := queue], owner[queue := id];
      } else {
        queue := messageQueues[id];
      }
    }

    /** Run the queue part of `handle_transport_message` for one connection. */
    method ReceiveInQueue(channel: Option<Inbox>, msg: TransportMessage) returns (inbox: Option<Inbox>, outcome: Outcome)
      requires Valid()
      modifies this`messageQueues, this`owner, this`queues, owner.Keys
      ensures Valid() && fresh(owner.Keys - old(owner.Keys))
      ensures msg.id in queues && queues == old(queues)[msg.id := queues[msg.id]]
      ensures (Link(inbox, queues[msg.id]), outcome) == Receive(Link(channel, QueueOf(old(View()), msg.id)), msg)
    {
      var queue := QueueFor(msg.id);
      inbox, outcome := ReceiveOn(queue, channel, msg);
      NoteQueue(msg.id);
    }

    /** Run the queue part of `handle_message_queue_on_connection_initiation`. */
    method InitiateInQueue(id: ConnectionId) returns (inbox: Inbox, outcome: Outcome)
      requires Valid()
      modifies this`messageQueues, this`owner, this`queues, owner.Keys
      ensures Valid() && fresh(owner.Keys - old(owner.Keys))
      ensures id in queues && queues == old(queues)[id := queues[id]]
      ensures (Link(Some(inbox), queues[id]), outcome) == Initiate(QueueOf(old(View()), id))
    {
      var queue := QueueFor(id);
      inbox, outcome := InitiateOn(queue);
      NoteQueue(id);
    }

    /** Record the new value of the one queue that moved. */
    ghost method NoteQueue(id: ConnectionId)
      requires ValidBut(id) && id in messageQueues
      modifies this`queues
      ensures Valid() && queues == old(queues)[id := messageQueues[id].State()]
    {
      queues := queues[id := messageQueues[id].State()];
    }

    method HandleTransportMessage(msg: TransportMessage) returns (outcome: Outcome)
      requires Valid()
      modifies this, owner.Keys
      ensures Valid() && fresh(owner.Keys - old(owner.Keys))
      ensures Handled(View(), [], outcome) == HandleTransport(old(View()), msg)
    {
      var id := msg.id;
      if id in connections {
        var conn := connections[id];
        var inbox;
        inbox, outcome := ReceiveInQueue(Some(conn.inbox), msg);
        connections := connections[id := conn.(inbox := inbox.value)];
      } else {
        var _, o := ReceiveInQueue(None, msg);
        outcome := o;
      }
    }

    /** Store the new channel together with what was waiting for it. */
    method EstablishConnection(id: ConnectionId, peer: PeerId, remote: Recipient) returns (outcome: Outcome)
      requires Valid()
      modifies this`connections, this`messageQueues, this`owner, this`queues, owner.Keys
      ensures Valid() && fresh(owner.Keys - old(owner.Keys))
      ensures (View(), outcome) == Establish(old(View()), id, peer, remote)
    {
      var inbox;
      inbox, outcome := InitiateInQueue(id);
      connections := connections[id := Conn(inbox, peer, remote)];
    }

    /** A `Connection` value goes out of scope and its receiving end with it. */
    method DropConnection(id: ConnectionId)
      requires Valid()
      modifies this`connections
      ensures Valid() && View() == Abandon(old(View()), id)
    {
      if id in connections {
        var conn := connections[id];
        connections := connections[id := conn.(inbox := conn.inbox.(alive := false))];
      }
    }

    method HandleConnectionRequest(c: ConnectionMessage) returns (outcome: Outcome)
      requires Valid()
      modifies this, owner.Keys, outboundTx
      ensures Valid() && fresh(owner.Keys - old(owner.Keys))
      ensures var h := HandleRequest(old(View()), c);
              View() == h.node && outcome == h.outcome && outboundTx.sent == old(outboundTx.sent) + h.out
    {
      if c.recipient.None? {
        return Failed(NoneRecipientInConnectionRequest);
      }
      if c.id in connections {
        return Failed(ConnectionIDExists);
      }
      outcome := EstablishConnection(c.id, c.peerId, c.recipient.value);
      if outcome == Done {
        var reply := ConnectionResponse(ConnectionMessage(peerId, c.id, None));
        var sent := outboundTx.Send(OutboundMessage(reply, c.recipient.value));
        if !sent {
          DropConnection(c.id);
          outcome := Failed(OutboundSendError);
        }
      }
    }

    method HandleConnectionResponse(c: ConnectionMessage) returns (outcome: Outcome)
      requires Valid()
      modifies this, owner.Keys
      ensures Valid() && fresh(owner.Keys - old(owner.Keys))
      ensures Handled(View(), [], outcome) == HandleResponse(old(View()), c)
    {
      if c.id in connections {
        return Failed(ConnectionAlreadyEstablished);
      }
      if c.id !in pendingDials {
        return Failed(NoConnectionForResponse);
      }
      var dial := pendingDials[c.id];
      pendingDials := pendingDials - {c.id};
      outcome := ResolveDial(c, dial);
    }

    /** Hand the established connection to whoever waits for the dial. */
    method ResolveDial(c: ConnectionMessage, dial: Dial) returns (outcome: Outcome)
      requires Valid()
      modifies this`connections, this`messageQueues, this`owner, this`queues, owner.Keys
      ensures Valid() && fresh(owner.Keys - old(owner.Keys))
      ensures var (t, o) := Establish(old(View()), c.id, c.peerId, dial.remote);
              if o == Done && !dial.waiting
              then View() == Abandon(t, c.id) && outcome == Failed(ConnectionSendError)
              else View() == t && outcome == o
    {
      outcome := EstablishConnection(c.id, c.peerId, dial.remote);
      if outcome == Done && !dial.waiting {
        DropConnection(c.id);
        outcome := Failed(ConnectionSendError);
      }
    }

    method HandleInboundMessage(m: Message) returns (outcome: Outcome)
      requires Valid()
      modifies this, owner.Keys, outboundTx
      ensures Valid() && fresh(owner.Keys - old(owner.Keys))
      ensures var h := HandleInbound(old(View()), m);
              View() == h.node && outcome == h.outcome && outboundTx.sent == old(outboundTx.sent) + h.out
    {
      match m {
        case ConnectionRequest(c) => outcome := HandleConnectionRequest(c);
        case ConnectionResponse(c) => outcome := HandleConnectionResponse(c);
        case Transport(t) => outcome := HandleTransportMessage(t);
      }
    }

    /** The state part of `dial`; the generated id is a parameter. */
    method StartDialing(id: ConnectionId, remote: Recipient) returns (sent: bool)
      requires Valid()
      modifies this`pendingDials, outboundTx
      ensures Valid() && View() == StartDial(old(View()), id, remote)
      ensures sent == old(outboundTx.open)
      ensures outboundTx.sent == old(outboundTx.sent) +
              if sent then [OutboundMessage(DialRequest(old(View()), id), remote)] else []
    {
      pendingDials := pendingDials[id := Dial(remote, true)];
      var request := ConnectionRequest(ConnectionMessage(peerId, id, Some(selfAddress)));
      sent := outboundTx.Send(OutboundMessage(request, remote));
    }

    /** The inbound loop of `poll`: it handles messages until a connection request was
        accepted or a message failed, and reports how many it took off the stream. */
    method Poll(stream: seq<Message>) returns (taken: nat, outcome: Outcome)
      requires Valid()
      modifies this, owner.Keys, outboundTx
      ensures Valid()
      ensures PolledTo(old(View()), old(outboundTx.sent), stream, taken, View(), outboundTx.sent)
      ensures taken < |stream| ==> taken > 0 && !Quiet(old(View()), stream, taken - 1)
      ensures outcome == LastOutcome(old(View()), stream, taken)
    {
      taken, outcome := 0, Done;
      ghost var t0, s0 := View(), outboundTx.sent;
      var going := true;
      while going && taken < |stream|
        invariant Valid() && fresh(owner.Keys - old(owner.Keys))
        invariant PolledTo(t0, s0, stream, taken, View(), outboundTx.sent)
        invariant outcome == LastOutcome(t0, stream, taken)
        invariant going <==> taken == 0 || Quiet(t0, stream, taken - 1)
        decreases |stream| - taken
      {
        var m := stream[taken];
        PolledOn(t0, s0, stream, taken, View(), outboundTx.sent);
        outcome := HandleInboundMessage(m);
        going := outcome == Done && !m.ConnectionRequest?;
        taken := taken + 1;
      }
    }
  }

  /** The node after the messages of `ms`, in order. */
  ghost function InboundRun(t: Node, ms: seq<Message>): Node {
    if ms == [] then t else HandleInbound(InboundRun(t, ms[..|ms| - 1]), ms[|ms| - 1]).node
  }

  /** What the messages of `ms` make the node send, in order. */
  ghost function InboundSends(t: Node, ms: seq<Message>): seq<OutboundMessage> {
    if ms == [] then []
    else InboundSends(t, ms[..|ms| - 1]) + HandleInbound(InboundRun(t, ms[..|ms| - 1]), ms[|ms| - 1]).out
  }

  lemma {:induction false} InboundRunIsNodeRun(t: Node, ms: seq<Message>)
    ensures InboundRun(t, ms) == NodeRun(t, seq(|ms|, i requires 0 <= i < |ms| => Inbound(ms[i])))
  {
    if ms != [] {
      var p := ms[..|ms| - 1];
      InboundRunIsNodeRun(t, p);
      var es := seq(|ms|, i requires 0 <= i < |ms| => Inbound(ms[i]));
      assert es[..|es| - 1] == seq(|p|, i requires 0 <= i < |p| => Inbound(p[i]));
    }
  }

  /** The loop goes on after message `i`. */
  ghost predicate Quiet(t: Node, stream: seq<Message>, i: nat)
    requires i < |stream|
  {
    HandleInbound(InboundRun(t, stream[..i]), stream[i]).outcome == Done && !stream[i].ConnectionRequest?
  }

  /** `taken` messages were handled, all but the last without ending the loop, and what
      they made the node send was sent. */
  ghost predicate PolledTo(t: Node, sent: seq<OutboundMessage>, stream: seq<Message>, taken: nat,
                           t': Node, sent': seq<OutboundMessage>) {
    && taken <= |stream|
    && t' == InboundRun(t, stream[..taken])
    && sent' == sent + InboundSends(t, stream[..taken])
    && forall i | 0 <= i < taken - 1 :: Quiet(t, stream, i)
  }

  ghost function LastOutcome(t: Node, stream: seq<Message>, taken: nat): Outcome
    requires taken <= |stream|
  {
    if taken == 0 then Done else HandleInbound(InboundRun(t, stream[..taken - 1]), stream[taken - 1]).outcome
  }

  /** One more iteration. */
  lemma PolledOn(t: Node, sent: seq<OutboundMessage>, stream: seq<Message>, taken: nat,
                 t': Node, sent': seq<OutboundMessage>)
    requires PolledTo(t, sent, stream, taken, t', sent') && taken < |stream|
    requires taken > 0 ==> Quiet(t, stream, taken - 1)
    ensures var h := HandleInbound(t', stream[taken]);
            && PolledTo(t, sent, stream, taken + 1, h.node, sent' + h.out)
            && LastOutcome(t, stream, taken + 1) == h.outcome
            && (Quiet(t, stream, taken) <==> h.outcome == Done && !stream[taken].ConnectionRequest?)
  {
    assert stream[..taken + 1][..taken] == stream[..taken];
  }
}
