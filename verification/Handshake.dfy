/** Many nodes dialing each other over a network that may delay, reorder, duplicate and
    lose messages: what the handshake of src/transport.rs agrees on in every run. */
module Handshake {
  import opened Base
  import opened Messages
  import opened Receiver
  import opened TransportSpec

  datatype Call = Call(dialer: Recipient, target: Recipient)

  /** `net` is everything ever sent; `calls` records who dialed whom under which id. */
  datatype World = World(
    nodes: map<Recipient, Node>,
    net: set<OutboundMessage>,
    calls: map<ConnectionId, Call>)

  datatype Action =
    | Dials(at: Recipient, id: ConnectionId, target: Recipient)
    | Delivers(at: Recipient, msg: Message)
    | Sends(target: Recipient, traffic: TransportMessage)
    | DropsDial(at: Recipient, id: ConnectionId)
    | DropsConnection(at: Recipient, id: ConnectionId)

  ghost predicate Init(w: World) {
    && (forall a | a in w.nodes :: exists p: PeerId :: w.nodes[a] == NewNode(a, p))
    && w.net == {}
    && w.calls == map[]
  }

  /** Ids are fresh when dialed; any address may be dialed, one's own included; transport
      traffic is arbitrary. */
  predicate Enabled(w: World, s: Action) {
    match s
    case Dials(a, id, target) => a in w.nodes && id !in w.calls
    case Delivers(a, m) => a in w.nodes && OutboundMessage(m, a) in w.net
    case Sends(_, _) => true
    case DropsDial(a, _) => a in w.nodes
    case DropsConnection(a, _) => a in w.nodes
  }

  function Apply(w: World, s: Action): World
    requires Enabled(w, s)
  {
    match s
    case Dials(a, id, target) =>
      World(
        w.nodes[a := StartDial(w.nodes[a], id, target)],
        w.net + {OutboundMessage(DialRequest(w.nodes[a], id), target)},
        w.calls[id := Call(a, target)])
    case Delivers(a, m) =>
      var h := HandleInbound(w.nodes[a], m);
      w.(nodes := w.nodes[a := h.node], net := w.net + (set o | o in h.out))
    case Sends(target, t) => w.(net := w.net + {OutboundMessage(Transport(t), target)})
    case DropsDial(a, id) => w.(nodes := w.nodes[a := NodeStep(w.nodes[a], DialDropped(id)).node])
    case DropsConnection(a, id) => w.(nodes := w.nodes[a := NodeStep(w.nodes[a], ConnectionDropped(id)).node])
  }

  // ---------------------------------------------------------------- what one node does

  /** The handshake effect of one inbound message on one node: connections stay, dials
      only go when a response turns them into connections, and nothing else is sent. */
  ghost predicate Effect(t: Node, m: Message, h: Handled) {
    && h.node.address == t.address
    && (forall j | j in t.conns :: j in h.node.conns && h.node.conns[j].remote == t.conns[j].remote)
    && (forall j | j in h.node.dials :: j in t.dials && h.node.dials[j] == t.dials[j])
    && (forall j | j in t.dials && j !in h.node.dials ::
          && m.ConnectionResponse? && m.response.id == j && j !in t.conns
          && j in h.node.conns && h.node.conns[j].remote == t.dials[j].remote)
    && (forall j | j in h.node.conns && j !in t.conns :: Joined(t, m, h.node, j))
    && (forall o | o in h.out :: Answered(t, m, h.node, o))
  }

  lemma RequestEffect(t: Node, c: ConnectionMessage)
    ensures Effect(t, ConnectionRequest(c), HandleRequest(t, c))
  {
    if c.recipient.Some? && c.id !in t.conns {
      var (t', o) := Establish(t, c.id, c.peerId, c.recipient.value);
      assert t'.conns[c.id].remote == c.recipient.value;
    }
  }

  lemma ResponseEffect(t: Node, c: ConnectionMessage)
    ensures Effect(t, ConnectionResponse(c), HandleResponse(t, c))
  {
    if c.id !in t.conns && c.id in t.dials {
      var (t', o) := Establish(t.(dials := t.dials - {c.id}), c.id, c.peerId, t.dials[c.id].remote);
      assert t'.conns[c.id].remote == t.dials[c.id].remote;
    }
  }

  lemma TransportEffect(t: Node, m: TransportMessage)
    ensures Effect(t, Transport(m), HandleTransport(t, m))
  {
  }

  lemma InboundEffect(t: Node, m: Message)
    ensures Effect(t, m, HandleInbound(t, m))
  {
    match m {
      case ConnectionRequest(c) => RequestEffect(t, c);
      case ConnectionResponse(c) => ResponseEffect(t, c);
      case Transport(x) => TransportEffect(t, x);
    }
  }

  /** How an id gets established: by a request naming its sender, or by the response to
      a pending dial, which is thereby resolved. */
  ghost predicate Joined(t: Node, m: Message, t': Node, j: ConnectionId)
    requires j in t'.conns
  {
    || (m.ConnectionRequest? && m.request.id == j && m.request.recipient == Some(t'.conns[j].remote))
    || (m.ConnectionResponse? && m.response.id == j && j in t.dials && t'.conns[j].remote == t.dials[j].remote
        && j !in t'.dials)
  }

  /** The only thing a node answers is a request it has just accepted. */
  ghost predicate Answered(t: Node, m: Message, t': Node, o: OutboundMessage) {
    && m.ConnectionRequest?
    && o.message.ConnectionResponse? && o.message.response.id == m.request.id
    && m.request.id in t'.conns && t'.conns[m.request.id].remote == o.recipient
  }

  // ---------------------------------------------------------------- the invariant

  ghost predicate RequestOk(w: World, o: OutboundMessage) {
    o.message.ConnectionRequest? ==>
      var c := o.message.request;
      c.id in w.calls && w.calls[c.id].target == o.recipient && c.recipient == Some(w.calls[c.id].dialer)
  }

  /** `a` holds connection `id` towards `remote`. */
  ghost predicate Holds(w: World, a: Recipient, id: ConnectionId, remote: Recipient) {
    a in w.nodes && id in w.nodes[a].conns && w.nodes[a].conns[id].remote == remote
  }

  ghost predicate ResponseOk(w: World, o: OutboundMessage) {
    o.message.ConnectionResponse? ==>
      var id := o.message.response.id;
      id in w.calls && w.calls[id].dialer == o.recipient && Holds(w, w.calls[id].target, id, o.recipient)
  }

  ghost predicate DialOk(w: World, a: Recipient, id: ConnectionId)
    requires a in w.nodes && id in w.nodes[a].dials
  {
    && id in w.calls && w.calls[id] == Call(a, w.nodes[a].dials[id].remote)
    && (id in w.nodes[a].conns ==> w.calls[id] == Call(a, a))
  }

  ghost predicate ConnOk(w: World, a: Recipient, id: ConnectionId)
    requires a in w.nodes && id in w.nodes[a].conns
  {
    && id in w.calls
    && (if a == w.calls[id].dialer
        then Holds(w, a, id, w.calls[id].target) && Holds(w, w.calls[id].target, id, a)
        else a == w.calls[id].target && Holds(w, a, id, w.calls[id].dialer))
  }

  /** `a` still waits for the response to its dial `id`. */
  ghost predicate Dialing(w: World, a: Recipient, id: ConnectionId) {
    a in w.nodes && id in w.nodes[a].dials
  }

  /** A node that dialed itself never stops waiting. */
  ghost predicate SelfDialsWait(w: World) {
    forall id | id in w.calls && w.calls[id].dialer == w.calls[id].target :: Dialing(w, w.calls[id].dialer, id)
  }

  ghost predicate Inv(w: World) {
    && (forall a | a in w.nodes :: w.nodes[a].address == a)
    && SelfDialsWait(w)
    && (forall o | o in w.net :: RequestOk(w, o) && ResponseOk(w, o))
    && (forall a, id | a in w.nodes && id in w.nodes[a].dials :: DialOk(w, a, id))
    && (forall a, id | a in w.nodes && id in w.nodes[a].conns :: ConnOk(w, a, id))
  }

  /** Established connections keep their remote in every step. */
  lemma HoldsForever(w: World, s: Action, a: Recipient, id: ConnectionId, remote: Recipient)
    requires Enabled(w, s) && Holds(w, a, id, remote)
    ensures Holds(Apply(w, s), a, id, remote)
  {
    if s.Delivers? {
      InboundEffect(w.nodes[s.at], s.msg);
    }
  }

  lemma HoldAll(w: World, s: Action)
    requires Enabled(w, s)
    ensures forall a, id, r | Holds(w, a, id, r) :: Holds(Apply(w, s), a, id, r)
  {
    forall a, id, r | Holds(w, a, id, r) ensures Holds(Apply(w, s), a, id, r) {
      HoldsForever(w, s, a, id, r);
    }
  }

  lemma DialKeepsInv(w: World, s: Action)
    requires Inv(w) && s.Dials? && Enabled(w, s)
    ensures Inv(Apply(w, s))
  {
    HoldAll(w, s);
    var w' := Apply(w, s);
    forall o | o in w'.net ensures RequestOk(w', o) && ResponseOk(w', o) {
      if o in w.net { assert RequestOk(w, o) && ResponseOk(w, o); }
    }
    forall a, id | a in w'.nodes && id in w'.nodes[a].dials ensures DialOk(w', a, id) {
      assert id in w.nodes[a].conns ==> ConnOk(w, a, id);
      assert id in w.nodes[a].dials ==> DialOk(w, a, id);
    }
    forall a, id | a in w'.nodes && id in w'.nodes[a].conns ensures ConnOk(w', a, id) {
      assert ConnOk(w, a, id);
    }
  }

  lemma DeliveryKeepsConns(w: World, s: Action)
    requires Inv(w) && s.Delivers? && Enabled(w, s)
    ensures var w' := Apply(w, s);
            forall a, id | a in w'.nodes && id in w'.nodes[a].conns :: ConnOk(w', a, id)
  {
    HoldAll(w, s);
    var w' := Apply(w, s);
    InboundEffect(w.nodes[s.at], s.msg);
    assert RequestOk(w, OutboundMessage(s.msg, s.at)) && ResponseOk(w, OutboundMessage(s.msg, s.at));
    forall a, id | a in w'.nodes && id in w'.nodes[a].conns ensures ConnOk(w', a, id) {
      if id in w.nodes[a].conns {
        assert ConnOk(w, a, id);
      } else {
        assert Joined(w.nodes[a], s.msg, w'.nodes[a], id);
        if s.msg.ConnectionResponse? { assert DialOk(w, a, id); }
      }
    }
  }

  /** A request that finds its own dial pending was sent by the node it reached. */
  lemma DeliveryKeepsDials(w: World, s: Action)
    requires Inv(w) && s.Delivers? && Enabled(w, s)
    ensures var w' := Apply(w, s);
            forall a, id | a in w'.nodes && id in w'.nodes[a].dials :: DialOk(w', a, id)
    ensures SelfDialsWait(Apply(w, s))
  {
    var w' := Apply(w, s);
    InboundEffect(w.nodes[s.at], s.msg);
    assert RequestOk(w, OutboundMessage(s.msg, s.at)) && ResponseOk(w, OutboundMessage(s.msg, s.at));
    forall a, id | a in w'.nodes && id in w'.nodes[a].dials ensures DialOk(w', a, id) {
      assert DialOk(w, a, id);
      if id in w'.nodes[a].conns && id !in w.nodes[a].conns {
        assert Joined(w.nodes[a], s.msg, w'.nodes[a], id);
      }
    }
    forall id | id in w'.calls && w'.calls[id].dialer == w'.calls[id].target
      ensures Dialing(w', w'.calls[id].dialer, id)
    {
      SelfDialSurvives(w, s, id);
    }
  }

  /** The response to a dial of one's own address comes too late: its request has
      already established the connection. */
  lemma SelfDialSurvives(w: World, s: Action, id: ConnectionId)
    requires Inv(w) && s.Delivers? && Enabled(w, s)
    requires id in w.calls && w.calls[id].dialer == w.calls[id].target
    ensures Dialing(Apply(w, s), w.calls[id].dialer, id)
  {
    var a := w.calls[id].dialer;
    assert Dialing(w, a, id);
    InboundEffect(w.nodes[s.at], s.msg);
    assert ResponseOk(w, OutboundMessage(s.msg, s.at));
  }

  lemma DeliveryKeepsInv(w: World, s: Action)
    requires Inv(w) && s.Delivers? && Enabled(w, s)
    ensures Inv(Apply(w, s))
  {
    HoldAll(w, s);
    var w', h := Apply(w, s), HandleInbound(w.nodes[s.at], s.msg);
    InboundEffect(w.nodes[s.at], s.msg);
    DeliveryKeepsConns(w, s);
    DeliveryKeepsDials(w, s);
    assert RequestOk(w, OutboundMessage(s.msg, s.at));
    forall o | o in w'.net ensures RequestOk(w', o) && ResponseOk(w', o) {
      if o in w.net {
        assert RequestOk(w, o) && ResponseOk(w, o);
      } else {
        assert Answered(w.nodes[s.at], s.msg, h.node, o);
      }
    }
  }

  lemma StepKeepsInv(w: World, s: Action)
    requires Inv(w) && Enabled(w, s)
    ensures Inv(Apply(w, s))
  {
    match s {
      case Dials(_, _, _) => DialKeepsInv(w, s);
      case Delivers(_, _) => DeliveryKeepsInv(w, s);
      case Sends(_, _) => TrafficKeepsInv(w, s);
      case _ => DroppingKeepsInv(w, s);
    }
  }

  lemma TrafficKeepsInv(w: World, s: Action)
    requires Inv(w) && s.Sends?
    ensures Inv(Apply(w, s))
  {
    var w' := Apply(w, s);
    forall o | o in w'.net ensures RequestOk(w', o) && ResponseOk(w', o) {
      if o in w.net { assert RequestOk(w, o) && ResponseOk(w, o); }
    }
    forall a, id | a in w'.nodes && id in w'.nodes[a].dials ensures DialOk(w', a, id) {
      assert DialOk(w, a, id);
    }
    forall a, id | a in w'.nodes && id in w'.nodes[a].conns ensures ConnOk(w', a, id) {
      assert ConnOk(w, a, id);
    }
    assert forall a, id :: Dialing(w', a, id) <==> Dialing(w, a, id);
  }

  lemma DroppingKeepsInv(w: World, s: Action)
    requires Inv(w) && (s.DropsDial? || s.DropsConnection?) && Enabled(w, s)
    ensures Inv(Apply(w, s))
  {
    HoldAll(w, s);
    var w' := Apply(w, s);
    forall o | o in w'.net ensures RequestOk(w', o) && ResponseOk(w', o) {
      assert RequestOk(w, o) && ResponseOk(w, o);
    }
    forall a, id | a in w'.nodes && id in w'.nodes[a].dials ensures DialOk(w', a, id) {
      assert DialOk(w, a, id);
    }
    forall a, id | a in w'.nodes && id in w'.nodes[a].conns ensures ConnOk(w', a, id) {
      assert ConnOk(w, a, id);
    }
    assert forall a, id :: Dialing(w', a, id) <==> Dialing(w, a, id);
  }

  // ---------------------------------------------------------------- whole runs

  ghost predicate IsRun(ws: seq<World>, ss: seq<Action>) {
    && |ws| == |ss| + 1
    && Init(ws[0])
    && forall i | 0 <= i < |ss| :: Enabled(ws[i], ss[i]) && ws[i + 1] == Apply(ws[i], ss[i])
  }

  lemma {:induction false} RunKeepsInv(ws: seq<World>, ss: seq<Action>, i: nat)
    requires IsRun(ws, ss) && i < |ws|
    ensures Inv(ws[i])
  {
    if i > 0 {
      RunKeepsInv(ws, ss, i - 1);
      StepKeepsInv(ws[i - 1], ss[i - 1]);
    }
  }

  /** Handshake agreement: at every moment of every run, a dialer that has established a
      connection is matched by the listener it dialed, with the same id and the dialer's
      own address as remote. A node connected under an id still dials under it if and
      only if it dialed itself. */
  lemma Agreement(ws: seq<World>, ss: seq<Action>, i: nat, a: Recipient, id: ConnectionId)
    requires IsRun(ws, ss) && i < |ws| && a in ws[i].nodes
    ensures id in ws[i].nodes[a].conns ==>
              && id in ws[i].calls
              && a in {ws[i].calls[id].dialer, ws[i].calls[id].target}
              && (a == ws[i].calls[id].dialer ==>
                    Holds(ws[i], a, id, ws[i].calls[id].target) && Holds(ws[i], ws[i].calls[id].target, id, a))
              && (id in ws[i].nodes[a].dials <==> ws[i].calls[id] == Call(a, a))
  {
    RunKeepsInv(ws, ss, i);
    if id in ws[i].nodes[a].conns { assert ConnOk(ws[i], a, id); }
    if id in ws[i].nodes[a].dials { assert DialOk(ws[i], a, id); }
  }

  lemma {:induction false} HeldThroughRun(ws: seq<World>, ss: seq<Action>, i: nat, j: nat,
                                          a: Recipient, id: ConnectionId, r: Recipient)
    requires IsRun(ws, ss) && i <= j < |ws| && Holds(ws[i], a, id, r)
    ensures Holds(ws[j], a, id, r)
  {
    if i < j {
      HeldThroughRun(ws, ss, i, j - 1, a, id, r);
      HoldsForever(ws[j - 1], ss[j - 1], a, id, r);
    }
  }

  /** Step `i` resolves the dial `id` pending at `a`. */
  ghost predicate Resolves(ws: seq<World>, i: nat, a: Recipient, id: ConnectionId)
    requires i + 1 < |ws|
  {
    && a in ws[i].nodes && a in ws[i + 1].nodes
    && id in ws[i].nodes[a].dials && id !in ws[i + 1].nodes[a].dials
  }

  lemma ResolvingConnects(ws: seq<World>, ss: seq<Action>, i: nat, a: Recipient, id: ConnectionId)
    requires IsRun(ws, ss) && i < |ss| && Resolves(ws, i, a, id)
    ensures Holds(ws[i + 1], a, id, ws[i].nodes[a].dials[id].remote)
  {
    var t := ws[i].nodes[a];
    assert Enabled(ws[i], ss[i]) && ws[i + 1] == Apply(ws[i], ss[i]);
    RunKeepsInv(ws, ss, i);
    assert DialOk(ws[i], a, id);
    assert ss[i].Delivers? && ss[i].at == a;
    InboundEffect(t, ss[i].msg);
  }

  /** A call keeps its two ends for the rest of the run. */
  lemma {:induction false} CallsStay(ws: seq<World>, ss: seq<Action>, i: nat, j: nat, id: ConnectionId)
    requires IsRun(ws, ss) && i <= j < |ws| && id in ws[i].calls
    ensures id in ws[j].calls && ws[j].calls[id] == ws[i].calls[id]
  {
    if i < j {
      CallsStay(ws, ss, i, j - 1, id);
      assert Enabled(ws[j - 1], ss[j - 1]) && ws[j] == Apply(ws[j - 1], ss[j - 1]);
    }
  }

  /** A dial that was resolved was not one's own address. */
  lemma ResolvedIsNoSelfDial(ws: seq<World>, ss: seq<Action>, i: nat, a: Recipient, id: ConnectionId)
    requires IsRun(ws, ss) && i < |ss| && Resolves(ws, i, a, id)
    ensures id in ws[i + 1].calls && ws[i + 1].calls[id] != Call(a, a)
  {
    RunKeepsInv(ws, ss, i);
    assert DialOk(ws[i], a, id);
    CallsStay(ws, ss, i, i + 1, id);
    RunKeepsInv(ws, ss, i + 1);
    assert !Dialing(ws[i + 1], a, id);
  }

  /** Every pending dial is resolved at most once, and stays connected from then on. */
  lemma ResolvedAtMostOnce(ws: seq<World>, ss: seq<Action>, i: nat, j: nat, a: Recipient, id: ConnectionId)
    requires IsRun(ws, ss) && i < j < |ss| && Resolves(ws, i, a, id)
    ensures !Resolves(ws, j, a, id)
    ensures Holds(ws[j], a, id, ws[i].nodes[a].dials[id].remote)
  {
    ResolvingConnects(ws, ss, i, a, id);
    HeldThroughRun(ws, ss, i + 1, j, a, id, ws[i].nodes[a].dials[id].remote);
    ResolvedIsNoSelfDial(ws, ss, i, a, id);
    CallsStay(ws, ss, i + 1, j, id);
    Agreement(ws, ss, j, a, id);
  }

  /** The dial of one's own address is never resolved: it stays pending in every
      continuation, whatever is delivered. */
  lemma SelfDialNeverResolves(ws: seq<World>, ss: seq<Action>, i: nat, j: nat, a: Recipient, id: ConnectionId)
    requires IsRun(ws, ss) && i <= j < |ws| && id in ws[i].calls && ws[i].calls[id] == Call(a, a)
    ensures a in ws[j].nodes && id in ws[j].nodes[a].dials
    ensures j < |ss| ==> !Resolves(ws, j, a, id)
  {
    CallsStay(ws, ss, i, j, id);
    RunKeepsInv(ws, ss, j);
    assert Dialing(ws[j], a, id);
    if j < |ss| {
      CallsStay(ws, ss, i, j + 1, id);
      RunKeepsInv(ws, ss, j + 1);
      assert Dialing(ws[j + 1], a, id);
    }
  }

  /** Any other pending dial is resolved as soon as a response to it is delivered. */
  lemma ResponseResolves(ws: seq<World>, ss: seq<Action>, i: nat, a: Recipient, c: ConnectionMessage)
    requires IsRun(ws, ss) && i < |ss| && ss[i] == Delivers(a, ConnectionResponse(c))
    requires Dialing(ws[i], a, c.id)
    ensures c.id in ws[i].calls
    ensures Resolves(ws, i, a, c.id) <==> ws[i].calls[c.id] != Call(a, a)
  {
    assert Enabled(ws[i], ss[i]) && ws[i + 1] == Apply(ws[i], ss[i]);
    RunKeepsInv(ws, ss, i);
    assert DialOk(ws[i], a, c.id);
    assert ResponseOk(ws[i], OutboundMessage(ConnectionResponse(c), a));
    ResponseEffect(ws[i].nodes[a], c);
    if ws[i].calls[c.id] == Call(a, a) {
      SelfDialNeverResolves(ws, ss, i, i, a, c.id);
    }
  }

  /** The failing input, as a run: a node dials itself, and its own request comes back.
      It is then both connected and dialing under one id. */
  lemma SelfDialRun(a: Recipient, peer: PeerId, id: ConnectionId) returns (ws: seq<World>, ss: seq<Action>)
    ensures IsRun(ws, ss) && |ss| == 2 && ss[0] == Dials(a, id, a)
    ensures a in ws[2].nodes && id in ws[2].nodes[a].dials && id in ws[2].nodes[a].conns
  {
    var w0 := World(map[a := NewNode(a, peer)], {}, map[]);
    var request := DialRequest(w0.nodes[a], id);
    ss := [Dials(a, id, a), Delivers(a, request)];
    var w1 := Apply(w0, ss[0]);
    var w2 := Apply(w1, ss[1]);
    ws := [w0, w1, w2];
    RequestEffect(w1.nodes[a], request.request);
  }
}
