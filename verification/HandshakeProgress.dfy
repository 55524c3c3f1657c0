/** Who the nodes of `Handshake` know each other as, and that a dial can always complete. */
module HandshakeProgress {
  import opened Base
  import opened Messages
  import opened Queue
  import opened Receiver
  import opened TransportSpec
  import opened Handshake

  // ---------------------------------------------------------------- what was sent

  /** Everybody runs, with an open mixnet channel and the identity it started with. */
  ghost predicate Up(w: World, w0: World) {
    && w.nodes.Keys == w0.nodes.Keys
    && forall a | a in w.nodes :: w.nodes[a].outOpen && w.nodes[a].peerId == w0.nodes[a].peerId
  }

  /** The request of a call, as its dialer sends it. */
  function RequestOf(w: World, id: ConnectionId): OutboundMessage
    requires id in w.calls && w.calls[id].dialer in w.nodes
  {
    var call := w.calls[id];
    OutboundMessage(
      ConnectionRequest(ConnectionMessage(w.nodes[call.dialer].peerId, id, Some(call.dialer))), call.target)
  }

  /** The response to a call, as its target sends it. */
  function ResponseOf(w: World, id: ConnectionId): OutboundMessage
    requires id in w.calls && w.calls[id].target in w.nodes
  {
    var call := w.calls[id];
    OutboundMessage(
      ConnectionResponse(ConnectionMessage(w.nodes[call.target].peerId, id, None)), call.dialer)
  }

  /** Nobody sent a nonce-0 message for this connection. */
  ghost predicate NoZeroSent(w: World, id: ConnectionId) {
    forall o | o in w.net && o.message.Transport? && o.message.transport.id == id ::
      o.message.transport.nonce != 0
  }

  /** Every call was asked for, under the dialer's own identity, and nothing else was. */
  ghost predicate RequestsTrue(w: World) {
    && (forall id | id in w.calls :: w.calls[id].dialer in w.nodes && RequestOf(w, id) in w.net)
    && (forall o | o in w.net && o.message.ConnectionRequest? ::
          var id := o.message.request.id;
          id in w.calls && w.calls[id].dialer in w.nodes && o == RequestOf(w, id))
  }

  ghost predicate ResponsesTrue(w: World) {
    forall o | o in w.net && o.message.ConnectionResponse? ::
      var id := o.message.response.id;
      id in w.calls && w.calls[id].target in w.nodes && o == ResponseOf(w, id)
  }

  /** A connected target has answered, unless a nonce-0 message made it panic. */
  ghost predicate AnsweredTrue(w: World) {
    forall id | id in w.calls && w.calls[id].target in w.nodes && id in w.nodes[w.calls[id].target].conns
                && NoZeroSent(w, id) ::
      ResponseOf(w, id) in w.net
  }

  /** A connection knows its remote by the identity the remote has. */
  ghost predicate KnowsRemote(w: World, a: Recipient, id: ConnectionId)
    requires a in w.nodes && id in w.nodes[a].conns
  {
    var c := w.nodes[a].conns[id];
    c.remote in w.nodes && c.peer == w.nodes[c.remote].peerId
  }

  ghost predicate ConnsTrue(w: World) {
    forall a, id | a in w.nodes && id in w.nodes[a].conns :: KnowsRemote(w, a, id)
  }

  /** The queue of a connection that is not up yet expects nonce 0. */
  ghost predicate QueuesWait(w: World) {
    forall a, id | a in w.nodes && id !in w.nodes[a].conns && NoZeroSent(w, id) :: QueueOf(w.nodes[a], id).next == 0
  }

  ghost predicate Honest(w: World) {
    RequestsTrue(w) && ResponsesTrue(w) && AnsweredTrue(w) && ConnsTrue(w) && QueuesWait(w)
  }

  // ---------------------------------------------------------------- steps

  lemma StepKeepsIdentity(w: World, s: Action)
    requires Enabled(w, s)
    ensures var w' := Apply(w, s);
            && w'.nodes.Keys == w.nodes.Keys
            && (forall a | a in w.nodes ::
                  w'.nodes[a].outOpen == w.nodes[a].outOpen && w'.nodes[a].peerId == w.nodes[a].peerId)
            && w.net <= w'.net
            && (forall id | id in w.calls :: id in w'.calls && w'.calls[id] == w.calls[id])
  {
    if s.Delivers? {
      PeerStays(w.nodes[s.at], [Inbound(s.msg)]);
      OutboundStaysOpen(w.nodes[s.at], [Inbound(s.msg)]);
      OneEvent(w.nodes[s.at], Inbound(s.msg));
    }
  }

  lemma OneEvent(t: Node, e: NodeEvent)
    ensures NodeRun(t, [e]) == NodeStep(t, e).node
  {
    assert [e][..0] == [];
  }

  /** What one delivery adds to the network is the answer to an accepted request. */
  lemma DeliverySends(w: World, a: Recipient, m: Message)
    requires Enabled(w, Delivers(a, m))
    ensures var w' := Apply(w, Delivers(a, m));
            forall o | o in w'.net && o !in w.net ::
              && m.ConnectionRequest? && m.request.recipient.Some?
              && o == OutboundMessage(
                        ConnectionResponse(ConnectionMessage(w.nodes[a].peerId, m.request.id, None)),
                        m.request.recipient.value)
  {
    match m {
      case ConnectionRequest(c) => RequestIsAnsweredIff(w.nodes[a], c);
      case ConnectionResponse(c) => ResponseResolvesIff(w.nodes[a], c);
      case Transport(_) =>
    }
  }

  lemma StepKeepsRequests(w: World, s: Action)
    requires Enabled(w, s) && RequestsTrue(w)
    requires forall a | a in w.nodes :: w.nodes[a].address == a
    ensures RequestsTrue(Apply(w, s))
  {
    StepKeepsIdentity(w, s);
    if s.Delivers? {
      DeliverySends(w, s.at, s.msg);
    }
  }

  lemma StepKeepsResponses(w: World, s: Action)
    requires Enabled(w, s) && RequestsTrue(w) && ResponsesTrue(w)
    ensures ResponsesTrue(Apply(w, s))
  {
    StepKeepsIdentity(w, s);
    if s.Delivers? {
      DeliverySends(w, s.at, s.msg);
    }
  }

  /** How an id comes to be connected: through a request, or the response to a dial. */
  lemma NewConnection(w: World, s: Action, a: Recipient, id: ConnectionId)
    requires Enabled(w, s) && a in w.nodes
    requires id !in w.nodes[a].conns && id in Apply(w, s).nodes[a].conns
    ensures s.Delivers? && s.at == a
    ensures var t, c := w.nodes[a], Apply(w, s).nodes[a].conns[id];
            || (s.msg.ConnectionRequest? && s.msg.request.id == id
                && s.msg.request.recipient == Some(c.remote) && c.peer == s.msg.request.peerId)
            || (s.msg.ConnectionResponse? && s.msg.response.id == id && id in t.dials
                && c.remote == t.dials[id].remote && c.peer == s.msg.response.peerId)
  {
    if s.Delivers? && s.at == a {
      InboundEffect(w.nodes[a], s.msg);
      match s.msg {
        case ConnectionRequest(c) => RequestIsAnsweredIff(w.nodes[a], c);
        case ConnectionResponse(c) => ResponseResolvesIff(w.nodes[a], c);
        case Transport(_) =>
      }
    }
  }

  /** An established connection keeps its remote and its peer. */
  lemma ConnectionStays(w: World, s: Action, a: Recipient, id: ConnectionId)
    requires Enabled(w, s) && a in w.nodes && id in w.nodes[a].conns
    ensures var c, t' := w.nodes[a].conns[id], Apply(w, s).nodes[a];
            id in t'.conns && t'.conns[id].remote == c.remote && t'.conns[id].peer == c.peer
  {
    if s.Delivers? && s.at == a {
      match s.msg {
        case ConnectionRequest(c) => RequestKeepsConns(w.nodes[a], c, id);
        case ConnectionResponse(c) => ResponseKeepsConns(w.nodes[a], c, id);
        case Transport(_) =>
      }
    }
  }

  lemma RequestKeepsConns(t: Node, c: ConnectionMessage, id: ConnectionId)
    requires id in t.conns
    ensures var t' := HandleInbound(t, ConnectionRequest(c)).node; id in t'.conns && t'.conns[id] == t.conns[id]
  {
    if c.id != id {
      ForeignEventsDoNothing(t, Inbound(ConnectionRequest(c)), id);
      SliceHasConn(t, HandleInbound(t, ConnectionRequest(c)).node, id);
    }
  }

  lemma ResponseKeepsConns(t: Node, c: ConnectionMessage, id: ConnectionId)
    requires id in t.conns
    ensures var t' := HandleInbound(t, ConnectionResponse(c)).node; id in t'.conns && t'.conns[id] == t.conns[id]
  {
    if c.id != id {
      ForeignEventsDoNothing(t, Inbound(ConnectionResponse(c)), id);
      SliceHasConn(t, HandleInbound(t, ConnectionResponse(c)).node, id);
    }
  }

  lemma SliceHasConn(t: Node, t': Node, id: ConnectionId)
    requires SliceOf(t, id) == SliceOf(t', id) && id in t.conns
    ensures id in t'.conns && t'.conns[id] == t.conns[id]
  {
  }

  lemma StepKeepsConns(w: World, s: Action)
    requires Enabled(w, s) && Inv(w) && Honest(w)
    ensures ConnsTrue(Apply(w, s))
  {
    var w' := Apply(w, s);
    StepKeepsIdentity(w, s);
    forall a, id | a in w'.nodes && id in w'.nodes[a].conns ensures KnowsRemote(w', a, id) {
      if id in w.nodes[a].conns {
        assert KnowsRemote(w, a, id);
        ConnectionStays(w, s, a, id);
      } else {
        NewConnectionIsKnown(w, s, a, id);
      }
    }
  }

  lemma NewConnectionIsKnown(w: World, s: Action, a: Recipient, id: ConnectionId)
    requires Enabled(w, s) && Inv(w) && RequestsTrue(w) && ResponsesTrue(w) && a in w.nodes
    requires id !in w.nodes[a].conns && id in Apply(w, s).nodes[a].conns
    ensures KnowsRemote(Apply(w, s), a, id)
  {
    NewConnection(w, s, a, id);
    StepKeepsIdentity(w, s);
    var o := OutboundMessage(s.msg, a);
    assert o in w.net;
    if s.msg.ConnectionRequest? {
      assert o == RequestOf(w, id);
    } else {
      assert o == ResponseOf(w, id);
      assert DialOk(w, a, id);
    }
  }

  lemma StepKeepsQueues(w: World, s: Action)
    requires Enabled(w, s) && QueuesWait(w)
    ensures QueuesWait(Apply(w, s))
  {
    var w' := Apply(w, s);
    StepKeepsIdentity(w, s);
    forall a, id | a in w'.nodes && id !in w'.nodes[a].conns && NoZeroSent(w', id)
      ensures QueueOf(w'.nodes[a], id).next == 0
    {
      assert NoZeroSent(w, id);
      if id in w.nodes[a].conns { ConnectionStays(w, s, a, id); }
      QueueStepWaits(w, s, a, id);
    }
  }

  lemma QueueStepWaits(w: World, s: Action, a: Recipient, id: ConnectionId)
    requires Enabled(w, s) && a in w.nodes && NoZeroSent(w, id)
    requires id !in w.nodes[a].conns && QueueOf(w.nodes[a], id).next == 0
    requires id !in Apply(w, s).nodes[a].conns
    ensures QueueOf(Apply(w, s).nodes[a], id).next == 0
  {
    if s.Delivers? && s.at == a {
      QueueKeepsWaiting(w.nodes[a], s.msg, id);
    }
  }

  lemma QueueKeepsWaiting(t: Node, m: Message, id: ConnectionId)
    requires id !in t.conns && QueueOf(t, id).next == 0
    requires m.Transport? && m.transport.id == id ==> m.transport.nonce != 0
    requires id !in HandleInbound(t, m).node.conns
    ensures QueueOf(HandleInbound(t, m).node, id).next == 0
  {
    if IdOf(m) != id {
      ForeignEventsDoNothing(t, Inbound(m), id);
      SliceHasLink(t, HandleInbound(t, m).node, id);
    } else if m.Transport? {
      TransportSlice(t, m.transport);
    } else {
      HandshakeLink(t, Inbound(m));
    }
  }

  lemma StepKeepsAnswers(w: World, s: Action)
    requires Enabled(w, s) && Inv(w) && Honest(w)
    requires forall a | a in w.nodes :: w.nodes[a].outOpen
    ensures AnsweredTrue(Apply(w, s))
  {
    var w' := Apply(w, s);
    StepKeepsIdentity(w, s);
    forall id | id in w'.calls && w'.calls[id].target in w'.nodes && id in w'.nodes[w'.calls[id].target].conns
                && NoZeroSent(w', id)
      ensures ResponseOf(w', id) in w'.net
    {
      var b := w'.calls[id].target;
      assert NoZeroSent(w, id);
      if id in w.nodes[b].conns {
        assert ConnOk(w, b, id);
      } else {
        TargetAnswers(w, s, id, b);
      }
    }
  }

  /** A target gets connected by a request only, and sends its response at once. */
  lemma TargetAnswers(w: World, s: Action, id: ConnectionId, b: Recipient)
    requires Enabled(w, s) && Inv(w) && Honest(w) && NoZeroSent(w, id)
    requires b in w.nodes && w.nodes[b].outOpen
    requires id !in w.nodes[b].conns && id in Apply(w, s).nodes[b].conns
    requires id in Apply(w, s).calls && Apply(w, s).calls[id].target == b
    ensures b in Apply(w, s).nodes && ResponseOf(Apply(w, s), id) in Apply(w, s).net
  {
    NewConnection(w, s, b, id);
    StepKeepsIdentity(w, s);
    if s.msg.ConnectionResponse? {
      TargetIsNotAnswered(w, s.msg.response, id, b);
    }
    assert OutboundMessage(s.msg, b) == RequestOf(w, id);
    TakesRequest(w, id);
  }

  /** No response is on its way to a target that is not connected. */
  lemma TargetIsNotAnswered(w: World, c: ConnectionMessage, id: ConnectionId, b: Recipient)
    requires Inv(w) && b in w.nodes && id !in w.nodes[b].conns && c.id == id
    requires id in w.calls && w.calls[id].target == b && id in w.nodes[b].dials
    ensures OutboundMessage(ConnectionResponse(c), b) !in w.net
  {
    var o := OutboundMessage(ConnectionResponse(c), b);
    assert DialOk(w, b, id);
    assert o in w.net ==> ResponseOk(w, o);
  }

  /** A target that is not connected takes the request and answers it. */
  lemma TakesRequest(w: World, id: ConnectionId)
    requires id in w.calls && w.calls[id].dialer in w.nodes && w.calls[id].target in w.nodes
    requires RequestOf(w, id) in w.net && NoZeroSent(w, id) && QueuesWait(w)
    requires var t := w.nodes[w.calls[id].target]; t.outOpen && id !in t.conns
    ensures var s := Delivers(w.calls[id].target, RequestOf(w, id).message);
            var w' := Apply(w, s);
            && ResponseOf(w, id) in w'.net
            && (forall o | o in w'.net && o !in w.net :: o == ResponseOf(w, id))
            && Holds(w', w.calls[id].target, id, w.calls[id].dialer)
            && w'.calls == w.calls && w'.nodes.Keys == w.nodes.Keys
            && (forall a | a in w.nodes && a != w.calls[id].target :: w'.nodes[a] == w.nodes[a])
  {
    var call := w.calls[id];
    assert QueueOf(w.nodes[call.target], id).next == 0;
    RequestIsAnsweredIff(w.nodes[call.target], RequestOf(w, id).message.request);
    var h := HandleInbound(w.nodes[call.target], RequestOf(w, id).message);
    assert h.out == [ResponseOf(w, id)];
  }

  lemma StepKeepsHonest(w: World, s: Action)
    requires Enabled(w, s) && Inv(w) && Honest(w)
    requires forall a | a in w.nodes :: w.nodes[a].outOpen
    ensures Honest(Apply(w, s))
  {
    StepKeepsRequests(w, s);
    StepKeepsResponses(w, s);
    StepKeepsConns(w, s);
    StepKeepsQueues(w, s);
    StepKeepsAnswers(w, s);
  }

  // ---------------------------------------------------------------- whole runs

  lemma {:induction false} RunIsHonest(ws: seq<World>, ss: seq<Action>, i: nat)
    requires IsRun(ws, ss) && i < |ws|
    ensures Up(ws[i], ws[0]) && Honest(ws[i])
  {
    if i > 0 {
      RunIsHonest(ws, ss, i - 1);
      RunKeepsInv(ws, ss, i - 1);
      StepKeepsIdentity(ws[i - 1], ss[i - 1]);
      StepKeepsHonest(ws[i - 1], ss[i - 1]);
    }
  }

  /** Agreement on identities: in every run, whoever holds a connection knows its remote
      by the peer id the remote really has, on both sides. */
  lemma IdentityAgreement(ws: seq<World>, ss: seq<Action>, i: nat, a: Recipient, id: ConnectionId)
    requires IsRun(ws, ss) && i < |ws| && a in ws[i].nodes && id in ws[i].nodes[a].conns
    ensures var c := ws[i].nodes[a].conns[id];
            && c.remote in ws[i].nodes && c.remote in ws[0].nodes
            && c.peer == ws[i].nodes[c.remote].peerId == ws[0].nodes[c.remote].peerId
  {
    RunIsHonest(ws, ss, i);
    assert KnowsRemote(ws[i], a, id);
  }

  // ---------------------------------------------------------------- waiting

  /** The dial future of a pending dial was dropped in step `k`. */
  ghost predicate GivesUp(ws: seq<World>, ss: seq<Action>, k: nat, a: Recipient, id: ConnectionId) {
    k < |ss| && k < |ws| && ss[k] == DropsDial(a, id) && Dialing(ws[k], a, id)
  }

  ghost predicate GaveUp(ws: seq<World>, ss: seq<Action>, i: nat, a: Recipient, id: ConnectionId) {
    exists k: nat :: k < i && GivesUp(ws, ss, k, a, id)
  }

  /** A pending dial is waited for if and only if its future was not dropped. */
  lemma {:induction false} WaitingIff(ws: seq<World>, ss: seq<Action>, i: nat, a: Recipient, id: ConnectionId)
    requires IsRun(ws, ss) && i < |ws|
    ensures Dialing(ws[i], a, id) ==> (ws[i].nodes[a].dials[id].waiting <==> !GaveUp(ws, ss, i, a, id))
    ensures GaveUp(ws, ss, i, a, id) ==> id in ws[i].calls
  {
    if i > 0 {
      var j: nat := i - 1;
      WaitingIff(ws, ss, j, a, id);
      RunKeepsInv(ws, ss, j);
      if GivesUp(ws, ss, j, a, id) {
        assert GaveUp(ws, ss, i, a, id);
        assert DialOk(ws[j], a, id);
      }
      if k: nat :| k < j && GivesUp(ws, ss, k, a, id) { assert GaveUp(ws, ss, i, a, id); }
      assert GaveUp(ws, ss, i, a, id) <==> GaveUp(ws, ss, j, a, id) || GivesUp(ws, ss, j, a, id);
      if Dialing(ws[i], a, id) {
        StepOnDial(ws[j], ss[j], a, id);
      }
      StepKeepsIdentity(ws[j], ss[j]);
    }
  }

  /** What a step does to a pending dial that stays pending. */
  lemma StepOnDial(w: World, s: Action, a: Recipient, id: ConnectionId)
    requires Enabled(w, s) && Dialing(Apply(w, s), a, id)
    ensures var d' := Apply(w, s).nodes[a].dials[id];
            if Dialing(w, a, id) && id in w.calls then
              d'.remote == w.nodes[a].dials[id].remote
              && (d'.waiting <==> w.nodes[a].dials[id].waiting && s != DropsDial(a, id))
            else !Dialing(w, a, id) ==> s.Dials? && s.id == id && id !in w.calls && d'.waiting
  {
    if s.Delivers? {
      InboundEffect(w.nodes[s.at], s.msg);
    }
  }

  // ---------------------------------------------------------------- completing a dial

  /** The steps `more` lead from `w` to `w'`. */
  ghost predicate Leads(w: World, more: seq<Action>, w': World)
    decreases |more|
  {
    if more == [] then w' == w else Enabled(w, more[0]) && Leads(Apply(w, more[0]), more[1..], w')
  }

  /** The dial `id` of `a` to `b` is complete: both ends are connected to each other, know
      each other's identity, and nothing is pending. */
  ghost predicate Completed(w: World, a: Recipient, b: Recipient, id: ConnectionId, alive: bool) {
    && a in w.nodes && b in w.nodes && id !in w.nodes[a].dials
    && Connects(w.nodes[a], id, w.nodes[b].peerId, b, alive)
    && Holds(w, b, id, a) && w.nodes[b].conns[id].peer == w.nodes[a].peerId
  }

  /** The target takes the request, unless it has. */
  lemma AskTarget(w: World, a: Recipient, b: Recipient, id: ConnectionId) returns (more: seq<Action>, w': World)
    requires Inv(w) && Honest(w) && (forall x | x in w.nodes :: w.nodes[x].outOpen)
    requires a != b && b in w.nodes && Dialing(w, a, id) && w.nodes[a].dials[id].remote == b
    requires NoZeroSent(w, id)
    ensures Leads(w, more, w') && Inv(w') && Honest(w') && NoZeroSent(w', id)
    ensures a in w'.nodes && w'.nodes[a] == w.nodes[a] && w'.nodes.Keys == w.nodes.Keys
    ensures w'.nodes[b].peerId == w.nodes[b].peerId
    ensures id in w'.calls && w'.calls[id] == Call(a, b) && Holds(w', b, id, a)
  {
    assert DialOk(w, a, id);
    if id in w.nodes[b].conns {
      more, w' := [], w;
      assert ConnOk(w, b, id);
    } else {
      var s := Delivers(b, RequestOf(w, id).message);
      more, w' := [s], Apply(w, s);
      LeadsOne(w, s);
      assert Inv(w') && Honest(w') by {
        StepKeepsInv(w, s);
        StepKeepsHonest(w, s);
      }
      Asked(w, a, b, id);
    }
  }

  lemma LeadsOne(w: World, s: Action)
    requires Enabled(w, s)
    ensures Leads(w, [s], Apply(w, s))
  {
    assert Leads(w, [], w) && [] + [s] == [s];
    LeadsOn(w, [], w, s);
  }

  /** Where the target's taking the request leads. */
  lemma Asked(w: World, a: Recipient, b: Recipient, id: ConnectionId)
    requires RequestsTrue(w) && QueuesWait(w) && NoZeroSent(w, id)
    requires a != b && a in w.nodes && b in w.nodes && w.nodes[b].outOpen && id !in w.nodes[b].conns
    requires id in w.calls && w.calls[id] == Call(a, b)
    ensures var s := Delivers(b, RequestOf(w, id).message);
            && Enabled(w, s)
            && var w' := Apply(w, s);
               && NoZeroSent(w', id)
               && a in w'.nodes && w'.nodes[a] == w.nodes[a] && w'.nodes.Keys == w.nodes.Keys
               && w'.nodes[b].peerId == w.nodes[b].peerId
               && w'.calls == w.calls && Holds(w', b, id, a)
  {
    StepKeepsIdentity(w, Delivers(b, RequestOf(w, id).message));
    TakesRequest(w, id);
  }

  /** The dialer takes the response. */
  lemma TakeResponse(w: World, a: Recipient, b: Recipient, id: ConnectionId)
    requires AnsweredTrue(w) && ConnsTrue(w) && QueuesWait(w)
    requires a != b && b in w.nodes && Dialing(w, a, id) && id !in w.nodes[a].conns
    requires w.nodes[a].dials[id].remote == b && id in w.calls && w.calls[id] == Call(a, b)
    requires Holds(w, b, id, a) && NoZeroSent(w, id)
    ensures var s := Delivers(a, ResponseOf(w, id).message);
            Enabled(w, s) && Completed(Apply(w, s), a, b, id, w.nodes[a].dials[id].waiting)
  {
    var c := ResponseOf(w, id).message.response;
    assert ResponseOf(w, id) in w.net && ResponseOf(w, id).recipient == a;
    assert KnowsRemote(w, b, id);
    assert QueueOf(w.nodes[a], id).next == 0;
    ResponseResolvesIff(w.nodes[a], c);
    StepKeepsIdentity(w, Delivers(a, ConnectionResponse(c)));
  }

  /** Progress of the handshake: from any moment of any run, a pending dial of another
      node that is up has a continuation that completes it on both sides, provided nobody
      used nonce 0 for it; the connection is handed over if and only if the dial is still
      waited for. */
  lemma DialCanComplete(ws: seq<World>, ss: seq<Action>, i: nat, a: Recipient, b: Recipient, id: ConnectionId)
    returns (more: seq<Action>, w': World)
    requires IsRun(ws, ss) && i < |ws| && a != b && b in ws[i].nodes
    requires Dialing(ws[i], a, id) && ws[i].nodes[a].dials[id].remote == b
    requires NoZeroSent(ws[i], id)
    ensures Leads(ws[i], more, w')
    ensures Completed(w', a, b, id, !GaveUp(ws, ss, i, a, id))
  {
    var w := ws[i];
    RunKeepsInv(ws, ss, i);
    RunIsHonest(ws, ss, i);
    WaitingIff(ws, ss, i, a, id);
    assert DialOk(w, a, id);
    var first, w1 := AskTarget(w, a, b, id);
    TakeResponse(w1, a, b, id);
    var s := Delivers(a, ResponseOf(w1, id).message);
    LeadsOn(w, first, w1, s);
    more, w' := first + [s], Apply(w1, s);
  }

  lemma {:induction false} LeadsOn(w: World, more: seq<Action>, w1: World, s: Action)
    requires Leads(w, more, w1) && Enabled(w1, s)
    ensures Leads(w, more + [s], Apply(w1, s))
    decreases |more|
  {
    if more == [] {
      assert more + [s] == [s] && [s][1..] == [];
      assert Leads(Apply(w1, s), [], Apply(w1, s));
    } else {
      LeadsOn(Apply(w, more[0]), more[1..], w1, s);
      assert (more + [s])[1..] == more[1..] + [s];
    }
  }
}
