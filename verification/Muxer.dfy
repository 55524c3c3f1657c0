/** The substream multiplexer of src/connection.rs as a value: its handling of inbound
    messages, and the bookkeeping every run keeps. */
module MuxerSpec {
  import opened Base
  import opened Messages
  import opened SubstreamSpec

  /** Sending half of a substream's data channel; `alive` is false once the `Substream`
      holding the other half was dropped. */
  datatype TxEnd = TxEnd(sent: seq<Chunk>, alive: bool)

  /** The collections of a `Connection`. A close sender maps to whether its receiver lives. */
  datatype Mux = Mux(
    pending: set<SubstreamId>,
    txs: map<SubstreamId, TxEnd>,
    closeTxs: map<SubstreamId, bool>,
    inboundOpen: seq<SubstreamId>,
    closedIds: seq<SubstreamId>)

  const NEW_MUX := Mux({}, map[], map[], [], [])

  /** The `expect` of the Data branch and the two `unwrap`s of `handle_close`. */
  datatype Fault = NoChannelForData | NoCloseSender | CloseReceiverGone

  datatype MuxOutcome = Continue | Respond | Fails(error: Error) | Panics(fault: Fault)

  /** `new_substream`, once the id was found free. */
  function Create(m: Mux, s: SubstreamId): Mux {
    m.(txs := m.txs[s := TxEnd([], true)], closeTxs := m.closeTxs[s := true])
  }

  /** The same for a substream we asked for, pending until the peer answers. */
  function CreatePending(m: Mux, s: SubstreamId): Mux {
    Create(m, s).(pending := m.pending + {s})
  }

  /** The `Substream` value of `s` goes out of scope. */
  function DropEnd(m: Mux, s: SubstreamId): Mux {
    m.(txs := if s in m.txs then m.txs[s := m.txs[s].(alive := false)] else m.txs,
       closeTxs := if s in m.closeTxs then m.closeTxs[s := false] else m.closeTxs)
  }

  /** One iteration of `poll` up to the nonce: `Respond` asks for an OpenResponse. */
  function Route(m: Mux, msg: SubstreamMessage): (Mux, MuxOutcome) {
    var s := msg.substreamId;
    match msg.messageType
    case OpenRequest =>
      if s in m.txs then (m, Fails(SubstreamIdExists(s))) else (Create(m, s), Respond)
    case OpenResponse => (m.(pending := m.pending - {s}), Continue)
    case Close =>
      if s !in m.txs then (m, Fails(SubstreamIdDoesNotExist(s)))
      else
        var m1 := m.(txs := m.txs - {s}, closeTxs := m.closeTxs - {s});
        if s !in m.closeTxs then (m1, Panics(NoCloseSender))
        else if !m.closeTxs[s] then (m1, Panics(CloseReceiverGone))
        else (m1.(closedIds := m.closedIds + [s]), Continue)
    case Data(d) =>
      if s !in m.txs then (m, Panics(NoChannelForData))
      else
        var tx := m.txs[s];
        (m.(txs := m.txs[s := if tx.alive then tx.(sent := tx.sent + [d]) else tx]), Continue)
  }

  // ---------------------------------------------------------------- a whole connection

  datatype ConnState = ConnState(
    id: ConnectionId, remote: Recipient, mux: Mux, nonce: u64, sent: seq<OutboundMessage>, open: bool)

  function Envelope(c: ConnState, m: SubstreamMessage): OutboundMessage {
    OutboundMessage(Transport(TransportMessage(c.nonce, m, c.id)), c.remote)
  }

  /** Take a nonce and send, if the mixnet channel is open. */
  function Emit(c: ConnState, m: SubstreamMessage): ConnState {
    c.(nonce := WrappingSucc(c.nonce), sent := if c.open then c.sent + [Envelope(c, m)] else c.sent)
  }

  /** One iteration of `poll`. */
  function PollOne(c: ConnState, msg: SubstreamMessage): (ConnState, MuxOutcome) {
    var (m, o) := Route(c.mux, msg);
    if !o.Respond? then (c.(mux := m), o)
    else
      var s := msg.substreamId;
      var c1 := Emit(c, SubstreamMessage(s, OpenResponse));
      if c.open then (c1.(mux := m.(inboundOpen := m.inboundOpen + [s])), Continue)
      else (c1.(mux := DropEnd(m, s)), Fails(OutboundSendError))
  }

  /** The `while let` loop of `poll`: how far it got, and what stopped it. */
  function PollAll(c: ConnState, msgs: seq<SubstreamMessage>): (r: (ConnState, nat, MuxOutcome))
    ensures r.1 <= |msgs|
    decreases |msgs|
  {
    if msgs == [] then (c, 0, Continue)
    else
      var (c1, o) := PollOne(c, msgs[0]);
      if o != Continue then (c1, 1, o)
      else
        var (c2, n, o2) := PollAll(c1, msgs[1..]);
        (c2, n + 1, o2)
  }

  /** `new_outbound_substream` with the generated id as a parameter. */
  function OpenOutbound(c: ConnState, s: SubstreamId): (ConnState, Option<Error>) {
    var c1 := Emit(c, SubstreamMessage(s, OpenRequest));
    if !c.open then (c1, Some(OutboundSendError))
    else if s in c.mux.txs then (c1, Some(SubstreamIdExists(s)))
    else (c1.(mux := CreatePending(c.mux, s)), None)
  }

  // ---------------------------------------------------------------- runs

  datatype ConnOp =
    | Inbound(msg: SubstreamMessage)
    | OpenNew(id: SubstreamId)
    | PollInbound                       // the application takes the next inbound substream
    | PollClosing                       // the application hears of the next closed substream
    | Drops(id: SubstreamId)            // the application drops a substream
    | SubstreamSends(msg: SubstreamMessage)

  /** A connection with what happened: requests it accepted, substreams it handed out,
      closes it processed, and closes it told the application of. */
  datatype ConnTrace = ConnTrace(
    c: ConnState,
    accepted: seq<SubstreamId>,
    handed: seq<SubstreamId>,
    closed: seq<SubstreamId>,
    reported: seq<SubstreamId>)

  predicate Sends(op: ConnOp) {
    op.SubstreamSends? ==> op.msg.messageType.Data? || op.msg.messageType.Close?
  }

  function ConnStep(t: ConnTrace, op: ConnOp): ConnTrace {
    match op
    case Inbound(msg) =>
      var ((c, o), one) := (PollOne(t.c, msg), [msg.substreamId]);
      t.(c := c,
         accepted := t.accepted + if msg.messageType.OpenRequest? && o == Continue then one else [],
         closed := t.closed + if msg.messageType.Close? && o == Continue then one else [])
    case OpenNew(s) => t.(c := OpenOutbound(t.c, s).0)
    case PollInbound =>
      var q := t.c.mux.inboundOpen;
      if q == [] then t
      else t.(c := t.c.(mux := t.c.mux.(inboundOpen := q[1..])), handed := t.handed + [q[0]])
    case PollClosing =>
      var q := t.c.mux.closedIds;
      if q == [] then t
      else t.(c := t.c.(mux := t.c.mux.(closedIds := q[1..])), reported := t.reported + [q[0]])
    case Drops(s) => t.(c := t.c.(mux := DropEnd(t.c.mux, s)))
    case SubstreamSends(msg) => t.(c := Emit(t.c, msg))
  }

  function ConnRun(t: ConnTrace, ops: seq<ConnOp>): ConnTrace {
    if ops == [] then t else ConnStep(ConnRun(t, ops[..|ops| - 1]), ops[|ops| - 1])
  }

  function NewConn(id: ConnectionId, remote: Recipient): ConnTrace {
    ConnTrace(ConnState(id, remote, NEW_MUX, 1, [], true), [], [], [], [])
  }

  /** The substream ids of the OpenResponses among the messages sent, in order. */
  function Responses(sent: seq<OutboundMessage>): seq<SubstreamId> {
    if sent == [] then []
    else
      var p, m := Responses(sent[..|sent| - 1]), sent[|sent| - 1].message;
      if m.Transport? && m.transport.message.messageType.OpenResponse?
      then p + [m.transport.message.substreamId] else p
  }

  ghost predicate Booked(t: ConnTrace) {
    && t.c.open
    && t.c.mux.txs.Keys == t.c.mux.closeTxs.Keys
    && Responses(t.c.sent) == t.accepted
    && t.accepted == t.handed + t.c.mux.inboundOpen
    && t.closed == t.reported + t.c.mux.closedIds
  }

  lemma InboundKeepsBooks(t: ConnTrace, msg: SubstreamMessage)
    requires Booked(t)
    ensures Booked(ConnStep(t, Inbound(msg)))
  {
    if msg.messageType.OpenRequest? {
      RequestKeepsBooks(t, msg.substreamId);
    } else if msg.messageType.Close? {
      CloseKeepsBooks(t, msg.substreamId);
    }
  }

  lemma RequestKeepsBooks(t: ConnTrace, s: SubstreamId)
    requires Booked(t)
    ensures Booked(ConnStep(t, Inbound(SubstreamMessage(s, OpenRequest))))
  {
    EmitAppends(t.c, SubstreamMessage(s, OpenResponse));
  }

  lemma CloseKeepsBooks(t: ConnTrace, s: SubstreamId)
    requires Booked(t)
    ensures Booked(ConnStep(t, Inbound(SubstreamMessage(s, Close))))
  {
  }

  lemma StepKeepsBooks(t: ConnTrace, op: ConnOp)
    requires Booked(t) && Sends(op)
    ensures Booked(ConnStep(t, op))
  {
    match op {
      case Inbound(msg) => InboundKeepsBooks(t, msg);
      case OpenNew(s) => EmitAppends(t.c, SubstreamMessage(s, OpenRequest));
      case SubstreamSends(msg) => EmitAppends(t.c, msg);
      case _ =>
    }
  }

  lemma EmitAppends(c: ConnState, m: SubstreamMessage)
    requires c.open
    ensures Responses(Emit(c, m).sent) ==
            Responses(c.sent) + if m.messageType.OpenResponse? then [m.substreamId] else []
  {
    assert (c.sent + [Envelope(c, m)])[..|c.sent|] == c.sent;
  }

  /** Muxer bookkeeping, for arbitrary inbound messages: the two channel maps always have
      the same keys; the accepted requests, the responses sent and the substreams offered
      to the application are one and the same sequence; and each processed Close is
      reported once, in order. */
  lemma {:induction false} Bookkeeping(id: ConnectionId, remote: Recipient, ops: seq<ConnOp>)
    requires forall i | 0 <= i < |ops| :: Sends(ops[i])
    ensures var t := ConnRun(NewConn(id, remote), ops);
            && t.c.mux.txs.Keys == t.c.mux.closeTxs.Keys
            && Responses(t.c.sent) == t.accepted == t.handed + t.c.mux.inboundOpen
            && t.closed == t.reported + t.c.mux.closedIds
    ensures Booked(ConnRun(NewConn(id, remote), ops))
  {
    if ops != [] {
      Bookkeeping(id, remote, ops[..|ops| - 1]);
      StepKeepsBooks(ConnRun(NewConn(id, remote), ops[..|ops| - 1]), ops[|ops| - 1]);
    }
  }

  /** Exactly when an inbound message panics after an arbitrary run: Data for an unknown
      substream, or Close for a known one whose `Substream` was dropped. The missing
      close sender never occurs. */
  lemma PanicsIff(id: ConnectionId, remote: Recipient, ops: seq<ConnOp>, msg: SubstreamMessage)
    requires forall i | 0 <= i < |ops| :: Sends(ops[i])
    ensures var m := ConnRun(NewConn(id, remote), ops).c.mux;
            var o := Route(m, msg).1;
            && (o == Panics(NoChannelForData) <==> msg.messageType.Data? && msg.substreamId !in m.txs)
            && (o == Panics(CloseReceiverGone) <==>
                  msg.messageType.Close? && msg.substreamId in m.closeTxs && !m.closeTxs[msg.substreamId])
            && o != Panics(NoCloseSender)
            && (o.Fails? <==>
                  if msg.messageType.OpenRequest? then msg.substreamId in m.txs
                  else msg.messageType.Close? && msg.substreamId !in m.txs)
  {
    Bookkeeping(id, remote, ops);
  }

  // ---------------------------------------------------------------- what the channels hold

  /** The Data chunks that arrive for `s`, in order. */
  function Arrivals(ops: seq<ConnOp>, s: SubstreamId): seq<Chunk> {
    if ops == [] then [] else Arrivals(ops[..|ops| - 1], s) + ArrivalIn(ops[|ops| - 1], s)
  }

  function ArrivalIn(op: ConnOp, s: SubstreamId): seq<Chunk> {
    if op.Inbound? && op.msg.substreamId == s && op.msg.messageType.Data? then [op.msg.messageType.data] else []
  }

  predicate ClosesChannel(op: ConnOp, s: SubstreamId) {
    op == Inbound(SubstreamMessage(s, Close))
  }

  predicate OpensChannel(op: ConnOp, s: SubstreamId) {
    op == OpenNew(s) || op == Inbound(SubstreamMessage(s, OpenRequest))
  }

  /** What one operation does to the channel of `s`: its own Data is appended while the
      substream lives, its Close removes it, and nothing else touches it. */
  lemma StepOnChannel(t: ConnTrace, op: ConnOp, s: SubstreamId)
    requires s in t.c.mux.txs
    ensures var tx, m' := t.c.mux.txs[s], ConnStep(t, op).c.mux;
            if ClosesChannel(op, s) then s !in m'.txs && s !in m'.closeTxs
            else
              && s in m'.txs
              && m'.txs[s].sent == tx.sent + (if tx.alive then ArrivalIn(op, s) else [])
              && (m'.txs[s].alive <==> tx.alive && op != Drops(s))
  {
    if op.Inbound? {
      MessageOnChannel(t.c, op.msg, s);
    }
  }

  lemma MessageOnChannel(c: ConnState, msg: SubstreamMessage, s: SubstreamId)
    requires s in c.mux.txs
    ensures var tx, m' := c.mux.txs[s], PollOne(c, msg).0.mux;
            if msg == SubstreamMessage(s, Close) then s !in m'.txs && s !in m'.closeTxs
            else
              && s in m'.txs
              && m'.txs[s].sent == tx.sent + (if tx.alive then ArrivalIn(Inbound(msg), s) else [])
              && m'.txs[s].alive == tx.alive
  {
  }

  /** A channel comes into being, empty, with the substream that is opened. */
  lemma StepWithoutChannel(t: ConnTrace, op: ConnOp, s: SubstreamId)
    requires s !in t.c.mux.txs
    ensures var m' := ConnStep(t, op).c.mux;
            && (s in m'.txs ==> OpensChannel(op, s))
            && (OpensChannel(op, s) && t.c.open ==>
                  && s in m'.txs && m'.txs[s] == TxEnd([], true)
                  && s in m'.closeTxs && m'.closeTxs[s])
  {
  }

  /** In every history, the channel of an open, undropped substream receives exactly the
      Data chunks that arrive for it, in order. */
  lemma {:induction false} ChannelHoldsArrivals(t: ConnTrace, ops: seq<ConnOp>, s: SubstreamId)
    requires s in t.c.mux.txs && t.c.mux.txs[s].alive
    requires forall op | op in ops :: !ClosesChannel(op, s) && op != Drops(s)
    ensures var m' := ConnRun(t, ops).c.mux;
            s in m'.txs && m'.txs[s] == TxEnd(t.c.mux.txs[s].sent + Arrivals(ops, s), true)
  {
    if ops != [] {
      ChannelHoldsArrivals(t, ops[..|ops| - 1], s);
      StepOnChannel(ConnRun(t, ops[..|ops| - 1]), ops[|ops| - 1], s);
    }
  }

  /** Once the substream was dropped, its channel receives nothing more. */
  lemma {:induction false} DroppedChannelIsSilent(t: ConnTrace, ops: seq<ConnOp>, s: SubstreamId)
    requires s in t.c.mux.txs && !t.c.mux.txs[s].alive
    requires forall op | op in ops :: !ClosesChannel(op, s)
    ensures s in ConnRun(t, ops).c.mux.txs && ConnRun(t, ops).c.mux.txs[s] == t.c.mux.txs[s]
  {
    if ops != [] {
      DroppedChannelIsSilent(t, ops[..|ops| - 1], s);
      StepOnChannel(ConnRun(t, ops[..|ops| - 1]), ops[|ops| - 1], s);
    }
  }

  /** So after any history, a substream opened under a free id and neither closed by its
      peer nor dropped holds exactly the Data that arrived for it since. */
  lemma OpenedChannel(t: ConnTrace, open: ConnOp, more: seq<ConnOp>, s: SubstreamId)
    requires t.c.open && s !in t.c.mux.txs && OpensChannel(open, s)
    requires forall op | op in more :: !ClosesChannel(op, s) && op != Drops(s)
    ensures var m := ConnRun(ConnStep(t, open), more).c.mux;
            s in m.txs && m.txs[s] == TxEnd(Arrivals(more, s), true)
  {
    StepWithoutChannel(t, open, s);
    ChannelHoldsArrivals(ConnStep(t, open), more, s);
  }

  // ---------------------------------------------------------------- what is sent

  /** Message `i` carries nonce i + 1 (modulo the u64 range) and the connection's id, and
      goes to its remote; the counter is one ahead. */
  ghost predicate InSequence(c: ConnState) {
    && c.nonce == (|c.sent| + 1) % (U64_MAX + 1)
    && forall i | 0 <= i < |c.sent| ::
         && c.sent[i].recipient == c.remote && c.sent[i].message.Transport?
         && c.sent[i].message.transport.id == c.id
         && c.sent[i].message.transport.nonce == (i + 1) % (U64_MAX + 1)
  }

  lemma EmitKeepsSequence(c: ConnState, m: SubstreamMessage)
    requires InSequence(c) && c.open
    ensures InSequence(Emit(c, m))
  {
  }

  lemma StepKeepsSequence(t: ConnTrace, op: ConnOp)
    requires InSequence(t.c) && t.c.open
    ensures InSequence(ConnStep(t, op).c) && ConnStep(t, op).c.open
  {
    match op {
      case Inbound(msg) =>
        if msg.messageType.OpenRequest? { EmitKeepsSequence(t.c, SubstreamMessage(msg.substreamId, OpenResponse)); }
      case OpenNew(s) => EmitKeepsSequence(t.c, SubstreamMessage(s, OpenRequest));
      case SubstreamSends(msg) => EmitKeepsSequence(t.c, msg);
      case _ =>
    }
  }

  /** Undisturbed, a connection numbers what it sends 1, 2, 3 and so on, whoever sends. */
  lemma {:induction false} SendsInSequence(id: ConnectionId, remote: Recipient, ops: seq<ConnOp>)
    ensures var c := ConnRun(NewConn(id, remote), ops).c;
            InSequence(c) && c.open && c.id == id && c.remote == remote
  {
    if ops != [] {
      SendsInSequence(id, remote, ops[..|ops| - 1]);
      StepKeepsSequence(ConnRun(NewConn(id, remote), ops[..|ops| - 1]), ops[|ops| - 1]);
    }
  }

  /** An outbound open takes a nonce and asks the peer in every case but a closed mixnet
      channel; it yields a substream if and only if the channel is open and the id free,
      and leaves the collections alone otherwise. */
  lemma OpenOutboundIff(c: ConnState, s: SubstreamId)
    ensures var (c', e) := OpenOutbound(c, s);
            && c'.nonce == WrappingSucc(c.nonce)
            && (e == None <==> c.open && s !in c.mux.txs)
            && (e == Some(OutboundSendError) <==> !c.open)
            && (e == Some(SubstreamIdExists(s)) <==> c.open && s in c.mux.txs)
            && (e.Some? ==> c'.mux == c.mux)
            && (e.None? ==> s in c'.mux.pending && s in c'.mux.txs && s in c'.mux.closeTxs)
            && c'.sent == c.sent + if !c.open then [] else [
                 OutboundMessage(
                   Transport(TransportMessage(c.nonce, SubstreamMessage(s, OpenRequest), c.id)), c.remote)]
  {
  }

  /** A request is accepted, answered and offered if and only if its id is free and the
      mixnet channel open. A free id with the channel gone leaves a dropped substream
      behind and a nonce spent on nothing. */
  lemma RequestIff(c: ConnState, s: SubstreamId)
    ensures var (c', o) := PollOne(c, SubstreamMessage(s, OpenRequest));
            && (o == Fails(SubstreamIdExists(s)) <==> s in c.mux.txs)
            && (o == Continue <==> c.open && s !in c.mux.txs)
            && (o == Fails(OutboundSendError) <==> !c.open && s !in c.mux.txs)
            && (s in c.mux.txs ==> c' == c)
            && (s !in c.mux.txs ==> c'.nonce == WrappingSucc(c.nonce))
            && c'.mux.inboundOpen == c.mux.inboundOpen + (if o == Continue then [s] else [])
            && c'.sent == c.sent + (if o != Continue then [] else [
                 OutboundMessage(
                   Transport(TransportMessage(c.nonce, SubstreamMessage(s, OpenResponse), c.id)), c.remote)])
            && (o == Fails(OutboundSendError) ==> s in c'.mux.txs && !c'.mux.txs[s].alive)
  {
  }

  // ---------------------------------------------------------------- the poll loop

  /** The messages as operations of a run. */
  function AllInbound(msgs: seq<SubstreamMessage>): seq<ConnOp> {
    seq(|msgs|, i requires 0 <= i < |msgs| => Inbound(msgs[i]))
  }

  function OutcomeOf(t: ConnTrace, msgs: seq<SubstreamMessage>, i: nat): MuxOutcome
    requires i < |msgs|
  {
    PollOne(ConnRun(t, AllInbound(msgs[..i])).c, msgs[i]).1
  }

  lemma {:induction false} RunFirst(t: ConnTrace, msg: SubstreamMessage, rest: seq<SubstreamMessage>)
    ensures ConnRun(t, AllInbound([msg] + rest)) == ConnRun(ConnStep(t, Inbound(msg)), AllInbound(rest))
    decreases |rest|
  {
    var ops := AllInbound([msg] + rest);
    if rest == [] {
      assert ops == [Inbound(msg)] && ops[..0] == [];
    } else {
      var q := rest[..|rest| - 1];
      RunFirst(t, msg, q);
      assert ops[..|ops| - 1] == AllInbound([msg] + q) && AllInbound(rest)[..|rest| - 1] == AllInbound(q);
    }
  }

  /** The first `n` messages were handled in turn, each well but possibly the last, whose
      outcome is `o`; the loop only stops short of the end at a failure. */
  ghost predicate Polled(t: ConnTrace, msgs: seq<SubstreamMessage>, c: ConnState, n: nat, o: MuxOutcome) {
    && n <= |msgs|
    && c == ConnRun(t, AllInbound(msgs[..n])).c
    && (forall i: nat | i + 1 < n :: OutcomeOf(t, msgs, i) == Continue)
    && o == (if n == 0 then Continue else OutcomeOf(t, msgs, n - 1))
    && (o == Continue ==> n == |msgs|)
  }

  /** What the poll loop does: it handles every message, none skipped and none twice,
      until the channel is empty or a message fails. */
  lemma {:induction false} PollAllIsRun(t: ConnTrace, msgs: seq<SubstreamMessage>)
    ensures var (c, n, o) := PollAll(t.c, msgs);
            Polled(t, msgs, c, n, o)
    decreases |msgs|
  {
    if msgs != [] {
      var t1 := ConnStep(t, Inbound(msgs[0]));
      if PollOne(t.c, msgs[0]).1 == Continue {
        PollAllIsRun(t1, msgs[1..]);
        var (c, n, o) := PollAll(t1.c, msgs[1..]);
        PolledOneMore(t, msgs, c, n, o);
      } else {
        RunFirst(t, msgs[0], []);
        assert msgs[..1] == [msgs[0]] + [];
        assert OutcomeOf(t, msgs, 0) == PollOne(t.c, msgs[0]).1;
      }
    }
  }

  lemma PolledOneMore(t: ConnTrace, msgs: seq<SubstreamMessage>, c: ConnState, n: nat, o: MuxOutcome)
    requires msgs != [] && OutcomeOf(t, msgs, 0) == Continue
    requires Polled(ConnStep(t, Inbound(msgs[0])), msgs[1..], c, n, o)
    ensures Polled(t, msgs, c, n + 1, o)
  {
    var t1, rest := ConnStep(t, Inbound(msgs[0])), msgs[1..];
    RunFirst(t, msgs[0], rest[..n]);
    assert msgs[..n + 1] == [msgs[0]] + rest[..n];
    forall i: nat | i < n ensures OutcomeOf(t, msgs, i + 1) == OutcomeOf(t1, rest, i) {
      OutcomeShifts(t, msgs, i);
    }
    forall i: nat | i + 1 < n + 1 ensures OutcomeOf(t, msgs, i) == Continue {
      if i > 0 {
        var k: nat := i - 1;
        assert OutcomeOf(t, msgs, k + 1) == OutcomeOf(t1, rest, k);
      }
    }
    if n > 0 {
      var k: nat := n - 1;
      assert OutcomeOf(t, msgs, k + 1) == OutcomeOf(t1, rest, k);
    }
  }

  lemma OutcomeShifts(t: ConnTrace, msgs: seq<SubstreamMessage>, i: nat)
    requires i + 1 < |msgs|
    ensures OutcomeOf(t, msgs, i + 1) == OutcomeOf(ConnStep(t, Inbound(msgs[0])), msgs[1..], i)
  {
    RunFirst(t, msgs[0], msgs[1..][..i]);
    assert msgs[..i + 1] == [msgs[0]] + msgs[1..][..i];
  }

  // ---------------------------------------------------------------- the failing input

  /** The failing input: a substream is accepted and dropped, then its peer closes it. */
  lemma CloseAfterDropPanics(id: ConnectionId, remote: Recipient, s: SubstreamId)
    ensures var ops := [Inbound(SubstreamMessage(s, OpenRequest)), PollInbound, Drops(s)];
            Route(ConnRun(NewConn(id, remote), ops).c.mux, SubstreamMessage(s, Close)).1 == Panics(CloseReceiverGone)
  {
    var t0, a, b := NewConn(id, remote), Inbound(SubstreamMessage(s, OpenRequest)), PollInbound;
    assert ConnRun(t0, [a]) == ConnStep(t0, a) by { assert [a][..0] == []; }
    assert ConnRun(t0, [a, b]) == ConnStep(ConnStep(t0, a), b) by { assert [a, b][..1] == [a]; }
    assert [a, b, Drops(s)][..2] == [a, b];
  }
}

/** The mutable connection object, verified against `MuxerSpec`. */
module Connection {
  import opened Base
  import opened Messages
  import opened SubstreamSpec
  import opened MuxerSpec
  import opened Channels
  import Sub = Substream

  class Connection {
    const peerId: PeerId
    const remoteRecipient: Recipient
    const id: ConnectionId
    const mixnetOutboundTx: Outbox
    const messageNonce: AtomicU64
    var pendingSubstreams: set<SubstreamId>
    var substreamInboundTxs: map<SubstreamId, TxEnd>
    var substreamCloseTxs: map<SubstreamId, bool>
    var inboundOpen: seq<Sub.Substream>
    var closedIds: seq<SubstreamId>

    ghost function MuxView(): Mux
      reads this
    {
      Mux(pendingSubstreams, substreamInboundTxs, substreamCloseTxs, Ids(inboundOpen), closedIds)
    }

    ghost function View(): ConnState
      reads this, mixnetOutboundTx, messageNonce
    {
      ConnState(id, remoteRecipient, MuxView(), messageNonce.value, mixnetOutboundTx.sent, mixnetOutboundTx.open)
    }

    constructor (peer: PeerId, remote: Recipient, connection: ConnectionId, outbox: Outbox)
      ensures MuxView() == NEW_MUX && messageNonce.value == 1 && fresh(messageNonce)
      ensures peerId == peer && remoteRecipient == remote && id == connection && mixnetOutboundTx == outbox
    {
      peerId, remoteRecipient, id, mixnetOutboundTx := peer, remote, connection, outbox;
      messageNonce := new AtomicU64(1);
      pendingSubstreams, substreamInboundTxs, substreamCloseTxs := {}, map[], map[];
      inboundOpen, closedIds := [], [];
    }

    /** The substream speaks for this connection: its address and id, one nonce counter,
        one way out. */
    ghost predicate ShareChannels(sub: Sub.Substream) {
      && sub.remoteRecipient == remoteRecipient && sub.connectionId == id
      && sub.messageNonce == messageNonce && sub.outboundTx == mixnetOutboundTx
    }

    /** What the application is offered beyond `before` speaks for this connection and is
        new: nothing read, written or closed. */
    twostate predicate NewOffers(before: seq<Sub.Substream>)
      reads this, set i | 0 <= i < |inboundOpen| :: inboundOpen[i]
    {
      && before <= inboundOpen
      && forall i | |before| <= i < |inboundOpen| ::
           fresh(inboundOpen[i]) && ShareChannels(inboundOpen[i]) && inboundOpen[i].State() == NEW_SUBSTREAM
    }

    method NewSubstream(s: SubstreamId) returns (r: Result<Sub.Substream, Error>)
      modifies this`substreamInboundTxs, this`substreamCloseTxs
      ensures r.Err? <==> s in old(substreamInboundTxs)
      ensures r.Err? ==> r.error == SubstreamIdExists(s) && View() == old(View())
      ensures r.Ok? ==>
                && fresh(r.value) && r.value.substreamId == s && r.value.State() == NEW_SUBSTREAM
                && ShareChannels(r.value)
                && MuxView() == Create(old(MuxView()), s)
    {
      if s in substreamInboundTxs {
        return Err(SubstreamIdExists(s));
      }
      substreamInboundTxs := substreamInboundTxs[s := TxEnd([], true)];
      substreamCloseTxs := substreamCloseTxs[s := true];
      var sub := new Sub.Substream(remoteRecipient, id, s, mixnetOutboundTx, messageNonce);
      return Ok(sub);
    }

    method SendNumbered(m: SubstreamMessage) returns (ok: bool)
      modifies messageNonce, mixnetOutboundTx
      ensures ok == old(mixnetOutboundTx.open)
      ensures View() == Emit(old(View()), m)
    {
      var nonce := messageNonce.FetchAdd();
      ok := mixnetOutboundTx.Send(OutboundMessage(Transport(TransportMessage(nonce, m, id)), remoteRecipient));
    }

    method NewOutboundSubstream(s: SubstreamId) returns (r: Result<Sub.Substream, Error>)
      modifies this, messageNonce, mixnetOutboundTx
      ensures View() == OpenOutbound(old(View()), s).0
      ensures OpenOutbound(old(View()), s).1 == (if r.Err? then Some(r.error) else None)
      ensures r.Ok? ==>
                && fresh(r.value) && r.value.substreamId == s && r.value.State() == NEW_SUBSTREAM
                && ShareChannels(r.value)
    {
      var sent := SendNumbered(SubstreamMessage(s, OpenRequest));
      if !sent {
        return Err(OutboundSendError);
      }
      r := NewSubstream(s);
      if r.Ok? {
        pendingSubstreams := pendingSubstreams + {s};
      }
    }

    /** The outcome reports a panic where the source would unwind. */
    method HandleClose(s: SubstreamId) returns (outcome: MuxOutcome)
      modifies this
      ensures (MuxView(), outcome) == Route(old(MuxView()), SubstreamMessage(s, Close))
      ensures inboundOpen == old(inboundOpen)
    {
      if s !in substreamInboundTxs {
        return Fails(SubstreamIdDoesNotExist(s));
      }
      substreamInboundTxs := substreamInboundTxs - {s};
      if s !in substreamCloseTxs {
        assert substreamCloseTxs - {s} == substreamCloseTxs;
        return Panics(NoCloseSender);
      }
      var receiverAlive := substreamCloseTxs[s];
      substreamCloseTxs := substreamCloseTxs - {s};
      if !receiverAlive {
        return Panics(CloseReceiverGone);
      }
      closedIds := closedIds + [s];
      return Continue;
    }

    method DropSubstream(s: SubstreamId)
      modifies this`substreamInboundTxs, this`substreamCloseTxs
      ensures MuxView() == DropEnd(old(MuxView()), s)
    {
      if s in substreamInboundTxs {
        substreamInboundTxs := substreamInboundTxs[s := substreamInboundTxs[s].(alive := false)];
      }
      if s in substreamCloseTxs {
        substreamCloseTxs := substreamCloseTxs[s := false];
      }
    }

    method HandleOpenRequest(s: SubstreamId) returns (outcome: MuxOutcome)
      modifies this, messageNonce, mixnetOutboundTx
      ensures NewOffers(old(inboundOpen))
      ensures (View(), outcome) == PollOne(old(View()), SubstreamMessage(s, OpenRequest))
    {
      var sub := NewSubstream(s);
      if sub.Err? {
        return Fails(sub.error);
      }
      var sent := SendNumbered(SubstreamMessage(s, OpenResponse));
      if !sent {
        DropSubstream(s);
        return Fails(OutboundSendError);
      }
      inboundOpen := inboundOpen + [sub.value];
      assert Ids(inboundOpen) == old(Ids(inboundOpen)) + [s];
      return Continue;
    }

    method HandleData(s: SubstreamId, data: Chunk) returns (outcome: MuxOutcome)
      modifies this`substreamInboundTxs
      ensures (MuxView(), outcome) == Route(old(MuxView()), SubstreamMessage(s, Data(data)))
    {
      if s !in substreamInboundTxs {
        return Panics(NoChannelForData);
      }
      var tx := substreamInboundTxs[s];
      if tx.alive {
        tx := tx.(sent := tx.sent + [data]);
      }
      substreamInboundTxs := substreamInboundTxs[s := tx];
      return Continue;
    }

    /** One message of the `poll` loop. */
    method HandleMessage(msg: SubstreamMessage) returns (outcome: MuxOutcome)
      modifies this, messageNonce, mixnetOutboundTx
      ensures NewOffers(old(inboundOpen))
      ensures (View(), outcome) == PollOne(old(View()), msg)
    {
      match msg.messageType {
        case OpenRequest => outcome := HandleOpenRequest(msg.substreamId);
        case OpenResponse =>
          pendingSubstreams := pendingSubstreams - {msg.substreamId};
          outcome := Continue;
        case Close => outcome := HandleClose(msg.substreamId);
        case Data(d) => outcome := HandleData(msg.substreamId, d);
      }
    }

    /** `poll`: drain the inbound channel until a message fails. */
    method Poll(inboundRx: seq<SubstreamMessage>) returns (taken: nat, outcome: MuxOutcome)
      modifies this, messageNonce, mixnetOutboundTx
      ensures (View(), taken, outcome) == PollAll(old(View()), inboundRx)
      ensures NewOffers(old(inboundOpen))
    {
      taken, outcome := 0, Continue;
      ghost var target := PollAll(View(), inboundRx);
      while outcome == Continue && taken < |inboundRx|
        invariant taken <= |inboundRx|
        invariant NewOffers(old(inboundOpen))
        invariant outcome == Continue ==> target == After(taken, PollAll(View(), inboundRx[taken..]))
        invariant outcome != Continue ==> target == (View(), taken, outcome)
        decreases |inboundRx| - taken, outcome == Continue
      {
        assert inboundRx[taken..][0] == inboundRx[taken] && inboundRx[taken..][1..] == inboundRx[taken + 1..];
        outcome := HandleMessage(inboundRx[taken]);
        taken := taken + 1;
      }
    }

    /** `poll_close`: ready once for every substream the peer closed. */
    method PollClosed() returns (ready: bool)
      modifies this`closedIds
      ensures ready <==> old(MuxView()).closedIds != []
      ensures MuxView() == if ready then old(MuxView()).(closedIds := old(MuxView()).closedIds[1..]) else old(MuxView())
    {
      ready := closedIds != [];
      if ready {
        closedIds := closedIds[1..];
      }
    }

    method PollInboundSubstream() returns (r: Option<Sub.Substream>)
      modifies this`inboundOpen
      ensures old(MuxView()).inboundOpen == [] ==> r == None && MuxView() == old(MuxView())
      ensures old(MuxView()).inboundOpen != [] ==>
                && r == Some(old(inboundOpen)[0]) && r.value.substreamId == old(MuxView()).inboundOpen[0]
                && MuxView() == old(MuxView()).(inboundOpen := old(MuxView()).inboundOpen[1..])
    {
      if inboundOpen == [] {
        return None;
      }
      r := Some(inboundOpen[0]);
      inboundOpen := inboundOpen[1..];
    }
  }

  ghost function Ids(subs: seq<Sub.Substream>): (ids: seq<SubstreamId>)
    ensures |ids| == |subs|
    ensures forall i | 0 <= i < |subs| :: ids[i] == subs[i].substreamId
  {
    seq(|subs|, i requires 0 <= i < |subs| => subs[i].substreamId)
  }

  /** The rest of a poll loop, `taken` messages in. */
  ghost function After(taken: nat, rest: (ConnState, nat, MuxOutcome)): (ConnState, nat, MuxOutcome) {
    (rest.0, taken + rest.1, rest.2)
  }
}
