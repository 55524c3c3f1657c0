/** Two endpoints of one connection over a network that reorders and duplicates.

    Each endpoint runs the reordering link of `Receiver`, the multiplexer of `MuxerSpec`
    and any number of substreams of `SubstreamSpec`. The connection and its substreams
    share one nonce counter; taking a nonce and sending under it are separate steps, so
    every interleaving of these actors is a run. */
module Duplex {
  import opened Base
  import opened Messages
  import opened Receiver
  import opened SubstreamSpec
  import opened MuxerSpec

  /** Where an actor stands between taking a nonce and sending. */
  datatype SubPc = Idle | Writing(n: u64, data: Chunk) | Closing(n: u64)

  datatype ConnPc = Free | Opening(n: u64, s: SubstreamId) | Answering(n: u64, s: SubstreamId)

  /** One end of a substream and its history: who opened it and under which nonce, the
      chunks it sent with their nonces, the nonce of its Close, the chunks routed to it,
      the bytes placed in read buffers and the bytes the reader was told of. The
      application may drop it at any time. */
  datatype Sub = Sub(
    opener: bool,
    born: u64,
    st: SubState,
    pc: SubPc,
    wrote: seq<(nat, Chunk)>,
    closedAt: Option<u64>,
    routed: seq<Chunk>,
    placed: seq<byte>,
    told: seq<byte>,
    dropped: bool)

  function NewSub(opener: bool, born: u64): Sub {
    Sub(opener, born, NEW_SUBSTREAM, Idle, [], None, [], [], [], false)
  }

  datatype Actor = Muxer | Stream(s: SubstreamId)

  /** What became of a nonce. */
  datatype Slot = InFlight(who: Actor) | Sent(m: SubstreamMessage) | Burnt

  datatype Trouble = LinkTrouble(outcome: Outcome) | MuxTrouble(muxOutcome: MuxOutcome) | Abandoned

  /** `events` is what reached the link, `taken` what `poll` took off the channel,
      `ledger` the fate of every nonce; `trouble` records why the connection ended: a panic, a protocol error, or
      the application dropped it. */
  datatype End = End(
    cid: ConnectionId,
    link: Link,
    events: seq<Event>,
    taken: seq<SubstreamMessage>,
    mux: Mux,
    subs: map<SubstreamId, Sub>,
    pc: ConnPc,
    counter: nat,
    sent: seq<TransportMessage>,
    burnt: set<nat>,
    ledger: map<nat, Slot>,
    trouble: Option<Trouble>)

  function NewEnd(cid: ConnectionId): End {
    End(cid, NEW_LINK, [], [], NEW_MUX, map[], Free, 1, [], {}, map[], None)
  }

  function Msg(s: SubstreamId, t: SubstreamMessageType): SubstreamMessage {
    SubstreamMessage(s, t)
  }

  function Out(e: End): seq<SubstreamMessage> {
    if e.link.inbox.Some? then e.link.inbox.value.sent else []
  }

  // ---------------------------------------------------------------- steps

  datatype Action =
    | Connect                                   // the connection message arrives
    | Deliver(m: TransportMessage)
    | BeginOpen(s: SubstreamId)
    | FinishOpen
    | Process                                   // one iteration of `poll`
    | FinishAnswer
    | BeginWrite(s: SubstreamId, data: Chunk)
    | FinishWrite(s: SubstreamId)
    | BeginClose(s: SubstreamId)
    | FinishClose(s: SubstreamId)
    | ReadSome(s: SubstreamId, buf: seq<byte>)
    | FlushSome(s: SubstreamId)
    | Drop(s: SubstreamId)                      // the application drops the substream
    | Abandon                                   // the application drops the `Connection`

  /** The application still has the substream, and no call on it is under way. */
  predicate Usable(e: End, s: SubstreamId) {
    s in e.subs && e.subs[s].pc.Idle? && !e.subs[s].dropped
  }

  /** The connection's own steps. */
  predicate ByMuxer(a: Action) {
    a.BeginOpen? || a.FinishOpen? || a.Process? || a.FinishAnswer?
  }

  /** The step exists: the actor is where it must be, and the nonces are not exhausted. A
      connection that panicked or was dropped does nothing more and hears nothing more;
      its substreams go on. */
  predicate CanAct(e: End, a: Action) {
    (ByMuxer(a) || a.Connect? || a.Deliver? || a.Abandon? ==> e.trouble.None?) &&
    match a
    case Connect => true
    case Deliver(_) => true
    case BeginOpen(_) => e.link.inbox.Some? && e.pc.Free? && e.counter <= U64_MAX
    case FinishOpen => e.pc.Opening?
    case Process =>
      e.pc.Free? && |e.taken| < |Out(e)|
      && (Out(e)[|e.taken|].messageType.OpenRequest? ==> e.counter <= U64_MAX)
    case FinishAnswer => e.pc.Answering?
    case BeginWrite(s, _) => Usable(e, s) && e.counter <= U64_MAX
    case FinishWrite(s) => s in e.subs && e.subs[s].pc.Writing?
    case BeginClose(s) => Usable(e, s) && e.counter <= U64_MAX
    case FinishClose(s) => s in e.subs && e.subs[s].pc.Closing?
    case ReadSome(s, _) => Usable(e, s)
    case FlushSome(s) => Usable(e, s)
    case Drop(s) => Usable(e, s)
    case Abandon => e.link.inbox.Some? && e.pc.Free?
  }

  /** The network delivers what the peer sent and the decoder accepts; generated
      substream ids are fresh. */
  predicate Allowed(e: End, peer: End, a: Action) {
    && CanAct(e, a)
    && (a.Deliver? ==> a.m in peer.sent && !IsEmptyData(a.m.message))
    && (a.BeginOpen? ==> !Knows(e, a.s) && !Knows(peer, a.s))
  }

  predicate Knows(e: End, s: SubstreamId) {
    s in e.subs || (!e.pc.Free? && e.pc.s == s)
  }

  function TakeNonce(e: End, who: Actor): End {
    e.(counter := e.counter + 1, ledger := e.ledger[e.counter := InFlight(who)])
  }

  function Send(e: End, n: u64, m: SubstreamMessage): End {
    e.(sent := e.sent + [TransportMessage(n, m, e.cid)], ledger := e.ledger[n as nat := Sent(m)])
  }

  function SetSub(e: End, s: SubstreamId, sub: Sub): End {
    e.(subs := e.subs[s := sub])
  }

  function Hear(e: End, ev: Event): End {
    var (l, o) := LinkStep(e.link, ev);
    e.(link := l, events := e.events + [ev],
       trouble := if o == Done || o == Failed(ConnectionAlreadyEstablished) then e.trouble else Some(LinkTrouble(o)))
  }

  /** What a routed message does to its substream; a dropped one gets nothing. */
  function Reach(sub: Sub, t: SubstreamMessageType): Sub {
    if sub.dropped then sub
    else
    match t
    case Close => sub.(st := sub.st.(signal := true))
    case Data(d) => sub.(st := sub.st.(rx := sub.st.rx + [d]), routed := sub.routed + [d])
    case _ => sub
  }

  function ProcessNext(e: End): End
    requires CanAct(e, Process)
  {
    var msg := Out(e)[|e.taken|];
    var s := msg.substreamId;
    var (m, o) := Route(e.mux, msg);
    var e1 := e.(mux := m, taken := e.taken + [msg]);
    match o
    case Respond => TakeNonce(e1.(pc := Answering(e.counter, s)), Muxer)
    case Continue => if s in e.subs then SetSub(e1, s, Reach(e.subs[s], msg.messageType)) else e1
    case _ => e1.(trouble := Some(MuxTrouble(o)))
  }

  function Act(e: End, a: Action): End
    requires CanAct(e, a)
  {
    match a
    case Connect => Hear(e, Connected)
    case Deliver(m) => Hear(e, Arrived(m))
    case BeginOpen(s) => TakeNonce(e.(pc := Opening(e.counter, s)), Muxer)
    case FinishOpen =>
      var (n, s) := (e.pc.n, e.pc.s);
      var e1 := Send(e, n, Msg(s, OpenRequest)).(pc := Free);
      if s in e.mux.txs then e1.(trouble := Some(MuxTrouble(Fails(SubstreamIdExists(s)))))
      else SetSub(e1.(mux := CreatePending(e.mux, s)), s, NewSub(true, n))
    case Process => ProcessNext(e)
    case FinishAnswer =>
      var (n, s) := (e.pc.n, e.pc.s);
      var e1 := Send(e, n, Msg(s, OpenResponse)).(pc := Free);
      SetSub(e1.(mux := e.mux.(inboundOpen := e.mux.inboundOpen + [s])), s, NewSub(false, n))
    case BeginWrite(s, data) =>
      var (st, open) := CheckClosed(e.subs[s].st);
      if open then SetSub(TakeNonce(e, Stream(s)), s, e.subs[s].(st := st, pc := Writing(e.counter, data)))
      else SetSub(e, s, e.subs[s].(st := st))
    case FinishWrite(s) =>
      var (n, data) := (e.subs[s].pc.n, e.subs[s].pc.data);
      SetSub(Send(e, n, Msg(s, Data(data))), s, e.subs[s].(pc := Idle, wrote := e.subs[s].wrote + [(n, data)]))
    case BeginClose(s) =>
      SetSub(TakeNonce(e, Stream(s)), s, e.subs[s].(pc := Closing(e.counter)))
    case FinishClose(s) =>
      var n := e.subs[s].pc.n;
      if e.subs[s].st.closed then
        SetSub(e.(burnt := e.burnt + {n}, ledger := e.ledger[n as nat := Burnt]), s, e.subs[s].(pc := Idle))
      else
        SetSub(Send(e, n, Msg(s, Close)), s,
               e.subs[s].(pc := Idle, st := e.subs[s].st.(closed := true), closedAt := Some(n)))
    case ReadSome(s, buf) =>
      var r := PollRead(e.subs[s].st, buf);
      ReadConserves(e.subs[s].st, buf);
      SetSub(e, s, e.subs[s].(st := r.st, placed := e.subs[s].placed + r.buf[..r.placed],
                              told := e.subs[s].told + Told(e.subs[s].st, buf)))
    case FlushSome(s) => SetSub(e, s, e.subs[s].(st := CheckClosed(e.subs[s].st).0))
    case Drop(s) => SetSub(e.(mux := DropEnd(e.mux, s)), s, e.subs[s].(dropped := true))
    case Abandon => e.(trouble := Some(Abandoned))
  }

  // ---------------------------------------------------------------- what every endpoint keeps

  ghost predicate SentAt(e: End, n: nat, m: SubstreamMessage) {
    n in e.ledger && e.ledger[n] == Sent(m)
  }

  /** The nonce an actor holds without having sent yet. */
  function Holding(e: End, who: Actor): Option<u64> {
    match who
    case Muxer => if e.pc.Free? then None else Some(e.pc.n)
    case Stream(s) => if s in e.subs && !e.subs[s].pc.Idle? then Some(e.subs[s].pc.n) else None
  }

  ghost predicate Counted(e: End) {
    && 1 <= e.counter <= U64_MAX + 1
    && (forall n: nat :: n in e.ledger <==> 1 <= n < e.counter)
  }

  ghost predicate ChannelOk(e: End) {
    && (forall i | 0 <= i < |e.sent| :: e.sent[i].id == e.cid && SentAt(e, e.sent[i].nonce, e.sent[i].message))
    && (forall n: nat, m | SentAt(e, n, m) :: n <= U64_MAX && TransportMessage(n, m, e.cid) in e.sent)
    && (forall i, j | 0 <= i < j < |e.sent| :: e.sent[i].nonce != e.sent[j].nonce)
  }

  ghost predicate BurntOk(e: End) {
    && (forall n: nat | n in e.ledger :: e.ledger[n].Burnt? <==> n in e.burnt)
    && (forall n | n in e.burnt :: n in e.ledger)
  }

  ghost predicate HoldsOk(e: End) {
    && (forall who, n: u64 | Holding(e, who) == Some(n) :: n in e.ledger && e.ledger[n] == InFlight(who))
    && (forall n: nat | n in e.ledger && e.ledger[n].InFlight? :: Holding(e, e.ledger[n].who) == Some(n))
  }

  /** The ledger tells the truth about the counter, the channel and the actors. */
  ghost predicate LedgerOk(e: End) {
    Counted(e) && ChannelOk(e) && BurntOk(e) && HoldsOk(e)
  }

  /** What a sent message says about its substream. */
  ghost predicate SlotOk(e: End, n: nat, m: SubstreamMessage) {
    var s := m.substreamId;
    && s in e.subs
    && var sub := e.subs[s];
    && n >= sub.born
    && (n == sub.born <==> m.messageType.OpenRequest? || m.messageType.OpenResponse?)
    && (m.messageType.OpenRequest? ==> sub.opener)
    && (m.messageType.OpenResponse? ==> !sub.opener)
    && (m.messageType.Close? ==> sub.closedAt == Some(n))
    && (sub.closedAt.Some? ==> n <= sub.closedAt.value)
    && (!sub.pc.Idle? ==> n < sub.pc.n)
    && (m.messageType.Data? ==> (n, m.messageType.data) in sub.wrote)
  }

  ghost predicate SubOk(e: End, s: SubstreamId)
    requires s in e.subs
  {
    var sub := e.subs[s];
    && SentAt(e, sub.born, Msg(s, if sub.opener then OpenRequest else OpenResponse))
    && (forall i, j | 0 <= i < j < |sub.wrote| :: sub.wrote[i].0 < sub.wrote[j].0)
    && (forall i | 0 <= i < |sub.wrote| :: SentAt(e, sub.wrote[i].0, Msg(s, Data(sub.wrote[i].1))))
    && (sub.closedAt.Some? ==> sub.st.closed && !sub.pc.Writing?)
  }

  /** On every substream: its opening message first, then Data, then at most one Close. */
  ghost predicate StreamsOk(e: End) {
    && (forall n: nat, m | SentAt(e, n, m) :: SlotOk(e, n, m))
    && (forall s | s in e.subs :: SubOk(e, s))
    && (!e.pc.Free? ==> e.pc.s !in e.subs)
  }

  /** The chunks of substream `s` among `ms`, in order. */
  function DataOf(ms: seq<SubstreamMessage>, s: SubstreamId): seq<Chunk> {
    if ms == [] then []
    else
      var p, m := DataOf(ms[..|ms| - 1], s), ms[|ms| - 1];
      if m.substreamId == s && m.messageType.Data? then p + [m.messageType.data] else p
  }

  ghost predicate Answers(e: End, s: SubstreamId) {
    e.pc.Answering? && e.pc.s == s
  }

  ghost predicate Gone(e: End, s: SubstreamId) {
    s in e.subs && e.subs[s].dropped
  }

  /** A substream has its channels from its opening until the peer's Close was taken. */
  ghost predicate KeysOk(e: End) {
    && e.mux.txs.Keys == e.mux.closeTxs.Keys
    && (forall s | s in e.mux.closeTxs :: e.mux.closeTxs[s] <==> !Gone(e, s))
    && (forall s :: s in e.mux.txs <==> (s in e.subs || Answers(e, s)) && Msg(s, Close) !in e.taken)
  }

  /** We accepted exactly what the peer asked for. */
  ghost predicate RolesOk(e: End) {
    forall s :: Msg(s, OpenRequest) in e.taken <==> (s in e.subs && !e.subs[s].opener) || Answers(e, s)
  }

  /** A substream is pending from our request until the peer's response was taken. */
  ghost predicate PendingOk(e: End) {
    && (forall s :: s in e.mux.pending <==> s in e.subs && e.subs[s].opener && Msg(s, OpenResponse) !in e.taken)
    && (forall s | s in e.mux.pending :: s in e.mux.txs)
  }

  /** Each substream was routed its Data, in order, until it was dropped. */
  ghost predicate RoutedOk(e: End) {
    && (forall s | s in e.subs ::
          if e.subs[s].dropped then e.subs[s].routed <= DataOf(e.taken, s) else e.subs[s].routed == DataOf(e.taken, s))
    && (e.pc.Answering? ==> DataOf(e.taken, e.pc.s) == [])
  }

  /** The sending end of a substream's channel sent what the substream was routed, and
      knows whether it was dropped. */
  ghost predicate TxsOk(e: End) {
    forall s | s in e.mux.txs ::
      e.mux.txs[s] == if s in e.subs then TxEnd(e.subs[s].routed, !e.subs[s].dropped) else TxEnd([], true)
  }

  /** The multiplexer's collections are a function of the messages it took. */
  ghost predicate MuxOk(e: End) {
    KeysOk(e) && RolesOk(e) && PendingOk(e) && RoutedOk(e) && TxsOk(e)
  }

  /** Bytes placed, kept back and waiting are the bytes routed here. */
  ghost predicate BytesOk(e: End) {
    forall s | s in e.subs ::
      e.subs[s].placed + e.subs[s].st.unread + Concat(e.subs[s].st.rx) == Concat(e.subs[s].routed)
  }

  ghost predicate LinkOk(e: End) {
    && e.link == Run(e.events)
    && Proper(e.events)
    && e.taken <= Out(e)
    && (e.link.inbox.None? ==> e.subs == map[] && e.pc.Free? && e.mux == NEW_MUX)
    && TroubleOk(e)
  }

  /** The one way an endpoint can fail: a Close finds its substream dropped. A connection
      does not end half-way through a send. */
  ghost predicate TroubleOk(e: End) {
    && (e.trouble.Some? ==> e.pc.Free?)
    && e.trouble in {None, Some(Abandoned), Some(MuxTrouble(Panics(CloseReceiverGone)))}
  }

  ghost predicate Local(e: End) {
    LedgerOk(e) && StreamsOk(e) && MuxOk(e) && BytesOk(e) && LinkOk(e)
  }

  /** Everything that reached `e` was sent by `peer` and is accepted by the decoder. */
  ghost predicate Hears(e: End, peer: End) {
    forall i | 0 <= i < |e.events| && e.events[i].Arrived? ::
      e.events[i].m in peer.sent && !IsEmptyData(e.events[i].m.message)
  }

  /** Ids both sides generated. */
  ghost predicate Opens(e: End, s: SubstreamId) {
    (s in e.subs && e.subs[s].opener) || (e.pc.Opening? && e.pc.s == s)
  }

  ghost predicate Distinct(a: End, b: End) {
    forall s :: !(Opens(a, s) && Opens(b, s))
  }

  ghost predicate Inv(a: End, b: End) {
    Local(a) && Local(b) && Hears(a, b) && Hears(b, a) && Distinct(a, b)
  }

  // ---------------------------------------------------------------- what arrives was sent

  /** What the link forwarded is the peer's ledger, nonce by nonce. */
  lemma ForwardedWasSent(e: End, peer: End)
    requires LinkOk(e) && Hears(e, peer) && LedgerOk(peer)
    ensures forall i: nat | i < |Out(e)| :: SentAt(peer, i + 1, Out(e)[i]) && !IsEmptyData(Out(e)[i])
  {
    Reordering(e.events);
    if e.link.inbox.Some? {
      forall i: nat | i < |Out(e)| ensures SentAt(peer, i + 1, Out(e)[i]) && !IsEmptyData(Out(e)[i]) {
        FirstOrigin(e.events, i + 1);
        var m := First(e.events)[i + 1];
        assert m in peer.sent;
      }
    }
  }

  lemma HearKeepsLinkOk(e: End, peer: End, ev: Event)
    requires e.trouble.None? && LinkOk(e) && LedgerOk(peer) && Hears(e, peer)
    requires ev == Connected || (ev.Arrived? && ev.m in peer.sent && !IsEmptyData(ev.m.message))
    ensures LinkOk(Hear(e, ev)) && Hears(Hear(e, ev), peer)
    ensures Out(e) <= Out(Hear(e, ev))
  {
    var e' := Hear(e, ev);
    assert e'.events[..|e'.events| - 1] == e.events;
    assert Proper(e'.events);
    Reordering(e.events);
    Reordering(e'.events);
    if Connected in e.events {
      ForwardingOnlyAppends(e.events, [ev]);
    }
  }
}
