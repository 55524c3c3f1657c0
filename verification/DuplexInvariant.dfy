/** Every step of either endpoint keeps the invariant of `Duplex`. */
module DuplexInvariant {
  import opened Base
  import opened Messages
  import opened Receiver
  import opened SubstreamSpec
  import opened MuxerSpec
  import opened Duplex

  // ---------------------------------------------------------------- the ledger

  ghost predicate SameHoldings(e: End, e': End, who: Actor) {
    forall w | w != who :: Holding(e', w) == Holding(e, w)
  }

  lemma TakeKeepsLedger(e: End, e': End, who: Actor)
    requires LedgerOk(e) && e.counter <= U64_MAX
    requires e'.ledger == e.ledger[e.counter := InFlight(who)] && e'.counter == e.counter + 1
    requires e'.sent == e.sent && e'.burnt == e.burnt && e'.cid == e.cid
    requires Holding(e, who) == None && Holding(e', who) == Some(e.counter) && SameHoldings(e, e', who)
    ensures LedgerOk(e')
  {
    forall i | 0 <= i < |e'.sent| ensures SentAt(e', e'.sent[i].nonce, e'.sent[i].message) {
      assert SentAt(e, e.sent[i].nonce, e.sent[i].message);
    }
    forall n: nat, m | SentAt(e', n, m) ensures n <= U64_MAX && TransportMessage(n, m, e'.cid) in e'.sent {
      assert SentAt(e, n, m);
    }
  }

  lemma SendKeepsLedger(e: End, e': End, who: Actor, n: u64, m: SubstreamMessage)
    requires LedgerOk(e) && Holding(e, who) == Some(n)
    requires e'.ledger == e.ledger[n as nat := Sent(m)] && e'.counter == e.counter
    requires e'.sent == e.sent + [TransportMessage(n, m, e.cid)] && e'.burnt == e.burnt && e'.cid == e.cid
    requires Holding(e', who) == None && SameHoldings(e, e', who)
    ensures LedgerOk(e')
  {
    SendKeepsChannel(e, e', n, m);
    GivingUpHold(e, e', who, n);
    assert BurntOk(e');
  }

  /** The nonce an actor held is settled; all other holds stay. */
  lemma GivingUpHold(e: End, e': End, who: Actor, n: u64)
    requires HoldsOk(e) && Holding(e, who) == Some(n)
    requires n in e'.ledger && !e'.ledger[n].InFlight? && e'.ledger == e.ledger[n as nat := e'.ledger[n]]
    requires Holding(e', who) == None && SameHoldings(e, e', who)
    ensures HoldsOk(e')
  {
    forall w, k: u64 | Holding(e', w) == Some(k) ensures k in e'.ledger && e'.ledger[k] == InFlight(w) {
      assert w != who && Holding(e, w) == Some(k);
    }
    forall k: nat | k in e'.ledger && e'.ledger[k].InFlight? ensures Holding(e', e'.ledger[k].who) == Some(k) {
      assert k != n && Holding(e, e.ledger[k].who) == Some(k);
    }
  }

  lemma SendKeepsChannel(e: End, e': End, n: u64, m: SubstreamMessage)
    requires ChannelOk(e) && n in e.ledger && !e.ledger[n].Sent?
    requires e'.ledger == e.ledger[n as nat := Sent(m)]
    requires e'.sent == e.sent + [TransportMessage(n, m, e.cid)] && e'.cid == e.cid
    ensures ChannelOk(e')
  {
    var x := TransportMessage(n, m, e.cid);
    assert e'.sent[|e.sent|] == x;
    forall i | 0 <= i < |e'.sent|
      ensures e'.sent[i].id == e'.cid && SentAt(e', e'.sent[i].nonce, e'.sent[i].message)
    {
      if i < |e.sent| { assert SentAt(e, e.sent[i].nonce, e.sent[i].message); }
    }
    forall k: nat, y | SentAt(e', k, y) ensures k <= U64_MAX && TransportMessage(k, y, e'.cid) in e'.sent {
      if k != n { assert SentAt(e, k, y); }
    }
    forall i, j | 0 <= i < j < |e'.sent| ensures e'.sent[i].nonce != e'.sent[j].nonce {
      assert SentAt(e, e.sent[i].nonce, e.sent[i].message);
    }
  }

  lemma BurnKeepsLedger(e: End, e': End, who: Actor, n: u64)
    requires LedgerOk(e) && Holding(e, who) == Some(n)
    requires e'.ledger == e.ledger[n as nat := Burnt] && e'.counter == e.counter
    requires e'.sent == e.sent && e'.burnt == e.burnt + {n as nat} && e'.cid == e.cid
    requires Holding(e', who) == None && SameHoldings(e, e', who)
    ensures LedgerOk(e')
  {
    BurnKeepsChannel(e, e', n);
    GivingUpHold(e, e', who, n);
    assert BurntOk(e');
  }

  lemma BurnKeepsChannel(e: End, e': End, n: u64)
    requires ChannelOk(e) && n in e.ledger && !e.ledger[n].Sent?
    requires e'.ledger == e.ledger[n as nat := Burnt] && e'.sent == e.sent && e'.cid == e.cid
    ensures ChannelOk(e')
  {
    forall i | 0 <= i < |e'.sent| ensures SentAt(e', e'.sent[i].nonce, e'.sent[i].message) {
      assert SentAt(e, e.sent[i].nonce, e.sent[i].message);
    }
    forall k: nat, y | SentAt(e', k, y) ensures k <= U64_MAX && TransportMessage(k, y, e'.cid) in e'.sent {
      assert SentAt(e, k, y);
    }
  }

  lemma QuietKeepsLedger(e: End, e': End)
    requires LedgerOk(e)
    requires e'.ledger == e.ledger && e'.counter == e.counter
    requires e'.sent == e.sent && e'.burnt == e.burnt && e'.cid == e.cid
    requires forall w :: Holding(e', w) == Holding(e, w)
    ensures LedgerOk(e')
  {
    assert forall n: nat, m :: SentAt(e', n, m) <==> SentAt(e, n, m);
  }

  lemma MuxerKeepsLedger(e: End, a: Action)
    requires CanAct(e, a) && ByMuxer(a) && LedgerOk(e)
    requires !e.pc.Free? ==> e.pc.s !in e.subs
    ensures LedgerOk(Act(e, a))
  {
    var e' := Act(e, a);
    match a {
      case BeginOpen(_) => TakeKeepsLedger(e, e', Muxer);
      case FinishOpen => SendKeepsLedger(e, e', Muxer, e.pc.n, Msg(e.pc.s, OpenRequest));
      case FinishAnswer => SendKeepsLedger(e, e', Muxer, e.pc.n, Msg(e.pc.s, OpenResponse));
      case Process => ProcessKeepsLedger(e);
    }
  }

  lemma ProcessKeepsLedger(e: End)
    requires CanAct(e, Process) && LedgerOk(e)
    ensures LedgerOk(ProcessNext(e))
  {
    var e' := ProcessNext(e);
    if e'.pc.Free? { QuietKeepsLedger(e, e'); } else { TakeKeepsLedger(e, e', Muxer); }
  }

  lemma StreamKeepsLedger(e: End, a: Action)
    requires CanAct(e, a) && !ByMuxer(a) && LedgerOk(e)
    ensures LedgerOk(Act(e, a))
  {
    var e' := Act(e, a);
    match a {
      case BeginWrite(s, data) => BeginWriteKeepsLedger(e, s, data);
      case FinishWrite(s) => SendKeepsLedger(e, e', Stream(s), e.subs[s].pc.n, Msg(s, Data(e.subs[s].pc.data)));
      case BeginClose(s) => TakeKeepsLedger(e, e', Stream(s));
      case FinishClose(s) => FinishCloseKeepsLedger(e, s);
      case _ => QuietKeepsLedger(e, e');
    }
  }

  lemma BeginWriteKeepsLedger(e: End, s: SubstreamId, data: Chunk)
    requires CanAct(e, BeginWrite(s, data)) && LedgerOk(e)
    ensures LedgerOk(Act(e, BeginWrite(s, data)))
  {
    var e' := Act(e, BeginWrite(s, data));
    if e'.subs[s].pc.Idle? { QuietKeepsLedger(e, e'); } else { TakeKeepsLedger(e, e', Stream(s)); }
  }

  lemma FinishCloseKeepsLedger(e: End, s: SubstreamId)
    requires CanAct(e, FinishClose(s)) && LedgerOk(e)
    ensures LedgerOk(Act(e, FinishClose(s)))
  {
    var e' := Act(e, FinishClose(s));
    if e.subs[s].st.closed {
      BurnKeepsLedger(e, e', Stream(s), e.subs[s].pc.n);
    } else {
      SendKeepsLedger(e, e', Stream(s), e.subs[s].pc.n, Msg(s, Close));
    }
  }

  // ---------------------------------------------------------------- substreams

  /** Sent messages stay sent. */
  ghost predicate Grows(e: End, e': End) {
    && (forall m | m in e.sent :: m in e'.sent)
    && (forall n: nat, m | SentAt(e, n, m) :: SentAt(e', n, m))
  }

  lemma MuxerGrows(e: End, a: Action)
    requires CanAct(e, a) && ByMuxer(a) && Counted(e) && HoldsOk(e)
    ensures Grows(e, Act(e, a))
  {
    assert !e.pc.Free? ==> Holding(e, Muxer) == Some(e.pc.n);
  }

  lemma StreamGrows(e: End, a: Action)
    requires CanAct(e, a) && !ByMuxer(a) && Counted(e) && HoldsOk(e)
    ensures Grows(e, Act(e, a))
  {
    match a {
      case FinishWrite(s) => assert Holding(e, Stream(s)) == Some(e.subs[s].pc.n);
      case FinishClose(s) => assert Holding(e, Stream(s)) == Some(e.subs[s].pc.n);
      case _ =>
    }
  }

  /** A step that sends nothing: the ledger's sent part and every opening record stay. */
  lemma QuietKeepsStreams(e: End, e': End)
    requires StreamsOk(e)
    requires forall n: nat, m :: SentAt(e', n, m) <==> SentAt(e, n, m)
    requires e'.subs.Keys == e.subs.Keys
    requires forall s | s in e.subs :: StreamRecordKept(e, e', s)
    requires !e'.pc.Free? ==> e'.pc.s !in e'.subs
    ensures StreamsOk(e')
  {
    forall n: nat, m | SentAt(e', n, m) ensures SlotOk(e', n, m) {
      assert SlotOk(e, n, m);
      assert StreamRecordKept(e, e', m.substreamId);
    }
    forall s | s in e'.subs ensures SubOk(e', s) {
      assert SubOk(e, s) && StreamRecordKept(e, e', s);
    }
  }

  ghost predicate StreamRecordKept(e: End, e': End, s: SubstreamId)
    requires s in e.subs && e'.subs.Keys == e.subs.Keys
  {
    var sub, sub' := e.subs[s], e'.subs[s];
    && sub'.opener == sub.opener && sub'.born == sub.born && sub'.wrote == sub.wrote && sub'.closedAt == sub.closedAt
    && (sub.st.closed ==> sub'.st.closed)
    && (sub'.pc.Writing? ==> sub.pc == sub'.pc || sub.closedAt.None?)
    && (!sub'.pc.Idle? ==> sub'.pc == sub.pc || forall n: nat, m | SentAt(e, n, m) :: n < sub'.pc.n)
  }

  /** A substream begins: its opening message is the only one it has. */
  lemma OpeningKeepsStreams(e: End, e': End, opener: bool)
    requires HoldsOk(e) && StreamsOk(e) && !e.pc.Free?
    requires e'.ledger == e.ledger[e.pc.n as nat := Sent(Msg(e.pc.s, if opener then OpenRequest else OpenResponse))]
    requires e'.subs == e.subs[e.pc.s := NewSub(opener, e.pc.n)] && e'.pc.Free?
    ensures StreamsOk(e')
  {
    assert Holding(e, Muxer) == Some(e.pc.n);
    forall n: nat, m | SentAt(e', n, m) ensures SlotOk(e', n, m) {
      if n != e.pc.n { assert SentAt(e, n, m) && SlotOk(e, n, m); }
    }
    forall s | s in e'.subs ensures SubOk(e', s) {
      if s != e.pc.s {
        assert SubOk(e, s);
        SubKeepsSlots(e, e', s, e.pc.n);
      }
    }
  }

  lemma SubKeepsSlots(e: End, e': End, s: SubstreamId, n: u64)
    requires s in e.subs && SubOk(e, s) && s in e'.subs && e'.subs[s] == e.subs[s]
    requires forall k: nat | k != n :: k in e.ledger ==> k in e'.ledger && e'.ledger[k] == e.ledger[k]
    requires n in e.ledger ==> !e.ledger[n].Sent?
    ensures SubOk(e', s)
  {
    var sub := e.subs[s];
    forall i | 0 <= i < |sub.wrote| ensures SentAt(e', sub.wrote[i].0, Msg(s, Data(sub.wrote[i].1))) {
      assert SentAt(e, sub.wrote[i].0, Msg(s, Data(sub.wrote[i].1)));
    }
    assert SentAt(e, sub.born, Msg(s, if sub.opener then OpenRequest else OpenResponse));
  }

  /** What a substream becomes when it sends `body` under the nonce it holds. */
  ghost predicate Emitted(sub: Sub, sub': Sub, body: SubstreamMessageType) {
    || (body.Data? && sub.pc.Writing? && sub' == sub.(pc := Idle, wrote := sub.wrote + [(sub.pc.n as nat, body.data)]))
    || (body.Close? && sub.pc.Closing? && !sub.st.closed
        && sub' == sub.(pc := Idle, st := sub.st.(closed := true), closedAt := Some(sub.pc.n)))
  }

  lemma EmissionKeepsStreams(e: End, e': End, s: SubstreamId, body: SubstreamMessageType)
    requires HoldsOk(e) && StreamsOk(e) && s in e.subs && !e.subs[s].pc.Idle?
    requires e'.ledger == e.ledger[e.subs[s].pc.n as nat := Sent(Msg(s, body))] && e'.pc == e.pc
    requires s in e'.subs && e'.subs == e.subs[s := e'.subs[s]] && Emitted(e.subs[s], e'.subs[s], body)
    ensures StreamsOk(e')
  {
    var n := e.subs[s].pc.n;
    assert SubOk(e, s);
    EmissionKeepsSub(e, e', s, body);
    EmissionKeepsSlots(e, e', s, body);
    EmissionKeepsOthers(e, e', s, body);
  }

  lemma EmissionKeepsOthers(e: End, e': End, s: SubstreamId, body: SubstreamMessageType)
    requires HoldsOk(e) && s in e.subs && !e.subs[s].pc.Idle?
    requires forall t | t in e.subs :: SubOk(e, t)
    requires e'.ledger == e.ledger[e.subs[s].pc.n as nat := Sent(Msg(s, body))]
    requires s in e'.subs && e'.subs == e.subs[s := e'.subs[s]]
    ensures forall t | t in e'.subs && t != s :: SubOk(e', t)
  {
    assert Holding(e, Stream(s)) == Some(e.subs[s].pc.n);
    forall t | t in e'.subs && t != s ensures SubOk(e', t) {
      assert SubOk(e, t);
      SubKeepsSlots(e, e', t, e.subs[s].pc.n);
    }
  }

  lemma EmissionKeepsSlots(e: End, e': End, s: SubstreamId, body: SubstreamMessageType)
    requires s in e.subs && !e.subs[s].pc.Idle? && SubOk(e, s)
    requires forall n: nat, m | SentAt(e, n, m) :: SlotOk(e, n, m)
    requires e'.ledger == e.ledger[e.subs[s].pc.n as nat := Sent(Msg(s, body))]
    requires s in e'.subs && e'.subs == e.subs[s := e'.subs[s]] && Emitted(e.subs[s], e'.subs[s], body)
    requires SlotOk(e', e.subs[s].pc.n, Msg(s, body))
    ensures forall k: nat, m | SentAt(e', k, m) :: SlotOk(e', k, m)
  {
    forall k: nat, m | SentAt(e', k, m) ensures SlotOk(e', k, m) {
      if k != e.subs[s].pc.n {
        assert SentAt(e, k, m) && SlotOk(e, k, m);
      }
    }
  }

  lemma EmissionKeepsSub(e: End, e': End, s: SubstreamId, body: SubstreamMessageType)
    requires HoldsOk(e) && s in e.subs && !e.subs[s].pc.Idle? && SubOk(e, s)
    requires forall n: nat, m | SentAt(e, n, m) && m.substreamId == s :: SlotOk(e, n, m)
    requires e'.ledger == e.ledger[e.subs[s].pc.n as nat := Sent(Msg(s, body))]
    requires s in e'.subs && Emitted(e.subs[s], e'.subs[s], body)
    ensures SubOk(e', s) && SlotOk(e', e.subs[s].pc.n, Msg(s, body))
  {
    var sub, sub', n := e.subs[s], e'.subs[s], e.subs[s].pc.n;
    assert Holding(e, Stream(s)) == Some(n);
    var opening := Msg(s, if sub.opener then OpenRequest else OpenResponse);
    assert SentAt(e, sub.born, opening) && SlotOk(e, sub.born, opening);
    forall i | 0 <= i < |sub.wrote|
      ensures sub.wrote[i].0 < n && SentAt(e', sub.wrote[i].0, Msg(s, Data(sub.wrote[i].1)))
    {
      var m := Msg(s, Data(sub.wrote[i].1));
      assert SentAt(e, sub.wrote[i].0, m) && SlotOk(e, sub.wrote[i].0, m);
    }
    if body.Data? {
      assert sub'.wrote[|sub.wrote|] == (n as nat, body.data);
    }
  }

  lemma StreamKeepsStreams(e: End, a: Action)
    requires CanAct(e, a) && !ByMuxer(a) && Counted(e) && HoldsOk(e) && StreamsOk(e)
    ensures StreamsOk(Act(e, a))
  {
    match a {
      case FinishWrite(s) => FinishWriteKeepsStreams(e, s);
      case FinishClose(s) => FinishCloseKeepsStreams(e, s);
      case BeginWrite(s, data) => BeginWriteKeepsStreams(e, s, data);
      case BeginClose(s) => BeginKeepsStreams(e, Act(e, a), s);
      case _ => QuietActKeepsStreams(e, a);
    }
  }

  lemma BeginWriteKeepsStreams(e: End, s: SubstreamId, data: Chunk)
    requires CanAct(e, BeginWrite(s, data)) && Counted(e) && StreamsOk(e)
    ensures StreamsOk(Act(e, BeginWrite(s, data)))
  {
    BeginKeepsStreams(e, Act(e, BeginWrite(s, data)), s);
  }

  predicate Silent(a: Action) {
    a.Connect? || a.Deliver? || a.ReadSome? || a.FlushSome? || a.Drop? || a.Abandon?
  }

  lemma QuietActKeepsStreams(e: End, a: Action)
    requires CanAct(e, a) && Silent(a) && StreamsOk(e)
    ensures StreamsOk(Act(e, a))
  {
    SilentRecords(e, a);
    QuietKeepsStreams(e, Act(e, a));
  }

  lemma SilentRecords(e: End, a: Action)
    requires CanAct(e, a) && Silent(a)
    ensures var e' := Act(e, a);
            && e'.ledger == e.ledger && e'.pc == e.pc && e'.subs.Keys == e.subs.Keys
            && forall s | s in e.subs :: StreamRecordKept(e, e', s)
  {
  }

  lemma FinishWriteKeepsStreams(e: End, s: SubstreamId)
    requires CanAct(e, FinishWrite(s)) && HoldsOk(e) && StreamsOk(e)
    ensures StreamsOk(Act(e, FinishWrite(s)))
  {
    EmissionKeepsStreams(e, Act(e, FinishWrite(s)), s, Data(e.subs[s].pc.data));
  }

  lemma FinishCloseKeepsStreams(e: End, s: SubstreamId)
    requires CanAct(e, FinishClose(s)) && HoldsOk(e) && StreamsOk(e)
    ensures StreamsOk(Act(e, FinishClose(s)))
  {
    var e' := Act(e, FinishClose(s));
    if e.subs[s].st.closed {
      assert Holding(e, Stream(s)) == Some(e.subs[s].pc.n);
      QuietKeepsStreams(e, e');
    } else {
      EmissionKeepsStreams(e, e', s, Close);
    }
  }

  /** A substream takes a nonce beyond all those sent so far, or gives up. */
  lemma BeginKeepsStreams(e: End, e': End, s: SubstreamId)
    requires Counted(e) && StreamsOk(e) && s in e.subs && e.subs[s].pc.Idle?
    requires s in e'.subs && e'.subs == e.subs[s := e'.subs[s]] && e'.pc == e.pc
    requires e'.ledger == e.ledger || e'.ledger == e.ledger[e.counter := InFlight(Stream(s))]
    requires var sub, sub' := e.subs[s], e'.subs[s];
             && sub' == sub.(st := sub'.st, pc := sub'.pc)
             && (sub.st.closed ==> sub'.st.closed)
             && (sub'.pc.Writing? ==> !sub.st.closed)
             && (!sub'.pc.Idle? ==> sub'.pc.n == e.counter)
    ensures StreamsOk(e')
  {
    assert SubOk(e, s);
    assert forall n: nat, m | SentAt(e, n, m) :: n in e.ledger;
    assert e.counter !in e.ledger;
    QuietKeepsStreams(e, e');
  }

  // ---------------------------------------------------------------- the distributed argument

  /** What `e` took is the peer's ledger, nonce by nonce. */
  ghost predicate TakenFrom(e: End, peer: End) {
    && (forall i: nat | i < |Out(e)| :: SentAt(peer, i + 1, Out(e)[i]))
    && e.taken <= Out(e)
  }

  lemma Channels(e: End, peer: End)
    requires LinkOk(e) && Hears(e, peer) && LedgerOk(peer)
    ensures TakenFrom(e, peer)
  {
    ForwardedWasSent(e, peer);
  }

  lemma TakenHasSlot(e: End, peer: End, m: SubstreamMessage) returns (n: nat)
    requires TakenFrom(e, peer) && m in e.taken
    ensures 1 <= n <= |e.taken| && SentAt(peer, n, m)
  {
    var i: nat :| i < |e.taken| && e.taken[i] == m;
    assert Out(e)[i] == m;
    n := i + 1;
  }

  lemma SlotWasTaken(e: End, peer: End, n: nat, m: SubstreamMessage)
    requires TakenFrom(e, peer) && SentAt(peer, n, m) && 1 <= n <= |e.taken|
    ensures m in e.taken
  {
    var i: nat := n - 1;
    assert SentAt(peer, i + 1, Out(e)[i]);
    assert e.taken[i] == m;
  }

  /** The peer took our request only after we sent it: an acceptor's partner is an opener. */
  lemma AcceptorHasOpener(e: End, peer: End, s: SubstreamId)
    requires StreamsOk(e) && TakenFrom(peer, e) && Msg(s, OpenRequest) in peer.taken
    ensures s in e.subs && e.subs[s].opener
  {
    var n := TakenHasSlot(peer, e, Msg(s, OpenRequest));
    assert SlotOk(e, n, Msg(s, OpenRequest));
  }

  /** Nothing about an id this side is still opening can have arrived. */
  lemma OpeningIsUnheard(e: End, peer: End, m: SubstreamMessage)
    requires StreamsOk(e) && StreamsOk(peer) && MuxOk(peer) && Distinct(e, peer)
    requires TakenFrom(e, peer) && TakenFrom(peer, e)
    requires e.pc.Opening? && m in e.taken
    ensures m.substreamId != e.pc.s
  {
    var n := TakenHasSlot(e, peer, m);
    assert SlotOk(peer, n, m);
    var s := m.substreamId;
    if s == e.pc.s {
      assert Opens(e, s) && !Opens(peer, s);
      AcceptorHasOpener(e, peer, s);
    }
  }

  /** A request is the first thing heard about its id, and the id is not ours. */
  lemma RequestIsNews(e: End, peer: End, s: SubstreamId)
    requires StreamsOk(e) && StreamsOk(peer) && MuxOk(e) && Distinct(e, peer) && e.pc.Free?
    requires TakenFrom(e, peer) && SentAt(peer, |e.taken| + 1, Msg(s, OpenRequest))
    ensures s !in e.subs
    ensures forall m | m in e.taken :: m.substreamId != s
  {
    assert SlotOk(peer, |e.taken| + 1, Msg(s, OpenRequest));
    forall m | m in e.taken ensures m.substreamId != s {
      var n := TakenHasSlot(e, peer, m);
      assert SlotOk(peer, n, m);
    }
    assert Opens(peer, s);
  }

  /** Before its Data or Close, a substream's opening message was taken. */
  lemma OpeningWasTaken(e: End, peer: End, m: SubstreamMessage)
    requires Counted(peer) && StreamsOk(peer) && TakenFrom(e, peer)
    requires SentAt(peer, |e.taken| + 1, m) && (m.messageType.Data? || m.messageType.Close?)
    ensures m.substreamId in peer.subs
    ensures Msg(m.substreamId, if peer.subs[m.substreamId].opener then OpenRequest else OpenResponse) in e.taken
  {
    var s := m.substreamId;
    assert SlotOk(peer, |e.taken| + 1, m);
    var sub := peer.subs[s];
    assert SubOk(peer, s);
    var opening := Msg(s, if sub.opener then OpenRequest else OpenResponse);
    assert SentAt(peer, sub.born, opening) && sub.born in peer.ledger;
    SlotWasTaken(e, peer, sub.born, opening);
  }

  /** No message of a substream follows its Close. */
  lemma NothingAfterClose(e: End, peer: End, m: SubstreamMessage)
    requires StreamsOk(peer) && TakenFrom(e, peer) && SentAt(peer, |e.taken| + 1, m)
    ensures Msg(m.substreamId, Close) !in e.taken
  {
    assert SlotOk(peer, |e.taken| + 1, m);
    forall x | x in e.taken ensures x != Msg(m.substreamId, Close) {
      var n := TakenHasSlot(e, peer, x);
      assert SlotOk(peer, n, x);
    }
  }

  /** Data or Close is about a substream this side knows and has not seen closed, and
      whose opening exchange is over. */
  lemma TrafficIsKnown(e: End, peer: End, m: SubstreamMessage)
    requires Counted(peer) && StreamsOk(e) && StreamsOk(peer) && MuxOk(e) && MuxOk(peer) && Distinct(e, peer)
    requires e.pc.Free?
    requires TakenFrom(e, peer) && TakenFrom(peer, e)
    requires SentAt(peer, |e.taken| + 1, m) && (m.messageType.Data? || m.messageType.Close?)
    ensures var s := m.substreamId;
            s in e.subs && s in e.mux.txs && Msg(s, Close) !in e.taken && s !in e.mux.pending
  {
    var s := m.substreamId;
    OpeningWasTaken(e, peer, m);
    NothingAfterClose(e, peer, m);
    if !peer.subs[s].opener {
      assert Msg(s, OpenRequest) in peer.taken;
      AcceptorHasOpener(e, peer, s);
    }
  }

  // ---------------------------------------------------------------- the multiplexer

  lemma DataOfAppend(ms: seq<SubstreamMessage>, m: SubstreamMessage, s: SubstreamId)
    ensures DataOf(ms + [m], s) ==
            DataOf(ms, s) + if m.substreamId == s && m.messageType.Data? then [m.messageType.data] else []
  {
    assert (ms + [m])[..|ms|] == ms;
  }

  lemma {:induction false} DataOfNothing(ms: seq<SubstreamMessage>, s: SubstreamId)
    requires forall m | m in ms :: m.substreamId != s
    ensures DataOf(ms, s) == []
  {
    if ms != [] { DataOfNothing(ms[..|ms| - 1], s); }
  }

  /** The next message to take, as the invariant knows it. */
  ghost predicate Expected(e: End, m: SubstreamMessage) {
    var s := m.substreamId;
    && (m.messageType.OpenRequest? ==> s !in e.subs && forall x | x in e.taken :: x.substreamId != s)
    && (m.messageType.Data? || m.messageType.Close? ==>
          s in e.subs && s in e.mux.txs && Msg(s, Close) !in e.taken && s !in e.mux.pending)
    && Route(e.mux, m).1 ==
         if m.messageType.OpenRequest? then Respond
         else if m.messageType.Close? && Gone(e, s) then Panics(CloseReceiverGone)
         else Continue
  }

  lemma NextIsRouted(e: End, peer: End)
    requires Counted(peer) && StreamsOk(e) && StreamsOk(peer) && MuxOk(e) && MuxOk(peer) && Distinct(e, peer)
    requires TakenFrom(e, peer) && TakenFrom(peer, e) && CanAct(e, Process)
    ensures Expected(e, Out(e)[|e.taken|])
  {
    var m := Out(e)[|e.taken|];
    assert SentAt(peer, |e.taken| + 1, m);
    match m.messageType {
      case OpenRequest =>
        RequestIsNews(e, peer, m.substreamId);
        RequestIsRouted(e, m);
      case OpenResponse =>
      case _ =>
        TrafficIsKnown(e, peer, m);
        TrafficIsRouted(e, m);
    }
  }

  lemma RequestIsRouted(e: End, m: SubstreamMessage)
    requires m.messageType.OpenRequest? && KeysOk(e) && e.pc.Free?
    requires m.substreamId !in e.subs && forall x | x in e.taken :: x.substreamId != m.substreamId
    ensures Expected(e, m)
  {
  }

  lemma TrafficIsRouted(e: End, m: SubstreamMessage)
    requires (m.messageType.Data? || m.messageType.Close?) && KeysOk(e)
    requires m.substreamId in e.subs && m.substreamId in e.mux.txs
    requires Msg(m.substreamId, Close) !in e.taken && m.substreamId !in e.mux.pending
    ensures Expected(e, m)
  {
  }

  /** A step that leaves the collections alone and keeps each substream's role. */
  lemma QuietKeepsMux(e: End, e': End)
    requires MuxOk(e)
    requires e'.mux == e.mux && e'.taken == e.taken && e'.subs.Keys == e.subs.Keys
    requires forall s | s in e.subs ::
               && e'.subs[s].opener == e.subs[s].opener && e'.subs[s].routed == e.subs[s].routed
               && e'.subs[s].dropped == e.subs[s].dropped
    requires e'.pc == e.pc || (e.pc.Free? && e'.pc.Opening?)
    ensures MuxOk(e')
  {
    assert forall s :: Answers(e', s) <==> Answers(e, s);
    assert forall s :: Gone(e', s) <==> Gone(e, s);
  }

  lemma DropKeepsMux(e: End, s: SubstreamId)
    requires MuxOk(e) && CanAct(e, Drop(s))
    ensures MuxOk(Act(e, Drop(s)))
  {
    var e' := Act(e, Drop(s));
    DroppedKeepsKeys(e, e', s);
    DroppedKeepsRest(e, e', s);
    DroppedKeepsTxs(e, e', s);
  }

  ghost predicate DropsOne(e: End, e': End, s: SubstreamId) {
    && s in e.subs && !e.subs[s].dropped && e'.subs == e.subs[s := e.subs[s].(dropped := true)]
    && e'.mux == DropEnd(e.mux, s) && e'.taken == e.taken && e'.pc == e.pc
  }

  lemma DroppedKeepsKeys(e: End, e': End, s: SubstreamId)
    requires DropsOne(e, e', s) && KeysOk(e)
    ensures KeysOk(e')
  {
    assert forall t :: Answers(e', t) <==> Answers(e, t);
    assert forall t :: Gone(e', t) <==> Gone(e, t) || t == s;
  }

  lemma DroppedKeepsRest(e: End, e': End, s: SubstreamId)
    requires DropsOne(e, e', s) && RolesOk(e) && PendingOk(e) && RoutedOk(e)
    ensures RolesOk(e') && PendingOk(e') && RoutedOk(e')
  {
    assert forall t :: Answers(e', t) <==> Answers(e, t);
  }

  lemma DroppedKeepsTxs(e: End, e': End, s: SubstreamId)
    requires DropsOne(e, e', s) && TxsOk(e)
    ensures TxsOk(e')
  {
  }

  /** A substream enters under an id nothing was heard about. */
  ghost predicate OpensOne(e: End, e': End, s: SubstreamId, sub: Sub) {
    && s !in e.subs && !e.pc.Answering? && !e'.pc.Answering?
    && (forall m | m in e.taken :: m.substreamId != s)
    && e'.taken == e.taken && e'.mux == CreatePending(e.mux, s)
    && e'.subs == e.subs[s := sub] && sub.opener && sub.routed == [] && !sub.dropped
  }

  lemma OpenedKeepsMux(e: End, e': End, s: SubstreamId, sub: Sub)
    requires MuxOk(e) && OpensOne(e, e', s, sub)
    ensures MuxOk(e')
  {
    OpenedKeepsKeys(e, e', s, sub);
    OpenedKeepsRoles(e, e', s, sub);
    OpenedKeepsRouted(e, e', s, sub);
  }

  lemma OpenedKeepsKeys(e: End, e': End, s: SubstreamId, sub: Sub)
    requires OpensOne(e, e', s, sub) && KeysOk(e) && PendingOk(e)
    ensures KeysOk(e') && PendingOk(e')
  {
    assert forall t :: !Answers(e, t) && !Answers(e', t);
    assert forall t :: Gone(e', t) <==> Gone(e, t);
  }

  lemma OpenedKeepsRoles(e: End, e': End, s: SubstreamId, sub: Sub)
    requires OpensOne(e, e', s, sub) && RolesOk(e)
    ensures RolesOk(e')
  {
    assert forall t :: !Answers(e, t) && !Answers(e', t);
  }

  lemma OpenedKeepsRouted(e: End, e': End, s: SubstreamId, sub: Sub)
    requires OpensOne(e, e', s, sub) && RoutedOk(e) && TxsOk(e)
    ensures RoutedOk(e') && TxsOk(e')
  {
    DataOfNothing(e.taken, s);
  }

  lemma FinishOpenKeepsMux(e: End, peer: End)
    requires StreamsOk(e) && StreamsOk(peer) && MuxOk(e) && MuxOk(peer) && Distinct(e, peer)
    requires TakenFrom(e, peer) && TakenFrom(peer, e) && CanAct(e, FinishOpen)
    ensures e.pc.s !in e.mux.txs
    ensures MuxOk(Act(e, FinishOpen))
  {
    var s, e' := e.pc.s, Act(e, FinishOpen);
    forall m | m in e.taken ensures m.substreamId != s {
      OpeningIsUnheard(e, peer, m);
    }
    assert !Answers(e, s);
    OpenedKeepsMux(e, e', s, NewSub(true, e.pc.n));
  }

  lemma FinishAnswerKeepsMux(e: End)
    requires StreamsOk(e) && MuxOk(e) && CanAct(e, FinishAnswer)
    ensures MuxOk(Act(e, FinishAnswer))
  {
    var e', sub := Act(e, FinishAnswer), NewSub(false, e.pc.n);
    AnsweredKeepsKeys(e, e', sub);
    AnsweredKeepsRoles(e, e', sub);
    AnsweredKeepsPending(e, e', sub);
    AnsweredKeepsRouted(e, e', sub);
    AnsweredKeepsTxs(e, e', sub);
  }

  /** The substream of an answered request enters. */
  ghost predicate Answered(e: End, e': End, sub: Sub) {
    && e.pc.Answering? && e.pc.s !in e.subs && e'.pc.Free?
    && e'.subs == e.subs[e.pc.s := sub] && !sub.opener && sub.routed == [] && !sub.dropped
    && e'.taken == e.taken && e'.mux == e.mux.(inboundOpen := e'.mux.inboundOpen)
  }

  lemma AnsweredKeepsKeys(e: End, e': End, sub: Sub)
    requires Answered(e, e', sub) && KeysOk(e)
    ensures KeysOk(e')
  {
    assert forall s :: Answers(e, s) <==> s == e.pc.s;
    assert forall s :: Gone(e', s) <==> Gone(e, s);
  }

  lemma AnsweredKeepsRoles(e: End, e': End, sub: Sub)
    requires Answered(e, e', sub) && RolesOk(e)
    ensures RolesOk(e')
  {
    assert forall s :: Answers(e, s) <==> s == e.pc.s;
  }

  lemma AnsweredKeepsPending(e: End, e': End, sub: Sub)
    requires Answered(e, e', sub) && PendingOk(e)
    ensures PendingOk(e')
  {
  }

  lemma AnsweredKeepsTxs(e: End, e': End, sub: Sub)
    requires Answered(e, e', sub) && TxsOk(e)
    ensures TxsOk(e')
  {
  }

  lemma AnsweredKeepsRouted(e: End, e': End, sub: Sub)
    requires Answered(e, e', sub) && RoutedOk(e)
    ensures RoutedOk(e')
  {
  }

  lemma RequestKeepsMux(e: End, e': End, s: SubstreamId)
    requires MuxOk(e) && e.pc.Free? && s !in e.subs && forall x | x in e.taken :: x.substreamId != s
    requires e'.taken == e.taken + [Msg(s, OpenRequest)] && e'.mux == Create(e.mux, s)
    requires e'.subs == e.subs && e'.pc.Answering? && e'.pc.s == s
    ensures MuxOk(e')
  {
    assert forall t :: !Answers(e, t) && (Answers(e', t) <==> t == s);
    assert RolesOk(e');
    assert PendingOk(e');
    assert KeysOk(e') by { assert forall t :: Gone(e', t) <==> Gone(e, t); }
    RequestKeepsRouted(e, e', s);
  }

  lemma RequestKeepsRouted(e: End, e': End, s: SubstreamId)
    requires RoutedOk(e) && TxsOk(e) && e.pc.Free? && s !in e.subs && forall x | x in e.taken :: x.substreamId != s
    requires e'.taken == e.taken + [Msg(s, OpenRequest)] && e'.mux == Create(e.mux, s)
    requires e'.subs == e.subs && e'.pc.Answering? && e'.pc.s == s
    ensures RoutedOk(e') && TxsOk(e')
  {
    DataOfNothing(e.taken, s);
    forall t ensures DataOf(e'.taken, t) == DataOf(e.taken, t) {
      DataOfAppend(e.taken, Msg(s, OpenRequest), t);
    }
  }

  /** Taking any message but a request keeps roles, and routes exactly its data. */
  lemma TakingKeepsRoles(e: End, e': End, m: SubstreamMessage)
    requires RolesOk(e) && RoutedOk(e) && e.pc.Free? && e'.pc.Free? && !m.messageType.OpenRequest?
    requires e'.taken == e.taken + [m] && e'.subs.Keys == e.subs.Keys
    requires forall s | s in e.subs ::
               && e'.subs[s].opener == e.subs[s].opener
               && e'.subs[s].dropped == e.subs[s].dropped
               && e'.subs[s].routed == e.subs[s].routed +
                    if m.substreamId == s && m.messageType.Data? && !e.subs[s].dropped then [m.messageType.data] else []
    ensures RolesOk(e') && RoutedOk(e')
  {
    forall s | s in e'.subs
      ensures if e'.subs[s].dropped then e'.subs[s].routed <= DataOf(e'.taken, s)
              else e'.subs[s].routed == DataOf(e'.taken, s)
    {
      DataOfAppend(e.taken, m, s);
    }
    assert forall s :: !Answers(e, s) && !Answers(e', s);
    assert forall s :: Msg(s, OpenRequest) in e'.taken <==> Msg(s, OpenRequest) in e.taken;
  }

  /** Taking a response, a Close or Data keeps keys and pending entries. */
  lemma TakingKeepsKeys(e: End, e': End, m: SubstreamMessage)
    requires KeysOk(e) && PendingOk(e) && e.pc.Free? && e'.pc.Free? && !m.messageType.OpenRequest?
    requires e'.taken == e.taken + [m] && e'.subs.Keys == e.subs.Keys
    requires forall s | s in e.subs ::
               e'.subs[s].opener == e.subs[s].opener && e'.subs[s].dropped == e.subs[s].dropped
    requires var s := m.substreamId;
             if m.messageType.Close? then
               && s !in e.mux.pending && e'.mux.pending == e.mux.pending
               && e'.mux.txs == e.mux.txs - {s} && e'.mux.closeTxs == e.mux.closeTxs - {s}
             else
               && e'.mux.pending == (if m.messageType.OpenResponse? then e.mux.pending - {s} else e.mux.pending)
               && e'.mux.txs.Keys == e.mux.txs.Keys && e'.mux.closeTxs == e.mux.closeTxs
    ensures KeysOk(e') && PendingOk(e')
  {
    assert forall s :: !Answers(e, s) && !Answers(e', s);
    assert forall s, t :: Msg(s, t) in e'.taken <==> Msg(s, t) in e.taken || Msg(s, t) == m;
    assert forall s :: Gone(e', s) <==> Gone(e, s);
  }

  /** What is sent into a channel is what reaches its substream. */
  lemma TakingKeepsTxs(e: End, e': End, m: SubstreamMessage)
    requires TxsOk(e) && !m.messageType.OpenRequest? && e'.mux == Route(e.mux, m).0
    requires m.messageType.Data? ==> m.substreamId in e.subs
    requires e'.subs == if m.substreamId in e.subs
                        then e.subs[m.substreamId := Reach(e.subs[m.substreamId], m.messageType)] else e.subs
    ensures TxsOk(e')
  {
  }

  /** What processing an expected message does. */
  lemma ProcessShape(e: End)
    requires CanAct(e, Process) && Expected(e, Out(e)[|e.taken|])
    ensures var m, e' := Out(e)[|e.taken|], ProcessNext(e);
            var s := m.substreamId;
            && e'.taken == e.taken + [m] && e'.mux == Route(e.mux, m).0
            && e'.trouble == (if m.messageType.Close? && Gone(e, s)
                              then Some(MuxTrouble(Panics(CloseReceiverGone))) else e.trouble)
            && (m.messageType.OpenRequest? ==> e'.subs == e.subs && e'.pc == Answering(e.counter, s))
            && (!m.messageType.OpenRequest? ==>
                  && e'.pc.Free?
                  && e'.subs == if s in e.subs then e.subs[s := Reach(e.subs[s], m.messageType)] else e.subs)
  {
  }

  lemma ExpectedKeepsMux(e: End)
    requires MuxOk(e) && CanAct(e, Process) && Expected(e, Out(e)[|e.taken|])
    ensures MuxOk(ProcessNext(e)) && TroubleOk(ProcessNext(e))
    ensures ProcessNext(e).pc.Answering? ==> ProcessNext(e).pc.s !in e.subs
  {
    ProcessShape(e);
    var m, e' := Out(e)[|e.taken|], ProcessNext(e);
    if m.messageType.OpenRequest? {
      RequestKeepsMux(e, e', m.substreamId);
    } else {
      TakingKeepsMux(e, e', m);
    }
  }

  lemma TakingKeepsMux(e: End, e': End, m: SubstreamMessage)
    requires MuxOk(e) && Expected(e, m) && e.pc.Free? && e'.pc.Free? && !m.messageType.OpenRequest?
    requires e'.taken == e.taken + [m] && e'.mux == Route(e.mux, m).0
    requires e'.subs == if m.substreamId in e.subs
                        then e.subs[m.substreamId := Reach(e.subs[m.substreamId], m.messageType)] else e.subs
    ensures MuxOk(e')
  {
    ReachKeepsRecords(e, e', m);
    RouteShape(e.mux, m);
    assert RolesOk(e') && RoutedOk(e') by { TakingKeepsRoles(e, e', m); }
    assert KeysOk(e') && PendingOk(e') by { TakingKeepsKeys(e, e', m); }
    assert TxsOk(e') by { TakingKeepsTxs(e, e', m); }
  }

  lemma ReachKeepsRecords(e: End, e': End, m: SubstreamMessage)
    requires e'.subs == if m.substreamId in e.subs
                        then e.subs[m.substreamId := Reach(e.subs[m.substreamId], m.messageType)] else e.subs
    ensures e'.subs.Keys == e.subs.Keys
    ensures forall s | s in e.subs ::
              && e'.subs[s].opener == e.subs[s].opener && e'.subs[s].dropped == e.subs[s].dropped
              && e'.subs[s].routed == e.subs[s].routed +
                   if m.substreamId == s && m.messageType.Data? && !e.subs[s].dropped then [m.messageType.data] else []
  {
  }

  lemma RouteShape(m: Mux, msg: SubstreamMessage)
    requires !msg.messageType.OpenRequest?
    requires msg.messageType.Close? ==> msg.substreamId in m.txs
    ensures var s, m' := msg.substreamId, Route(m, msg).0;
            && (msg.messageType.Close? ==>
                  m'.pending == m.pending && m'.txs == m.txs - {s} && m'.closeTxs == m.closeTxs - {s})
            && (!msg.messageType.Close? ==>
                  && m'.pending == (if msg.messageType.OpenResponse? then m.pending - {s} else m.pending)
                  && m'.txs.Keys == m.txs.Keys && m'.closeTxs == m.closeTxs)
  {
  }

  lemma ProcessKeepsStreams(e: End)
    requires CanAct(e, Process) && Counted(e) && StreamsOk(e) && Expected(e, Out(e)[|e.taken|])
    ensures StreamsOk(ProcessNext(e))
  {
    var e' := ProcessNext(e);
    ProcessShape(e);
    assert e'.ledger == e.ledger || (e.counter !in e.ledger && e'.ledger == e.ledger[e.counter := InFlight(Muxer)]);
    forall s | s in e.subs ensures StreamRecordKept(e, e', s) {
      assert SubOk(e, s);
    }
    QuietKeepsStreams(e, e');
  }

  lemma MuxerKeepsStreams(e: End, a: Action)
    requires CanAct(e, a) && ByMuxer(a) && Counted(e) && HoldsOk(e) && StreamsOk(e)
    requires a.BeginOpen? ==> !Knows(e, a.s)
    requires a.FinishOpen? ==> e.pc.s !in e.mux.txs
    requires a.Process? ==> Expected(e, Out(e)[|e.taken|])
    ensures StreamsOk(Act(e, a))
  {
    var e' := Act(e, a);
    match a {
      case FinishOpen => OpeningKeepsStreams(e, e', true);
      case FinishAnswer => OpeningKeepsStreams(e, e', false);
      case BeginOpen(_) => QuietKeepsStreams(e, e');
      case Process => ProcessKeepsStreams(e);
    }
  }

  // ---------------------------------------------------------------- bytes and channel

  lemma MuxerKeepsBytes(e: End, a: Action)
    requires CanAct(e, a) && ByMuxer(a) && BytesOk(e)
    ensures BytesOk(Act(e, a))
  {
    if a.Process? {
      ProcessKeepsBytes(e);
    } else {
      OwnSendKeepsBytes(e, a);
    }
  }

  lemma OwnSendKeepsBytes(e: End, a: Action)
    requires CanAct(e, a) && ByMuxer(a) && !a.Process? && BytesOk(e)
    ensures BytesOk(Act(e, a))
  {
  }

  lemma ProcessKeepsBytes(e: End)
    requires CanAct(e, Process) && BytesOk(e)
    ensures BytesOk(ProcessNext(e))
  {
    var t, e' := Out(e)[|e.taken|].messageType, ProcessNext(e);
    forall s | s in e'.subs ensures SubBytesOk(e'.subs[s]) {
      assert SubBytesOk(e.subs[s]);
      if e'.subs[s] != e.subs[s] {
        ReachKeepsBytes(e.subs[s], t);
      }
    }
  }

  lemma ReachKeepsBytes(sub: Sub, t: SubstreamMessageType)
    requires SubBytesOk(sub)
    ensures SubBytesOk(Reach(sub, t))
  {
    if t.Data? {
      ConcatAppend(sub.st.rx, [t.data]);
      ConcatAppend(sub.routed, [t.data]);
      assert Concat([t.data]) == t.data;
    }
  }

  ghost predicate SubBytesOk(sub: Sub) {
    sub.placed + sub.st.unread + Concat(sub.st.rx) == Concat(sub.routed)
  }

  lemma ReadKeepsBytes(sub: Sub, buf: seq<byte>)
    requires SubBytesOk(sub)
    ensures var r := PollRead(sub.st, buf);
            && r.placed <= |r.buf|
            && SubBytesOk(sub.(st := r.st, placed := sub.placed + r.buf[..r.placed], told := sub.told + Told(sub.st, buf)))
  {
    ReadConserves(sub.st, buf);
    var r := PollRead(sub.st, buf);
    Assoc(sub.placed, r.buf[..r.placed], r.st.unread, Concat(r.st.rx));
    Assoc(sub.placed, [], sub.st.unread, Concat(sub.st.rx));
  }

  lemma BytesCarryOver(e: End, e': End)
    requires BytesOk(e) && e'.subs.Keys == e.subs.Keys
    requires forall s | s in e.subs ::
               && e'.subs[s].placed == e.subs[s].placed && e'.subs[s].routed == e.subs[s].routed
               && e'.subs[s].st.unread == e.subs[s].st.unread && e'.subs[s].st.rx == e.subs[s].st.rx
    ensures BytesOk(e')
  {
    forall s | s in e'.subs ensures SubBytesOk(e'.subs[s]) {
      assert SubBytesOk(e.subs[s]);
    }
  }

  lemma StreamKeepsBytes(e: End, a: Action)
    requires CanAct(e, a) && !ByMuxer(a) && BytesOk(e)
    ensures BytesOk(Act(e, a))
  {
    if a.ReadSome? {
      ReadActKeepsBytes(e, a.s, a.buf);
    } else {
      OneSubMoves(e, a);
      BytesCarryOver(e, Act(e, a));
    }
  }

  lemma ReadActKeepsBytes(e: End, s: SubstreamId, buf: seq<byte>)
    requires CanAct(e, ReadSome(s, buf)) && BytesOk(e)
    ensures BytesOk(Act(e, ReadSome(s, buf)))
  {
    ReadKeepsBytes(e.subs[s], buf);
  }

  /** A substream's step touches one substream, and its bytes only when reading. */
  ghost predicate MovesOne(e: End, e': End, a: Action) {
    && (!a.Drop? ==> e'.mux == e.mux)
    && e'.taken == e.taken && e'.pc == e.pc && e'.subs.Keys == e.subs.Keys
    && forall s | s in e.subs ::
         && e'.subs[s].opener == e.subs[s].opener && e'.subs[s].routed == e.subs[s].routed
         && (!a.Drop? ==> e'.subs[s].dropped == e.subs[s].dropped)
         && (e'.subs[s] != e.subs[s] && !a.ReadSome? ==>
               && e'.subs[s].placed == e.subs[s].placed && e'.subs[s].told == e.subs[s].told
               && e'.subs[s].st.unread == e.subs[s].st.unread && e'.subs[s].st.rx == e.subs[s].st.rx)
  }

  lemma OneSubMoves(e: End, a: Action)
    requires CanAct(e, a) && !ByMuxer(a)
    ensures MovesOne(e, Act(e, a), a)
  {
    match a {
      case BeginWrite(_, _) => OneWrites(e, a);
      case FinishWrite(_) => OneWrites(e, a);
      case BeginClose(_) => OneCloses(e, a);
      case FinishClose(_) => OneCloses(e, a);
      case _ => OneIsSilent(e, a);
    }
  }

  lemma OneWrites(e: End, a: Action)
    requires CanAct(e, a) && (a.BeginWrite? || a.FinishWrite?)
    ensures MovesOne(e, Act(e, a), a)
  {
  }

  lemma OneCloses(e: End, a: Action)
    requires CanAct(e, a) && (a.BeginClose? || a.FinishClose?)
    ensures MovesOne(e, Act(e, a), a)
  {
  }

  lemma OneIsSilent(e: End, a: Action)
    requires CanAct(e, a) && Silent(a)
    ensures MovesOne(e, Act(e, a), a)
  {
  }

  /** The parts of an endpoint a step of its own actors does not touch. */
  lemma ActKeepsLink(e: End, a: Action)
    requires CanAct(e, a) && !a.Connect? && !a.Deliver? && LinkOk(e)
    requires a.Process? ==> TroubleOk(ProcessNext(e))
    requires a.FinishOpen? ==> e.pc.s !in e.mux.txs
    ensures LinkOk(Act(e, a))
    ensures Act(e, a).events == e.events
  {
    if a.Process? {
      assert Out(e)[..|e.taken| + 1] == e.taken + [Out(e)[|e.taken|]];
    } else if ByMuxer(a) {
      OwnSendKeepsLink(e, a);
    } else {
      StreamKeepsLink(e, a);
    }
  }

  lemma OwnSendKeepsLink(e: End, a: Action)
    requires CanAct(e, a) && ByMuxer(a) && !a.Process? && LinkOk(e)
    requires a.FinishOpen? ==> e.pc.s !in e.mux.txs
    ensures LinkOk(Act(e, a)) && Act(e, a).events == e.events
  {
  }

  lemma StreamKeepsLink(e: End, a: Action)
    requires CanAct(e, a) && !ByMuxer(a) && !a.Connect? && !a.Deliver? && LinkOk(e)
    ensures LinkOk(Act(e, a)) && Act(e, a).events == e.events
  {
  }

  // ---------------------------------------------------------------- one step of the system

  lemma MuxerKeepsLocal(e: End, peer: End, a: Action)
    requires Local(e) && Local(peer) && Distinct(e, peer) && TakenFrom(e, peer) && TakenFrom(peer, e)
    requires Allowed(e, peer, a) && ByMuxer(a)
    ensures Local(Act(e, a)) && Act(e, a).events == e.events
  {
    match a {
      case BeginOpen(_) => QuietKeepsMux(e, Act(e, a));
      case FinishOpen => FinishOpenKeepsMux(e, peer);
      case FinishAnswer => FinishAnswerKeepsMux(e);
      case Process =>
        NextIsRouted(e, peer);
        ExpectedKeepsMux(e);
    }
    MuxerKeepsLedger(e, a);
    MuxerKeepsStreams(e, a);
    MuxerKeepsBytes(e, a);
    ActKeepsLink(e, a);
  }

  lemma StreamKeepsMux(e: End, a: Action)
    requires MuxOk(e) && CanAct(e, a) && !ByMuxer(a)
    ensures MuxOk(Act(e, a))
  {
    if a.Drop? {
      DropKeepsMux(e, a.s);
    } else {
      OneSubMoves(e, a);
      QuietKeepsMux(e, Act(e, a));
    }
  }

  lemma StreamKeepsLocal(e: End, a: Action)
    requires Local(e) && CanAct(e, a) && !ByMuxer(a) && !a.Connect? && !a.Deliver?
    ensures Local(Act(e, a)) && Act(e, a).events == e.events
  {
    StreamKeepsLedger(e, a);
    StreamKeepsStreams(e, a);
    StreamKeepsMux(e, a);
    StreamKeepsBytes(e, a);
    ActKeepsLink(e, a);
  }

  lemma HearKeepsLocal(e: End, peer: End, ev: Event)
    requires e.trouble.None? && Local(e) && LedgerOk(peer) && Hears(e, peer)
    requires ev == Connected || (ev.Arrived? && ev.m in peer.sent && !IsEmptyData(ev.m.message))
    ensures Local(Hear(e, ev)) && Hears(Hear(e, ev), peer)
  {
    HearKeepsLinkOk(e, peer, ev);
    HearKeepsLedger(e, ev);
    HearKeepsStreams(e, ev);
    HearKeepsMux(e, ev);
  }

  lemma HearKeepsLedger(e: End, ev: Event)
    requires LedgerOk(e)
    ensures LedgerOk(Hear(e, ev))
  {
    QuietKeepsLedger(e, Hear(e, ev));
  }

  lemma HearKeepsStreams(e: End, ev: Event)
    requires StreamsOk(e)
    ensures StreamsOk(Hear(e, ev))
  {
    QuietKeepsStreams(e, Hear(e, ev));
  }

  lemma HearKeepsMux(e: End, ev: Event)
    requires MuxOk(e) && BytesOk(e)
    ensures MuxOk(Hear(e, ev)) && BytesOk(Hear(e, ev))
  {
    QuietKeepsMux(e, Hear(e, ev));
  }

  lemma ActKeepsDistinct(e: End, peer: End, a: Action)
    requires Allowed(e, peer, a) && Distinct(e, peer)
    ensures Distinct(Act(e, a), peer)
  {
    forall s ensures !(Opens(Act(e, a), s) && Opens(peer, s)) {
      assert !(Opens(e, s) && Opens(peer, s));
    }
  }

  lemma GrowingIsHeard(e: End, e': End, peer: End)
    requires Hears(peer, e) && Grows(e, e')
    ensures Hears(peer, e')
  {
  }

  /** Every allowed step of either side keeps the invariant. */
  lemma StepKeepsInv(e: End, peer: End, a: Action)
    requires Inv(e, peer) && Allowed(e, peer, a)
    ensures Inv(Act(e, a), peer)
  {
    assert Local(Act(e, a)) && Hears(Act(e, a), peer) by {
      StepKeepsLocal(e, peer, a);
    }
    assert Distinct(Act(e, a), peer) by {
      ActKeepsDistinct(e, peer, a);
    }
    assert Hears(peer, Act(e, a)) by {
      if ByMuxer(a) { MuxerGrows(e, a); } else { StreamGrows(e, a); }
      GrowingIsHeard(e, Act(e, a), peer);
    }
  }

  lemma StepKeepsLocal(e: End, peer: End, a: Action)
    requires Inv(e, peer) && Allowed(e, peer, a)
    ensures Local(Act(e, a)) && Hears(Act(e, a), peer)
  {
    if ByMuxer(a) {
      Channels(e, peer);
      Channels(peer, e);
      MuxerKeepsLocal(e, peer, a);
    } else if a.Connect? {
      HearKeepsLocal(e, peer, Connected);
    } else if a.Deliver? {
      HearKeepsLocal(e, peer, Arrived(a.m));
    } else {
      StreamKeepsLocal(e, a);
    }
  }

  lemma InitialInv(cid: ConnectionId)
    ensures Inv(NewEnd(cid), NewEnd(cid))
  {
  }
}
