/** What can still get through: from any moment of any run, a continuation that brings
    everything the peer took a nonce for to its substream, exactly unless a nonce was or
    will be lost. */
module DuplexProgress {
  import opened Base
  import opened Messages
  import opened Receiver
  import opened SubstreamSpec
  import opened MuxerSpec
  import opened Duplex
  import opened DuplexInvariant
  import opened DuplexTheorems

  // ---------------------------------------------------------------- one side acts alone

  /** The actions `acts` of one endpoint take it from `e` to `e'` while its peer rests. */
  ghost predicate Alone(e: End, peer: End, acts: seq<Action>, e': End)
    decreases |acts|
  {
    if acts == [] then e' == e
    else Allowed(e, peer, acts[0]) && Alone(Act(e, acts[0]), peer, acts[1..], e')
  }

  lemma {:induction false} AloneAppend(e: End, peer: End, xs: seq<Action>, e1: End, ys: seq<Action>, e2: End)
    requires Alone(e, peer, xs, e1) && Alone(e1, peer, ys, e2)
    ensures Alone(e, peer, xs + ys, e2)
    decreases |xs|
  {
    if xs == [] {
      assert xs + ys == ys;
    } else {
      AloneAppend(Act(e, xs[0]), peer, xs[1..], e1, ys, e2);
      assert (xs + ys)[1..] == xs[1..] + ys;
    }
  }

  lemma AloneFirst(e: End, peer: End, a: Action, acts: seq<Action>, e': End)
    requires Allowed(e, peer, a) && Alone(Act(e, a), peer, acts, e')
    ensures Alone(e, peer, [a] + acts, e')
  {
    assert ([a] + acts)[1..] == acts;
  }

  lemma AloneOne(e: End, peer: End, a: Action)
    requires Allowed(e, peer, a)
    ensures Alone(e, peer, [a], Act(e, a))
  {
    assert [a][1..] == [];
  }

  // ---------------------------------------------------------------- finishing what was begun

  /** Under this nonce nothing will ever arrive: it was burnt or spent on an empty write,
      or is held by a call that will do so. */
  ghost predicate Stuck(e: End, n: nat) {
    Lost(e, n) || exists s :: Doomed(e, s, n)
  }

  ghost predicate Doomed(e: End, s: SubstreamId, n: nat) {
    && s in e.subs && !e.subs[s].pc.Idle? && e.subs[s].pc.n == n
    && (if e.subs[s].pc.Writing? then e.subs[s].pc.data == [] else e.subs[s].st.closed)
  }

  ghost predicate NothingStuck(e: End) {
    forall n: nat :: !Stuck(e, n)
  }

  /** The substreams with a call under way. */
  function Busy(e: End): set<SubstreamId> {
    set s | s in e.subs && !e.subs[s].pc.Idle?
  }

  function Finish(e: End, s: SubstreamId): Action
    requires s in Busy(e)
  {
    if e.subs[s].pc.Writing? then FinishWrite(s) else FinishClose(s)
  }

  /** Finishing a call that is not doomed sends under its nonce. */
  lemma FinishSends(e: End, s: SubstreamId)
    requires s in Busy(e) && HoldsOk(e) && NothingStuck(e)
    ensures var e' := Act(e, Finish(e, s));
            && e'.burnt == e.burnt && e'.counter == e.counter && e'.pc == e.pc && e'.trouble == e.trouble
            && |Busy(e')| < |Busy(e)|
            && NothingStuck(e')
  {
    var e', n := Act(e, Finish(e, s)), e.subs[s].pc.n;
    assert Busy(e') == Busy(e) - {s};
    assert Holding(e, Stream(s)) == Some(n);
    assert !Doomed(e, s, n) by { assert !Stuck(e, n); }
    forall k: nat ensures !Stuck(e', k) {
      assert !Stuck(e, k);
      forall t ensures !Doomed(e', t, k) {
        assert !Doomed(e, t, k);
      }
      forall t ensures !SentAt(e', k, Msg(t, Data([]))) {
        assert !SentAt(e, k, Msg(t, Data([])));
      }
    }
  }

  lemma {:induction false} FinishCalls(e: End, peer: End) returns (acts: seq<Action>, e': End)
    requires Inv(e, peer) && NothingStuck(e)
    ensures Alone(e, peer, acts, e')
    ensures Inv(e', peer) && NothingStuck(e') && Busy(e') == {}
    ensures e'.counter == e.counter && e'.pc == e.pc && e'.trouble == e.trouble
    decreases |Busy(e)|
  {
    if Busy(e) == {} {
      acts, e' := [], e;
    } else {
      var s :| s in Busy(e);
      var a, e1 := FinishCall(e, peer, s);
      acts, e' := FinishCalls(e1, peer);
      AloneFirst(e, peer, a, acts, e');
      acts := [a] + acts;
    }
  }

  lemma FinishCall(e: End, peer: End, s: SubstreamId) returns (a: Action, e': End)
    requires Inv(e, peer) && NothingStuck(e) && s in Busy(e)
    ensures Allowed(e, peer, a) && e' == Act(e, a) && Inv(e', peer) && NothingStuck(e')
    ensures |Busy(e')| < |Busy(e)|
    ensures e'.counter == e.counter && e'.pc == e.pc && e'.trouble == e.trouble
  {
    a := Finish(e, s);
    e' := Act(e, a);
    InvNext(e, peer, a, e');
    FinishSends(e, s);
  }

  /** The connection's own half-done send. */
  lemma FinishOwn(e: End, peer: End) returns (acts: seq<Action>, e': End)
    requires Inv(e, peer)
    ensures Alone(e, peer, acts, e')
    ensures Inv(e', peer) && e'.trouble == e.trouble && e'.pc.Free?
    ensures e'.counter == e.counter && e'.taken == e.taken && e'.link == e.link
    ensures NoneDropped(e) ==> NoneDropped(e')
    ensures NothingStuck(e) ==> NothingStuck(e')
    ensures Busy(e') == Busy(e)
  {
    if e.pc.Free? {
      acts, e' := [], e;
    } else {
      var a := if e.pc.Opening? then FinishOpen else FinishAnswer;
      acts, e' := [a], Act(e, a);
      InvNext(e, peer, a, e');
      AloneOne(e, peer, a);
      if a.FinishOpen? {
        OpensWell(e, peer);
      }
      OwnSendShape(e, a);
      OwnSendLosesNothing(e, a);
    }
  }

  lemma InvNext(e: End, peer: End, a: Action, e': End)
    requires Inv(e, peer) && Allowed(e, peer, a) && e' == Act(e, a)
    ensures Inv(e', peer)
  {
    StepKeepsInv(e, peer, a);
  }

  lemma OwnSendShape(e: End, a: Action)
    requires Undecided(e) && CanAct(e, a) && (a.FinishOpen? || a.FinishAnswer?)
    ensures var e' := Act(e, a);
            && e'.pc.Free? && e'.counter == e.counter && e'.taken == e.taken && e'.link == e.link
            && (a.FinishAnswer? ==> e'.trouble == e.trouble) && Busy(e') == Busy(e)
  {
  }

  lemma OwnSendLosesNothing(e: End, a: Action)
    requires CanAct(e, a) && (a.FinishOpen? || a.FinishAnswer?)
    ensures NothingStuck(e) ==> NothingStuck(Act(e, a))
    ensures NoneDropped(e) ==> NoneDropped(Act(e, a))
  {
    var e' := Act(e, a);
    if NoneDropped(e) { StepDropsNothing(e, a); }
    if NothingStuck(e) { OwnSendKeepsUnstuck(e, a); }
  }

  lemma OwnSendKeepsUnstuck(e: End, a: Action)
    requires CanAct(e, a) && (a.FinishOpen? || a.FinishAnswer?) && NothingStuck(e)
    ensures NothingStuck(Act(e, a))
  {
    var e' := Act(e, a);
    forall k: nat ensures !Stuck(e', k) {
      assert !Stuck(e, k);
      forall t ensures !Doomed(e', t, k) {
        assert !Doomed(e, t, k);
      }
      forall t ensures !SentAt(e', k, Msg(t, Data([]))) {
        assert !SentAt(e, k, Msg(t, Data([])));
      }
    }
  }

  /** With nothing stuck and nothing under way, every nonce taken was sent and decodes. */
  lemma AllDeliverable(e: End)
    requires LedgerOk(e) && NothingStuck(e) && Busy(e) == {} && e.pc.Free?
    ensures forall k: nat | 1 <= k < e.counter :: Deliverable(e, k)
  {
    forall k: nat | 1 <= k < e.counter ensures Deliverable(e, k) {
      assert k in e.ledger && !Stuck(e, k);
      if e.ledger[k].InFlight? {
        HolderIsActive(e, k);
      }
      var m := e.ledger[k].m;
      assert SentAt(e, k, m) && m == Msg(m.substreamId, m.messageType);
      assert TransportMessage(k, m, e.cid) in e.sent;
    }
  }

  lemma HolderIsActive(e: End, k: nat)
    requires HoldsOk(e) && k in e.ledger && e.ledger[k].InFlight?
    ensures e.pc.Free? ==> Busy(e) != {}
  {
    var who := e.ledger[k].who;
    assert Holding(e, who) == Some(k);
    assert who.Stream? ==> who.s in Busy(e);
  }

  // ---------------------------------------------------------------- hearing and taking

  /** The endpoint works, and its application dropped nothing. */
  ghost predicate Fit(e: End, peer: End) {
    Inv(e, peer) && e.trouble.None? && NoneDropped(e)
  }

  /** One after the other, the events of `es` reach the endpoint. */
  function HearEach(e: End, es: seq<Event>): End
    decreases |es|
  {
    if es == [] then e else HearEach(Hear(e, es[0]), es[1..])
  }

  function ToHear(es: seq<Event>): seq<Action>
    decreases |es|
  {
    if es == [] then [] else [if es[0].Arrived? then Deliver(es[0].m) else Connect] + ToHear(es[1..])
  }

  lemma HearOnly(e: End, ev: Event)
    ensures var e' := Hear(e, ev);
            && e'.events == e.events + [ev] && e'.taken == e.taken && e'.counter == e.counter
            && e'.subs == e.subs && (e.trouble.None? && TroubleOk(e') ==> e'.trouble.None?)
  {
  }

  lemma {:induction false} HearEachHears(e: End, es: seq<Event>)
    ensures var e' := HearEach(e, es);
            e'.events == e.events + es && e'.taken == e.taken && e'.counter == e.counter
    decreases |es|
  {
    if es != [] {
      HearOnly(e, es[0]);
      HearEachHears(Hear(e, es[0]), es[1..]);
      assert e.events + [es[0]] + es[1..] == e.events + es;
    }
  }

  predicate Brought(peer: End, ev: Event) {
    ev == Connected || (ev.Arrived? && ev.m in peer.sent && !IsEmptyData(ev.m.message))
  }

  lemma HearKeepsFit(e: End, peer: End, ev: Event)
    requires Fit(e, peer) && Brought(peer, ev)
    ensures Fit(Hear(e, ev), peer)
  {
    if ev.Arrived? {
      InvNext(e, peer, Deliver(ev.m), Hear(e, ev));
    } else {
      InvNext(e, peer, Connect, Hear(e, ev));
    }
    HearOnly(e, ev);
    FitToo(e, peer, Hear(e, ev));
  }

  lemma FitToo(e: End, peer: End, e': End)
    requires Fit(e, peer) && Inv(e', peer) && e'.trouble.None? && e'.subs == e.subs
    ensures Fit(e', peer)
  {
    forall s ensures !Gone(e', s) {
      assert !Gone(e, s);
    }
  }

  lemma {:induction false} HearAll(e: End, peer: End, es: seq<Event>)
    requires Fit(e, peer) && Brings(peer, es)
    ensures Alone(e, peer, ToHear(es), HearEach(e, es)) && Fit(HearEach(e, es), peer)
    decreases |es|
  {
    if es != [] {
      assert Brought(peer, es[0]) && Brings(peer, es[1..]);
      HearKeepsFit(e, peer, es[0]);
      HearAll(Hear(e, es[0]), peer, es[1..]);
      AloneFirst(e, peer, ToHear(es)[0], ToHear(es[1..]), HearEach(e, es));
    }
  }

  /** The network brings the first `n` messages to the connection. */
  lemma HearUpTo(e: End, peer: End, n: u64) returns (acts: seq<Action>, e': End)
    requires Fit(e, peer)
    requires forall k: u64 | 1 <= k <= n :: Deliverable(peer, k)
    ensures Alone(e, peer, acts, e') && Fit(e', peer) && n <= |Out(e')|
    ensures e'.taken == e.taken && e'.counter == e.counter
  {
    if n == 0 {
      acts, e' := [], e;
    } else {
      SentCanReach(e, peer, n);
      var es :| Brings(peer, es)
                && Run(e.events + es).inbox.Some? && n <= |Run(e.events + es).inbox.value.sent|;
      acts, e' := ToHear(es), HearEach(e, es);
      HearAll(e, peer, es);
      HearEachHears(e, es);
    }
  }

  lemma ProcessWell(e: End, peer: End)
    requires Fit(e, peer) && CanAct(e, Process)
    ensures var e' := Act(e, Process);
            && Fit(e', peer) && |e'.taken| == |e.taken| + 1 && e'.link == e.link && e'.counter <= e.counter + 1
  {
    StepKeepsInv(e, peer, Process);
    StepDropsNothing(e, Process);
    Channels(e, peer);
    Channels(peer, e);
    NextIsRouted(e, peer);
    assert !Gone(e, Out(e)[|e.taken|].substreamId);
    ProcessShape(e);
  }

  lemma TakeOne(e: End, peer: End) returns (acts: seq<Action>, e': End)
    requires Fit(e, peer) && |e.taken| < |Out(e)| && e.counter <= U64_MAX
    ensures Alone(e, peer, acts, e') && Fit(e', peer)
    ensures |e'.taken| == |e.taken| + 1 && e'.link == e.link && e'.counter <= e.counter + 1
  {
    var e1;
    acts, e1 := FinishOwn(e, peer);
    ProcessWell(e1, peer);
    e' := Act(e1, Process);
    AloneOne(e1, peer, Process);
    AloneAppend(e, peer, acts, e1, [Process], e');
    acts := acts + [Process];
  }

  lemma {:induction false} TakeUpTo(e: End, peer: End, n: nat) returns (acts: seq<Action>, e': End)
    requires Fit(e, peer) && |e.taken| <= n <= |Out(e)|
    requires e.counter + (n - |e.taken|) <= U64_MAX + 1
    ensures Alone(e, peer, acts, e') && Fit(e', peer) && |e'.taken| == n
    decreases n - |e.taken|
  {
    if |e.taken| == n {
      acts, e' := [], e;
    } else {
      var xs, e1 := TakeOne(e, peer);
      var ys;
      ys, e' := TakeUpTo(e1, peer, n);
      AloneAppend(e, peer, xs, e1, ys, e');
      acts := xs + ys;
    }
  }

  /** Alone, an endpoint can take the first `n` messages once they are deliverable. */
  lemma CatchUp(e: End, peer: End, n: u64) returns (acts: seq<Action>, e': End)
    requires Fit(e, peer) && e.counter + n <= U64_MAX + 1
    requires forall k: u64 | 1 <= k <= n :: Deliverable(peer, k)
    ensures Alone(e, peer, acts, e') && Fit(e', peer)
    ensures |e'.taken| >= n && e'.pc.Free?
  {
    var xs, e1 := HearUpTo(e, peer, n);
    var ys, e2 := [], e1;
    if |e1.taken| < n {
      ys, e2 := TakeUpTo(e1, peer, n);
    }
    AloneAppend(e, peer, xs, e1, ys, e2);
    var zs;
    zs, e' := FinishOwn(e2, peer);
    AloneAppend(e, peer, xs + ys, e2, zs, e');
    acts := xs + ys + zs;
  }

  // ---------------------------------------------------------------- continuations

  ghost predicate Leads(w: System, more: seq<Move>, w': System)
    decreases |more|
  {
    if more == [] then w' == w
    else Possible(w, more[0]) && Leads(Next(w, more[0]), more[1..], w')
  }

  lemma {:induction false} LeadsOn(w: System, xs: seq<Move>, w1: System, ys: seq<Move>, w2: System)
    requires Leads(w, xs, w1) && Leads(w1, ys, w2)
    ensures Leads(w, xs + ys, w2)
    decreases |xs|
  {
    if xs == [] {
      assert xs + ys == ys;
    } else {
      LeadsOn(Next(w, xs[0]), xs[1..], w1, ys, w2);
      assert (xs + ys)[1..] == xs[1..] + ys;
    }
  }

  function With(w: System, side: Side, e: End): System {
    if side.A? then w.(a := e) else w.(b := e)
  }

  lemma {:induction false} AloneLeads(w: System, side: Side, acts: seq<Action>, e': End) returns (more: seq<Move>)
    requires Alone(Mine(w, side), Peer(w, side), acts, e')
    ensures Leads(w, more, With(w, side, e'))
    decreases |acts|
  {
    if acts == [] {
      more := [];
    } else {
      var m := Move(side, acts[0]);
      more := AloneLeads(Next(w, m), side, acts[1..], e');
      assert ([m] + more)[1..] == more;
      more := [m] + more;
    }
  }

  /** Every substream of the peer is here, and was routed all that the peer sent there. */
  ghost predicate AllRouted(e: End, peer: End) {
    forall s | s in peer.subs :: s in e.subs && e.subs[s].routed == SentOn(peer, s)
  }

  lemma TakenIsRouted(e: End, peer: End)
    requires Inv(e, peer) && NoneDropped(e) && e.pc.Free? && |e.taken| >= peer.counter - 1
    ensures AllRouted(e, peer)
  {
    Channels(e, peer);
    Channels(peer, e);
    forall s | s in peer.subs ensures s in e.subs && e.subs[s].routed == SentOn(peer, s) {
      PeerSubIsHere(e, peer, s);
      assert !Gone(e, s);
      RoutedInFull(e, peer, s);
    }
  }

  lemma PeerSubIsHere(e: End, peer: End, s: SubstreamId)
    requires StreamsOk(e) && StreamsOk(peer) && Counted(peer) && RolesOk(e) && RolesOk(peer)
    requires TakenFrom(e, peer) && TakenFrom(peer, e)
    requires s in peer.subs && e.pc.Free? && |e.taken| >= peer.counter - 1
    ensures s in e.subs
  {
    assert SubOk(peer, s);
    if peer.subs[s].opener {
      assert SentAt(peer, peer.subs[s].born, Msg(s, OpenRequest)) && peer.subs[s].born in peer.ledger;
      SlotWasTaken(e, peer, peer.subs[s].born, Msg(s, OpenRequest));
    } else {
      assert Msg(s, OpenRequest) in peer.taken;
      AcceptorHasOpener(e, peer, s);
    }
  }

  /** What the theorem asks of the side that is to catch up: it works, its application
      dropped nothing, and it has nonces left to answer every request. */
  ghost predicate CanCatchUp(e: End, peer: End) {
    e.trouble.None? && NoneDropped(e) && e.counter + peer.counter <= U64_MAX + 2
  }

  /** Completeness end to end: unless a nonce of the peer is stuck, some continuation of
      the run routes everything the peer took a nonce for to its substream. */
  lemma EverythingGetsThrough(ws: seq<System>, ms: seq<Move>, i: nat, side: Side)
    returns (more: seq<Move>, w': System)
    requires IsRun(ws, ms) && i < |ws|
    requires CanCatchUp(Mine(ws[i], side), Peer(ws[i], side))
    requires NothingStuck(Peer(ws[i], side))
    ensures Leads(ws[i], more, w')
    ensures Peer(w', side).counter == Peer(ws[i], side).counter
    ensures |Mine(w', side).taken| >= Peer(w', side).counter - 1
    ensures AllRouted(Mine(w', side), Peer(w', side))
  {
    var e, peer := Mine(ws[i], side), Peer(ws[i], side);
    RunInv(ws, ms, i, Other(side));
    var xs, p1 := FinishCalls(peer, e);
    var ys, p2 := FinishOwn(p1, e);
    AloneAppend(peer, e, xs, p1, ys, p2);
    AllDeliverable(p2);
    InvSymmetric(p2, e);
    var zs, e' := CatchUp(e, p2, p2.counter - 1);
    TakenIsRouted(e', p2);
    var first := AloneLeads(ws[i], Other(side), xs + ys, p2);
    var w1 := With(ws[i], Other(side), p2);
    var second := AloneLeads(w1, side, zs, e');
    w' := With(w1, side, e');
    LeadsOn(ws[i], first, w1, second, w');
    more := first + second;
  }

  // ---------------------------------------------------------------- the exact limit

  lemma StepKeepsStuck(e: End, a: Action, n: nat)
    requires CanAct(e, a) && LedgerOk(e) && Undecided(e) && Stuck(e, n)
    ensures Stuck(Act(e, a), n)
  {
    if Lost(e, n) {
      StepKeepsLost(e, a, n);
    } else {
      var s :| Doomed(e, s, n);
      if (a.FinishWrite? || a.FinishClose?) && a.s == s {
        assert a.FinishWrite? ==> SentAt(Act(e, a), n, Msg(s, Data([])));
      } else {
        StepKeepsDoomed(e, a, s, n);
      }
    }
  }

  lemma StepKeepsDoomed(e: End, a: Action, s: SubstreamId, n: nat)
    requires CanAct(e, a) && Undecided(e) && Doomed(e, s, n)
    requires !((a.FinishWrite? || a.FinishClose?) && a.s == s)
    ensures Doomed(Act(e, a), s, n)
  {
  }

  lemma MoveKeepsStuck(w: System, m: Move, side: Side, n: nat)
    requires Possible(w, m) && Inv(w.a, w.b) && Stuck(Mine(w, side), n)
    ensures Stuck(Mine(Next(w, m), side), n)
  {
    if m.side == side {
      StepKeepsStuck(Mine(w, side), m.action, n);
    }
  }

  lemma {:induction false} StuckThrough(w: System, more: seq<Move>, w': System, side: Side, n: nat)
    requires Leads(w, more, w') && Inv(w.a, w.b) && Stuck(Mine(w, side), n)
    ensures Inv(w'.a, w'.b) && Stuck(Mine(w', side), n)
    decreases |more|
  {
    if more != [] {
      MoveKeepsInv(w, more[0], Next(w, more[0]));
      MoveKeepsStuck(w, more[0], side, n);
      StuckThrough(Next(w, more[0]), more[1..], w', side, n);
    }
  }

  lemma StuckBlocks(e: End, peer: End, n: nat)
    requires LinkOk(e) && Hears(e, peer) && LedgerOk(peer) && Stuck(peer, n)
    ensures |e.taken| < n < peer.counter
  {
    if Lost(peer, n) {
      LostIsNotForwarded(e, peer, n);
    } else {
      var s :| Doomed(peer, s, n);
      assert Holding(peer, Stream(s)) == Some(n);
      ForwardedWasSent(e, peer);
      var k: nat := n - 1;
      assert k < |Out(e)| ==> SentAt(peer, k + 1, Out(e)[k]);
    }
  }

  /** Some continuation brings `side` everything its peer took a nonce for so far. */
  ghost predicate GetsThrough(w: System, side: Side) {
    exists more, w' :: Leads(w, more, w') && |Mine(w', side).taken| >= Peer(w, side).counter - 1
  }

  lemma StuckStops(w: System, side: Side, n: nat)
    requires Inv(w.a, w.b) && Stuck(Peer(w, side), n)
    ensures !GetsThrough(w, side)
  {
    InvSymmetric(w.a, w.b);
    StuckBlocks(Mine(w, side), Peer(w, side), n);
    forall more, w' | Leads(w, more, w') ensures |Mine(w', side).taken| < Peer(w, side).counter - 1 {
      StuckThrough(w, more, w', Other(side), n);
      InvSymmetric(w'.a, w'.b);
      StuckBlocks(Mine(w', side), Peer(w', side), n);
    }
  }

  /** The exact limit of completeness, end to end and at every moment of every run:
      everything can still get through if and only if no nonce of the peer was burnt or
      spent on an empty write, and none is held by a call that will do so. */
  lemma GetsThroughIff(ws: seq<System>, ms: seq<Move>, i: nat, side: Side)
    requires IsRun(ws, ms) && i < |ws|
    requires CanCatchUp(Mine(ws[i], side), Peer(ws[i], side))
    ensures GetsThrough(ws[i], side) <==> NothingStuck(Peer(ws[i], side))
  {
    if NothingStuck(Peer(ws[i], side)) {
      var more, w' := EverythingGetsThrough(ws, ms, i, side);
    } else {
      var n: nat :| Stuck(Peer(ws[i], side), n);
      RunInv(ws, ms, i, A);
      StuckStops(ws[i], side, n);
    }
  }
}
