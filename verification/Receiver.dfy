/** One connection's receiving side: the reordering queue in front of the channel that
    feeds the `Connection` (src/transport.rs, src/queue.rs).

    `LinkStep` is what handling one inbound mixnet message does to the connection it
    names; the theorems are about every run of such steps. */
module Receiver {
  import opened Base
  import opened Messages
  import opened Queue

  /** Sending half of an unbounded channel: everything sent so far, and whether the
      receiving `Connection` still exists. */
  datatype Inbox = Inbox(sent: seq<SubstreamMessage>, alive: bool)

  const EMPTY_INBOX := Inbox([], true)

  datatype Link = Link(inbox: Option<Inbox>, q: QueueState)

  const NEW_LINK := Link(None, FRESH)

  datatype Outcome = Done | Failed(error: Error) | Panicked

  datatype Event = Connected | Arrived(m: TransportMessage) | Dropped

  /** The `while let Some(msg) = queue.pop()` loop; a dead receiver loses the popped
      message and stops the loop. */
  function Drain(q: QueueState, inbox: Inbox): (r: (QueueState, Inbox, Outcome))
    ensures r.1.alive == inbox.alive
    ensures inbox.alive ==> r.2 == Done
    decreases |q.buf|
  {
    if !HeadReady(q) then (q, inbox, Done)
    else if !inbox.alive then (Popped(q), inbox, Failed(InboundSendError))
    else Drain(Popped(q), inbox.(sent := inbox.sent + [q.buf[q.next].message]))
  }

  /** `handle_message_queue_on_connection_initiation`, just after the channel was stored. */
  function Initiate(q: QueueState): (r: (Link, Outcome))
    ensures r.0.inbox.Some? && r.0.inbox.value.alive
  {
    if q.next != 0 then (Link(Some(EMPTY_INBOX), q), Panicked)
    else
      var (q', inbox, o) := Drain(q.(next := 1), EMPTY_INBOX);
      (Link(Some(inbox), q'), o)
  }

  /** `handle_transport_message`. */
  function Receive(l: Link, m: TransportMessage): (r: (Link, Outcome))
    ensures r.0.inbox.Some? <==> l.inbox.Some?
  {
    var (q, ready) := Push(l.q, m);
    if ready.None? then (l.(q := q), Done)
    else if l.inbox.None? then (l.(q := q), Failed(NoConnectionForTransportMessage))
    else if !l.inbox.value.alive then (l.(q := q), Failed(InboundSendError))
    else
      var (q', inbox, o) := Drain(q, l.inbox.value.(sent := l.inbox.value.sent + [m.message]));
      (Link(Some(inbox), q'), o)
  }

  function LinkStep(l: Link, e: Event): (r: (Link, Outcome)) {
    match e
    case Connected => if l.inbox.Some? then (l, Failed(ConnectionAlreadyEstablished)) else Initiate(l.q)
    case Arrived(m) => Receive(l, m)
    case Dropped => (if l.inbox.None? then l else l.(inbox := Some(l.inbox.value.(alive := false))), Done)
  }

  function Run(es: seq<Event>): Link {
    if es == [] then NEW_LINK else LinkStep(Run(es[..|es| - 1]), es[|es| - 1]).0
  }

  // ---------------------------------------------------------------- the reference

  /** For every nonce that arrived, the message that arrived with it first. */
  function First(es: seq<Event>): map<u64, TransportMessage> {
    if es == [] then map[] else Extend(First(es[..|es| - 1]), es[|es| - 1])
  }

  function Extend(f: map<u64, TransportMessage>, e: Event): map<u64, TransportMessage> {
    if e.Arrived? && e.m.nonce !in f then f[e.m.nonce := e.m] else f
  }

  ghost predicate IsFirst(es: seq<Event>, i: nat) {
    && i < |es| && es[i].Arrived?
    && forall j | 0 <= j < i :: es[j].Arrived? ==> es[j].m.nonce != es[i].m.nonce
  }

  /** `First` is what its name says, by position. */
  lemma {:induction false} FirstByPosition(es: seq<Event>, n: u64)
    ensures n in First(es) <==> exists i: nat :: IsFirst(es, i) && es[i].m.nonce == n
    ensures forall i: nat | IsFirst(es, i) && es[i].m.nonce == n :: n in First(es) && First(es)[n] == es[i].m
  {
    if es != [] {
      var p, last := es[..|es| - 1], |es| - 1;
      FirstByPosition(p, n);
      forall i: nat | i < last ensures IsFirst(es, i) <==> IsFirst(p, i) {}
      if n in First(p) {
        var i: nat :| IsFirst(p, i) && p[i].m.nonce == n;
        assert IsFirst(es, i) && es[i].m.nonce == n;
      } else if n in First(es) {
        assert forall j | 0 <= j < last :: es[j].Arrived? ==> es[j].m.nonce != n by {
          if j: nat :| j < last && es[j].Arrived? && es[j].m.nonce == n {
            FirstSeen(p, j);
          }
        }
        assert IsFirst(es, last) && es[last].m.nonce == n;
      }
    }
  }

  lemma {:induction false} FirstSeen(es: seq<Event>, i: nat)
    requires i < |es| && es[i].Arrived?
    ensures es[i].m.nonce in First(es)
  {
    if i < |es| - 1 {
      FirstSeen(es[..|es| - 1], i);
    }
  }

  lemma {:induction false} FirstOrigin(es: seq<Event>, n: u64)
    requires n in First(es)
    ensures First(es)[n].nonce == n && Arrived(First(es)[n]) in es
  {
    var p := es[..|es| - 1];
    if n in First(p) {
      FirstOrigin(p, n);
      assert Arrived(First(es)[n]) in p;
    }
  }

  /** All of 1..k arrived, and k + 1 did not. */
  ghost predicate IsFrontier(f: map<u64, TransportMessage>, k: nat) {
    (forall n: nat | 1 <= n <= k :: n in f) && k + 1 !in f
  }

  lemma FrontierUnique(f: map<u64, TransportMessage>, k: nat, k': nat)
    requires IsFrontier(f, k) && IsFrontier(f, k')
    ensures k == k'
  {
    var lo := Min(k, k');
    assert lo + 1 !in f;
  }

  /** The events of a run the ordering guarantee speaks of: the `Connection` stays
      alive and no peer uses nonce 0. */
  ghost predicate Proper(es: seq<Event>) {
    forall i | 0 <= i < |es| :: !es[i].Dropped? && (es[i].Arrived? ==> es[i].m.nonce >= 1)
  }

  /** `out` holds the messages of nonces 1..|out|, in order. */
  ghost predicate InOrder(out: seq<SubstreamMessage>, f: map<u64, TransportMessage>) {
    forall i: nat | i < |out| :: i + 1 in f && out[i] == f[i + 1].message
  }

  function Beyond(f: map<u64, TransportMessage>, k: nat): map<u64, TransportMessage> {
    map n | n in f && k < n :: f[n]
  }

  /** Where an established link stands once the messages of `f` arrived. */
  ghost predicate Settled(l: Link, f: map<u64, TransportMessage>)
    requires l.inbox.Some?
  {
    var out := l.inbox.value.sent;
    && l.inbox.value.alive
    && |out| <= U64_MAX
    && IsFrontier(f, |out|) && InOrder(out, f)
    && l.q.next == WrappingSucc(|out|)
    && (|out| < U64_MAX ==> l.q.buf == Beyond(f, |out|))
    && 0 !in l.q.buf
  }

  lemma {:induction false} DrainSettles(q: QueueState, inbox: Inbox, f: map<u64, TransportMessage>)
    requires inbox.alive && |inbox.sent| <= U64_MAX
    requires q.next == WrappingSucc(|inbox.sent|)
    requires 0 !in f
    requires q.buf == Beyond(f, |inbox.sent|)
    requires InOrder(inbox.sent, f)
    ensures Drain(q, inbox).2 == Done
    ensures Settled(Link(Some(Drain(q, inbox).1), Drain(q, inbox).0), f)
    decreases |q.buf|
  {
    var k := |inbox.sent|;
    assert forall n: nat | 1 <= n <= k :: n in f by {
      forall n: nat | 1 <= n <= k ensures n in f {
        var i: nat := n - 1;
        var x := inbox.sent[i];
        assert i + 1 in f && i + 1 == n;
      }
    }
    if HeadReady(q) {
      assert k < U64_MAX && q.next == k + 1;
      var inbox' := inbox.(sent := inbox.sent + [q.buf[q.next].message]);
      assert Popped(q).buf == Beyond(f, k + 1);
      DrainSettles(Popped(q), inbox', f);
    } else {
      assert k + 1 !in f;
    }
  }

  /** One arrival on a settled link settles it again. */
  lemma ArrivalSettles(l: Link, m: TransportMessage, f: map<u64, TransportMessage>)
    requires l.inbox.Some? && Settled(l, f) && 0 !in f
    requires m.nonce >= 1
    ensures Receive(l, m).0.inbox.Some? && Settled(Receive(l, m).0, Extend(f, Arrived(m)))
    ensures Receive(l, m).1 == Done
  {
    var f' := Extend(f, Arrived(m));
    var inbox := l.inbox.value;
    var k := |inbox.sent|;
    if k == U64_MAX {
      assert m.nonce in f;
    } else if m.nonce == k + 1 {
      assert m.nonce !in f;
      assert Push(l.q, m).0.buf == Beyond(f', k + 1);
      DrainSettles(Push(l.q, m).0, inbox.(sent := inbox.sent + [m.message]), f');
    } else if m.nonce <= k {
      assert m.nonce in f;
    } else {
      assert Push(l.q, m).0.buf == Beyond(f', k);
    }
  }

  /** Before the handshake every first arrival waits; after it the link is settled. */
  ghost predicate Refines(l: Link, f: map<u64, TransportMessage>, up: bool) {
    && 0 !in f
    && if up then l.inbox.Some? && Settled(l, f) else l == Link(None, QueueState(0, f))
  }

  lemma StepRefines(l: Link, f: map<u64, TransportMessage>, up: bool, e: Event)
    requires Refines(l, f, up) && Proper([e])
    ensures Refines(LinkStep(l, e).0, Extend(f, e), up || e == Connected)
    ensures LinkStep(l, e).1 in {Done, Failed(ConnectionAlreadyEstablished)}
  {
    assert [e][0] == e;
    if e == Connected && !up {
      assert Beyond(f, 0) == f;
      DrainSettles(QueueState(1, f), EMPTY_INBOX, f);
    } else if e.Arrived? && up {
      ArrivalSettles(l, e.m, f);
    }
  }

  lemma RunAppendOne(p: seq<Event>, e: Event)
    ensures Run(p + [e]) == LinkStep(Run(p), e).0
    ensures First(p + [e]) == Extend(First(p), e)
    ensures Connected in p + [e] <==> Connected in p || e == Connected
  {
    assert (p + [e])[..|p|] == p;
  }

  lemma {:induction false} RunRefines(es: seq<Event>)
    requires Proper(es)
    ensures Refines(Run(es), First(es), Connected in es)
  {
    if es != [] {
      var p, e := es[..|es| - 1], es[|es| - 1];
      assert es == p + [e];
      RunRefines(p);
      StepRefines(Run(p), First(p), Connected in p, e);
      RunAppendOne(p, e);
    }
  }

  /** Reordering refinement. In every proper run the queue and the channel are a
      function of which messages arrived first, never of when: before the handshake all
      of them wait; after it the channel holds nonces 1..k, k maximal, and the rest wait. */
  lemma Reordering(es: seq<Event>)
    requires Proper(es)
    ensures 0 !in First(es)
    ensures Connected !in es ==> Run(es) == Link(None, QueueState(0, First(es)))
    ensures Connected in es ==> Run(es).inbox.Some? && Settled(Run(es), First(es))
  {
    RunRefines(es);
  }

  /** No event of a proper run fails, apart from repeated connection messages. */
  lemma NothingFails(es: seq<Event>, i: nat)
    requires Proper(es) && i < |es|
    ensures LinkStep(Run(es[..i]), es[i]).1 in {Done, Failed(ConnectionAlreadyEstablished)}
  {
    RunRefines(es[..i]);
    StepRefines(Run(es[..i]), First(es[..i]), Connected in es[..i], es[i]);
  }

  /** Arrival order, duplicates and the moment of the handshake do not matter: if every
      nonce names one message, runs with the same arrivals forward the same sequence,
      and unless the nonce space is exhausted also leave the same queue. */
  lemma OrderIndependence(es: seq<Event>, es': seq<Event>)
    requires Proper(es) && Proper(es')
    requires Connected in es && Connected in es'
    requires forall m :: Arrived(m) in es <==> Arrived(m) in es'
    requires forall m, m' | Arrived(m) in es && Arrived(m') in es && m.nonce == m'.nonce :: m == m'
    ensures Run(es).inbox.Some? && Run(es).inbox == Run(es').inbox
    ensures |Run(es).inbox.value.sent| < U64_MAX ==> Run(es) == Run(es')
  {
    Reordering(es);
    Reordering(es');
    SameFirst(es, es');
    SameFirst(es', es);
    var f, f' := First(es), First(es');
    assert f.Keys == f'.Keys;
    assert f == f';
    FrontierUnique(f, |Run(es).inbox.value.sent|, |Run(es').inbox.value.sent|);
    assert Run(es).inbox.value.sent == Run(es').inbox.value.sent;
  }

  lemma SameFirst(es: seq<Event>, es': seq<Event>)
    requires forall m :: Arrived(m) in es <==> Arrived(m) in es'
    requires forall m, m' | Arrived(m) in es && Arrived(m') in es && m.nonce == m'.nonce :: m == m'
    ensures forall n | n in First(es) :: n in First(es') && First(es')[n] == First(es)[n]
  {
    forall n | n in First(es) ensures n in First(es') && First(es')[n] == First(es)[n] {
      FirstOrigin(es, n);
      var i :| 0 <= i < |es'| && es'[i] == Arrived(First(es)[n]);
      FirstSeen(es', i);
      FirstOrigin(es', n);
    }
  }

  /** Completeness and its exact limit: nonce n is delivered if and only if the
      handshake and every nonce up to n arrived; what is delivered no longer waits. */
  lemma DeliveredIff(es: seq<Event>, n: u64)
    requires Proper(es) && n >= 1
    ensures (Run(es).inbox.Some? && n <= |Run(es).inbox.value.sent|) <==>
            (Connected in es && forall j: nat | 1 <= j <= n :: j in First(es))
    ensures Run(es).inbox.Some? && n <= |Run(es).inbox.value.sent| < U64_MAX ==>
              forall j | j in Run(es).q.buf :: n < j
  {
    Reordering(es);
    if Connected in es {
      var k := |Run(es).inbox.value.sent|;
      assert k < n ==> k + 1 !in First(es);
    }
  }

  /** A nonce that never arrives silences everything after it, in every continuation. */
  lemma MissingNonceBlocks(es: seq<Event>, more: seq<Event>, k: u64)
    requires Proper(es + more) && k >= 1
    requires forall m | Arrived(m) in es + more :: m.nonce != k
    ensures Run(es + more).inbox.Some? ==> |Run(es + more).inbox.value.sent| < k
  {
    var all := es + more;
    if k in First(all) {
      FirstOrigin(all, k);
      assert false;
    }
    var j: nat := k;
    assert j !in First(all);
    DeliveredIff(all, k);
  }

  /** What was forwarded is never retracted, replaced or repeated: later events only
      append, and each nonce keeps the message that arrived with it first. */
  lemma {:induction false} ForwardingOnlyAppends(es: seq<Event>, more: seq<Event>)
    requires Proper(es + more)
    requires Connected in es
    ensures Run(es).inbox.Some? && Run(es + more).inbox.Some?
    ensures Run(es).inbox.value.sent <= Run(es + more).inbox.value.sent
    ensures forall n | n in First(es) :: n in First(es + more) && First(es + more)[n] == First(es)[n]
  {
    assert forall i | 0 <= i < |es| :: es[i] == (es + more)[i];
    assert Proper(es);
    Reordering(es);
    Reordering(es + more);
    assert Connected in es + more;
    FirstGrows(es, more);
    MoreArrivalsAppend(Run(es).inbox.value.sent, First(es), Run(es + more).inbox.value.sent, First(es + more));
  }

  lemma MoreArrivalsAppend(out: seq<SubstreamMessage>, f: map<u64, TransportMessage>,
                           out': seq<SubstreamMessage>, f': map<u64, TransportMessage>)
    requires InOrder(out, f) && IsFrontier(f, |out|)
    requires InOrder(out', f') && IsFrontier(f', |out'|)
    requires forall n | n in f :: n in f' && f'[n] == f[n]
    ensures out <= out'
  {
    assert |out'| + 1 !in f;
  }

  lemma {:induction false} FirstGrows(es: seq<Event>, more: seq<Event>)
    ensures forall n | n in First(es) :: n in First(es + more) && First(es + more)[n] == First(es)[n]
  {
    if more == [] {
      assert es + more == es;
    } else {
      FirstGrows(es, more[..|more| - 1]);
      assert (es + more)[..|es + more| - 1] == es + more[..|more| - 1];
    }
  }

  // ---------------------------------------------------------------- failures

  ghost predicate Alive(l: Link) {
    l.inbox.Some? && l.inbox.value.alive
  }

  /** How a transport message ends, on any link: it fails if and only if it carries the
      expected nonce and there is no connection, or nobody behind it. Nothing is forwarded
      then, but the nonce counts as used. */
  lemma ReceiveFailsIff(l: Link, m: TransportMessage)
    ensures var (l', o) := Receive(l, m);
            && (o == Failed(NoConnectionForTransportMessage) <==> m.nonce == l.q.next && l.inbox.None?)
            && (o == Failed(InboundSendError) <==> m.nonce == l.q.next && l.inbox.Some? && !l.inbox.value.alive)
            && (o == Done <==> m.nonce != l.q.next || Alive(l))
            && (o != Done ==> l'.inbox == l.inbox && l'.q == QueueState(WrappingSucc(l.q.next), l.q.buf))
  {
  }

  /** Once its `Connection` is gone, a link forwards nothing more, whatever arrives. */
  lemma {:induction false} DeadLinkForwardsNothing(es: seq<Event>, more: seq<Event>)
    requires Run(es).inbox.Some?
    ensures Run(es + [Dropped] + more).inbox == Some(Run(es).inbox.value.(alive := false))
  {
    if more == [] {
      assert es + [Dropped] + more == es + [Dropped];
      RunAppendOne(es, Dropped);
    } else {
      var p := more[..|more| - 1];
      DeadLinkForwardsNothing(es, p);
      assert es + [Dropped] + more == (es + [Dropped] + p) + [more[|more| - 1]];
      RunAppendOne(es + [Dropped] + p, more[|more| - 1]);
    }
  }

  /** A drain that finds nobody behind the channel loses exactly the message it popped. */
  lemma DrainToNobody(q: QueueState, inbox: Inbox)
    requires !inbox.alive
    ensures var (q', inbox', o) := Drain(q, inbox);
            && inbox' == inbox
            && (o == Failed(InboundSendError) <==> HeadReady(q))
            && (!HeadReady(q) ==> q' == q && o == Done)
            && (HeadReady(q) ==> q'.next == WrappingSucc(q.next) && q'.buf == q.buf - {q.next})
  {
  }

  // ---------------------------------------------------------------- queue strictness

  /** The drain turns the weak invariant `try_push` leaves into the documented one. */
  lemma {:induction false} DrainRestoresStrictness(q: QueueState, inbox: Inbox)
    requires Weak(q) && inbox.alive
    ensures Strict(Drain(q, inbox).0)
    decreases |q.buf|
  {
    if HeadReady(q) {
      DrainRestoresStrictness(Popped(q), inbox.(sent := inbox.sent + [q.buf[q.next].message]));
    }
  }

  /** Every complete step restores the documented invariant, whatever the message,
      except exactly when the expected nonce arrives with nobody to take it while its
      successor is already waiting. */
  lemma StepKeepsStrictIff(l: Link, e: Event)
    requires Strict(l.q)
    ensures Strict(LinkStep(l, e).0.q) <==>
            !(e.Arrived? && !Alive(l) && e.m.nonce == l.q.next && WrappingSucc(l.q.next) in l.q.buf)
  {
    match e {
      case Connected =>
        if l.inbox.None? && l.q.next == 0 {
          DrainRestoresStrictness(l.q.(next := 1), EMPTY_INBOX);
        }
      case Arrived(m) =>
        PushKeepsWeak(l.q, m);
        if Alive(l) && m.nonce == l.q.next {
          DrainRestoresStrictness(Push(l.q, m).0, l.inbox.value.(sent := l.inbox.value.sent + [m.message]));
        }
      case Dropped =>
    }
  }
}
