/** What holds at every moment of every run of the two endpoints. */
module DuplexTheorems {
  import opened Base
  import opened Messages
  import opened Receiver
  import opened SubstreamSpec
  import opened MuxerSpec
  import opened Duplex
  import opened DuplexInvariant

  datatype System = System(a: End, b: End)

  datatype Side = A | B

  datatype Move = Move(side: Side, action: Action)

  function Mine(w: System, side: Side): End {
    if side.A? then w.a else w.b
  }

  function Other(side: Side): Side {
    if side.A? then B else A
  }

  function Peer(w: System, side: Side): End {
    Mine(w, Other(side))
  }

  predicate Possible(w: System, m: Move) {
    Allowed(Mine(w, m.side), Peer(w, m.side), m.action)
  }

  function Next(w: System, m: Move): System
    requires Possible(w, m)
  {
    var e := Act(Mine(w, m.side), m.action);
    if m.side.A? then System(e, w.b) else System(w.a, e)
  }

  ghost predicate Takes(w: System, m: Move, w': System) {
    Possible(w, m) && w' == Next(w, m)
  }

  /** A run from two fresh endpoints of one connection. */
  ghost predicate IsRun(ws: seq<System>, ms: seq<Move>) {
    && |ws| == |ms| + 1
    && (exists cid :: ws[0] == System(NewEnd(cid), NewEnd(cid)))
    && forall i | 0 <= i < |ms| :: Takes(ws[i], ms[i], ws[i + 1])
  }

  lemma InvSymmetric(e: End, peer: End)
    requires Inv(e, peer)
    ensures Inv(peer, e)
  {
    forall s ensures !(Opens(peer, s) && Opens(e, s)) {
      assert !(Opens(e, s) && Opens(peer, s));
    }
  }

  lemma MoveKeepsInv(w: System, m: Move, w': System)
    requires Takes(w, m, w') && Inv(w.a, w.b)
    ensures Inv(w'.a, w'.b)
  {
    if m.side.A? {
      StepKeepsInv(w.a, w.b, m.action);
    } else {
      InvSymmetric(w.a, w.b);
      StepKeepsInv(w.b, w.a, m.action);
      InvSymmetric(w'.b, w'.a);
    }
  }

  lemma RunStartsWell(ws: seq<System>, ms: seq<Move>)
    requires IsRun(ws, ms)
    ensures Inv(ws[0].a, ws[0].b)
  {
    var cid :| ws[0] == System(NewEnd(cid), NewEnd(cid));
    InitialInv(cid);
  }

  lemma {:induction false} RunKeepsInv(ws: seq<System>, ms: seq<Move>, i: nat)
    requires IsRun(ws, ms) && i < |ws|
    ensures forall j: nat | j <= i :: Inv(ws[j].a, ws[j].b)
  {
    if i == 0 {
      RunStartsWell(ws, ms);
    } else {
      RunKeepsInv(ws, ms, i - 1);
      MoveKeepsInv(ws[i - 1], ms[i - 1], ws[i]);
    }
  }

  lemma RunInv(ws: seq<System>, ms: seq<Move>, i: nat, side: Side)
    requires IsRun(ws, ms) && i < |ws|
    ensures Inv(Mine(ws[i], side), Peer(ws[i], side))
  {
    RunKeepsInv(ws, ms, i);
    if side.B? {
      InvSymmetric(ws[i].a, ws[i].b);
    }
  }

  lemma RunLedger(ws: seq<System>, ms: seq<Move>, i: nat, side: Side)
    requires IsRun(ws, ms) && i < |ws|
    ensures LedgerOk(Mine(ws[i], side))
  {
    RunInv(ws, ms, i, side);
  }

  lemma RunStreams(ws: seq<System>, ms: seq<Move>, i: nat, side: Side)
    requires IsRun(ws, ms) && i < |ws|
    ensures StreamsOk(Mine(ws[i], side)) && Counted(Mine(ws[i], side))
  {
    RunInv(ws, ms, i, side);
  }

  /** The substream being opened or answered does not exist yet. */
  ghost predicate Undecided(e: End) {
    !e.pc.Free? ==> e.pc.s !in e.subs
  }

  lemma RunBusy(ws: seq<System>, ms: seq<Move>, i: nat, side: Side)
    requires IsRun(ws, ms) && i < |ws|
    ensures Undecided(Mine(ws[i], side))
  {
    RunStreams(ws, ms, i, side);
  }

  lemma RunMux(ws: seq<System>, ms: seq<Move>, i: nat, side: Side)
    requires IsRun(ws, ms) && i < |ws|
    ensures MuxOk(Mine(ws[i], side)) && BytesOk(Mine(ws[i], side))
  {
    RunInv(ws, ms, i, side);
  }

  lemma RunLink(ws: seq<System>, ms: seq<Move>, i: nat, side: Side)
    requires IsRun(ws, ms) && i < |ws|
    ensures LinkOk(Mine(ws[i], side)) && Hears(Mine(ws[i], side), Peer(ws[i], side))
  {
    RunInv(ws, ms, i, side);
  }

  lemma RunTaken(ws: seq<System>, ms: seq<Move>, i: nat, side: Side)
    requires IsRun(ws, ms) && i < |ws|
    ensures TakenFrom(Mine(ws[i], side), Peer(ws[i], side))
  {
    RunLink(ws, ms, i, side);
    RunLedger(ws, ms, i, Other(side));
    Channels(Mine(ws[i], side), Peer(ws[i], side));
  }

  // ---------------------------------------------------------------- panic freedom

  /** A panic or a protocol error ended the connection. */
  predicate Failed(e: End) {
    e.trouble.Some? && e.trouble != Some(Abandoned)
  }

  /** The next message is a Close for a substream the application has dropped. */
  ghost predicate ClosesDropped(e: End) {
    && CanAct(e, Process)
    && var m := Out(e)[|e.taken|];
       m.messageType.Close? && Gone(e, m.substreamId)
  }

  /** The next message can always be routed: a request is answered, anything else goes
      through, except a Close whose substream was dropped. */
  lemma NextMessageRoutes(ws: seq<System>, ms: seq<Move>, i: nat, side: Side)
    requires IsRun(ws, ms) && i < |ws| && CanAct(Mine(ws[i], side), Process)
    ensures Expected(Mine(ws[i], side), Out(Mine(ws[i], side))[|Mine(ws[i], side).taken|])
  {
    RunInv(ws, ms, i, side);
    RunTaken(ws, ms, i, side);
    RunTaken(ws, ms, i, Other(side));
    NextIsRouted(Mine(ws[i], side), Peer(ws[i], side));
  }

  /** Exactly when a step panics: it processes a Close for a dropped substream. No step
      reaches the missing-channel `expect`, the first `unwrap` of `handle_close`,
      `SubstreamIdDoesNotExist` or `SubstreamIdExists`, "received twice" or a missing
      connection. */
  lemma StepPanicsIff(ws: seq<System>, ms: seq<Move>, i: nat)
    requires IsRun(ws, ms) && i < |ms|
    ensures var e, e' := Mine(ws[i], ms[i].side), Mine(ws[i + 1], ms[i].side);
            && (Failed(e') <==> Failed(e) || (ms[i].action.Process? && ClosesDropped(e)))
            && (Failed(e') ==> e'.trouble.value == MuxTrouble(Panics(CloseReceiverGone)))
  {
    var side, a := ms[i].side, ms[i].action;
    var e := Mine(ws[i], side);
    assert Takes(ws[i], ms[i], ws[i + 1]);
    RunLink(ws, ms, i + 1, side);
    if a.Process? {
      NextMessageRoutes(ws, ms, i, side);
      ProcessShape(e);
    } else if a.FinishOpen? {
      RunInv(ws, ms, i, side);
      OpensWell(e, Peer(ws[i], side));
    } else {
      OthersDoNotFail(e, a);
    }
  }

  lemma OpensWell(e: End, peer: End)
    requires Inv(e, peer) && CanAct(e, FinishOpen)
    ensures Act(e, FinishOpen).trouble.None?
  {
    Channels(e, peer);
    Channels(peer, e);
    FinishOpenKeepsMux(e, peer);
  }

  lemma OthersDoNotFail(e: End, a: Action)
    requires CanAct(e, a) && !a.Process? && !a.FinishOpen? && TroubleOk(Act(e, a))
    ensures Failed(Act(e, a)) <==> Failed(e)
  {
  }

  /** Panic freedom: over every run, an endpoint neither panics nor meets a protocol error
      if and only if it never processes a Close for a substream dropped before. */
  lemma {:induction false} PanicFreedom(ws: seq<System>, ms: seq<Move>, i: nat, side: Side)
    requires IsRun(ws, ms) && i < |ws|
    ensures !Failed(Mine(ws[i], side)) <==>
            forall k | 0 <= k < i && ms[k].side == side && ms[k].action.Process? :: !ClosesDropped(Mine(ws[k], side))
  {
    if i > 0 {
      PanicFreedom(ws, ms, i - 1, side);
      StepPanicsIff(ws, ms, i - 1);
      OtherSideStays(ws, ms, i - 1);
    }
  }

  lemma OtherSideStays(ws: seq<System>, ms: seq<Move>, i: nat)
    requires IsRun(ws, ms) && i < |ms|
    ensures Mine(ws[i + 1], Other(ms[i].side)) == Mine(ws[i], Other(ms[i].side))
  {
    assert Takes(ws[i], ms[i], ws[i + 1]);
  }

  ghost predicate NoneDropped(e: End) {
    forall s :: !Gone(e, s)
  }

  lemma {:induction false} NothingDroppedSoFar(ws: seq<System>, ms: seq<Move>, i: nat, side: Side)
    requires IsRun(ws, ms) && i < |ws|
    requires forall k | 0 <= k < |ms| :: !ms[k].action.Drop?
    ensures NoneDropped(Mine(ws[i], side))
  {
    if i > 0 {
      NothingDroppedSoFar(ws, ms, i - 1, side);
      if ms[i - 1].side == side {
        DropsAtNext(ws, ms, i - 1);
      } else {
        OtherSideStays(ws, ms, i - 1);
      }
    }
  }

  /** In particular no run in which nothing is dropped panics. */
  lemma NothingDroppedNothingPanics(ws: seq<System>, ms: seq<Move>, i: nat, side: Side)
    requires IsRun(ws, ms) && i < |ws|
    requires forall k | 0 <= k < |ms| :: !ms[k].action.Drop?
    ensures !Failed(Mine(ws[i], side))
  {
    forall k | 0 <= k < i && ms[k].side == side && ms[k].action.Process? ensures !ClosesDropped(Mine(ws[k], side)) {
      NothingDroppedSoFar(ws, ms, k, side);
    }
    PanicFreedom(ws, ms, i, side);
  }

  lemma DropsAtNext(ws: seq<System>, ms: seq<Move>, i: nat)
    requires IsRun(ws, ms) && i < |ms| && !ms[i].action.Drop?
    requires NoneDropped(Mine(ws[i], ms[i].side))
    ensures NoneDropped(Mine(ws[i + 1], ms[i].side))
  {
    assert Takes(ws[i], ms[i], ws[i + 1]);
    StepDropsNothing(Mine(ws[i], ms[i].side), ms[i].action);
  }

  lemma StepDropsNothing(e: End, a: Action)
    requires CanAct(e, a) && !a.Drop? && NoneDropped(e)
    ensures NoneDropped(Act(e, a))
  {
    var e' := Act(e, a);
    forall s ensures !Gone(e', s) {
      assert !Gone(e, s);
      if ByMuxer(a) { MuxerDropsNothing(e, a, s); } else { OneSubMoves(e, a); }
    }
  }

  lemma MuxerDropsNothing(e: End, a: Action, s: SubstreamId)
    requires CanAct(e, a) && ByMuxer(a) && !Gone(e, s)
    ensures !Gone(Act(e, a), s)
  {
  }

  // ---------------------------------------------------------------- order and content

  function Chunks(wrote: seq<(nat, Chunk)>): seq<Chunk> {
    if wrote == [] then [] else Chunks(wrote[..|wrote| - 1]) + [wrote[|wrote| - 1].1]
  }

  lemma {:induction false} ChunksPrefix(wrote: seq<(nat, Chunk)>, k: nat)
    requires k <= |wrote|
    ensures Chunks(wrote[..k]) <= Chunks(wrote)
  {
    if k < |wrote| {
      ChunksPrefix(wrote[..|wrote| - 1], k);
      assert wrote[..|wrote| - 1][..k] == wrote[..k];
    } else {
      assert wrote[..k] == wrote;
    }
  }

  /** The chunks sent under nonces up to `p` are the first `k`. */
  ghost predicate Cut(wrote: seq<(nat, Chunk)>, p: nat, k: nat) {
    k <= |wrote| && forall i | 0 <= i < |wrote| :: wrote[i].0 <= p <==> i < k
  }

  /** A substream's record and the ledger agree on its chunks. */
  ghost predicate Recorded(e: End, s: SubstreamId, wrote: seq<(nat, Chunk)>) {
    && (forall i | 0 <= i < |wrote| :: wrote[i].0 >= 1 && SentAt(e, wrote[i].0, Msg(s, Data(wrote[i].1))))
    && (forall i, j | 0 <= i < j < |wrote| :: wrote[i].0 < wrote[j].0)
    && (forall n: nat, d | SentAt(e, n, Msg(s, Data(d))) :: (n, d) in wrote)
  }

  lemma WroteIsRecorded(e: End, s: SubstreamId)
    requires Counted(e) && StreamsOk(e) && s in e.subs
    ensures Recorded(e, s, e.subs[s].wrote)
  {
    assert SubOk(e, s);
    forall n: nat, d | SentAt(e, n, Msg(s, Data(d))) ensures (n, d) in e.subs[s].wrote {
      assert SlotOk(e, n, Msg(s, Data(d)));
    }
  }

  /** The first `p` messages taken carry exactly the chunks the peer sent on `s` under
      nonces up to `p`, which are the first `k` it sent. */
  lemma {:induction false} RoutedIsSent(e: End, peer: End, s: SubstreamId, wrote: seq<(nat, Chunk)>, p: nat)
    returns (k: nat)
    requires Recorded(peer, s, wrote) && TakenFrom(e, peer) && p <= |e.taken|
    ensures Cut(wrote, p, k)
    ensures DataOf(e.taken[..p], s) == Chunks(wrote[..k])
  {
    if p == 0 {
      k := 0;
    } else {
      var q: nat := p - 1;
      k := RoutedIsSent(e, peer, s, wrote, q);
      TakenAt(e, peer, q);
      k := RoutedNext(peer, s, wrote, e.taken[..q], e.taken[q], p, k);
    }
  }

  lemma TakenAt(e: End, peer: End, q: nat)
    requires TakenFrom(e, peer) && q < |e.taken|
    ensures SentAt(peer, q + 1, e.taken[q])
    ensures e.taken[..q + 1] == e.taken[..q] + [e.taken[q]]
  {
    assert e.taken[q] == Out(e)[q];
  }

  lemma RoutedNext(peer: End, s: SubstreamId, wrote: seq<(nat, Chunk)>, ms: seq<SubstreamMessage>, m: SubstreamMessage,
                   p: nat, k: nat)
    returns (k': nat)
    requires Recorded(peer, s, wrote) && p >= 1
    requires SentAt(peer, p, m) && Cut(wrote, p - 1, k)
    requires DataOf(ms, s) == Chunks(wrote[..k])
    ensures Cut(wrote, p, k')
    ensures DataOf(ms + [m], s) == Chunks(wrote[..k'])
  {
    DataOfAppend(ms, m, s);
    if m.substreamId == s && m.messageType.Data? {
      assert m == Msg(s, Data(m.messageType.data));
      k' := CutNext(wrote, p, k, m.messageType.data);
    } else {
      CutStays(peer, s, wrote, m, p, k);
      k' := k;
    }
  }

  /** Another kind of message under nonce `p` adds no chunk. */
  lemma CutStays(peer: End, s: SubstreamId, wrote: seq<(nat, Chunk)>, m: SubstreamMessage, p: nat, k: nat)
    requires Recorded(peer, s, wrote) && p >= 1 && SentAt(peer, p, m) && Cut(wrote, p - 1, k)
    requires m.substreamId != s || !m.messageType.Data?
    ensures Cut(wrote, p, k)
  {
    forall i | 0 <= i < |wrote| ensures wrote[i].0 != p {
      assert SentAt(peer, wrote[i].0, Msg(s, Data(wrote[i].1)));
    }
  }

  /** If a chunk was sent under nonce `p`, it is the next one. */
  lemma CutNext(wrote: seq<(nat, Chunk)>, p: nat, k: nat, d: Chunk) returns (k': nat)
    requires p >= 1 && Cut(wrote, p - 1, k) && (p, d) in wrote
    requires forall i, j | 0 <= i < j < |wrote| :: wrote[i].0 < wrote[j].0
    ensures Cut(wrote, p, k') && Chunks(wrote[..k']) == Chunks(wrote[..k]) + [d]
  {
    var j :| 0 <= j < |wrote| && wrote[j] == (p, d);
    StrictlyRising(wrote, k, j);
    assert wrote[..k + 1][..k] == wrote[..k];
    k' := k + 1;
  }

  lemma StrictlyRising(wrote: seq<(nat, Chunk)>, i: nat, j: nat)
    requires forall i, j | 0 <= i < j < |wrote| :: wrote[i].0 < wrote[j].0
    requires i <= j < |wrote|
    ensures i == j || wrote[i].0 < wrote[j].0
  {
  }

  /** End-to-end FIFO: in every run, what was routed into a substream is a prefix of what
      its peer sent there, in order and without repetition; before the peer sent
      anything, nothing is. */
  lemma SubstreamFifo(ws: seq<System>, ms: seq<Move>, i: nat, side: Side, s: SubstreamId)
    requires IsRun(ws, ms) && i < |ws| && s in Mine(ws[i], side).subs
    ensures Mine(ws[i], side).subs[s].routed <= SentOn(Peer(ws[i], side), s)
    ensures ChannelCarries(Mine(ws[i], side), s)
  {
    RunMux(ws, ms, i, side);
    RunTaken(ws, ms, i, side);
    RunStreams(ws, ms, i, Other(side));
    FifoNow(Mine(ws[i], side), Peer(ws[i], side), s);
  }

  /** Until the peer's Close, what was routed is what the multiplexer sent into the
      substream's channel, which is open while the substream is not dropped. */
  ghost predicate ChannelCarries(e: End, s: SubstreamId)
    requires s in e.subs
  {
    s in e.mux.txs ==> e.mux.txs[s] == TxEnd(e.subs[s].routed, !e.subs[s].dropped)
  }

  /** The chunks an endpoint sent on a substream, in order. */
  function SentOn(e: End, s: SubstreamId): seq<Chunk> {
    if s in e.subs then Chunks(e.subs[s].wrote) else []
  }

  lemma FifoNow(e: End, peer: End, s: SubstreamId)
    requires RoutedOk(e) && TakenFrom(e, peer) && Counted(peer) && StreamsOk(peer) && s in e.subs
    ensures e.subs[s].routed <= SentOn(peer, s)
  {
    if s in peer.subs {
      WroteIsRecorded(peer, s);
      var k := RoutedIsSent(e, peer, s, peer.subs[s].wrote, |e.taken|);
      assert e.taken[..|e.taken|] == e.taken;
      ChunksPrefix(peer.subs[s].wrote, k);
    } else {
      forall m | m in e.taken ensures m.substreamId != s {
        var n := TakenHasSlot(e, peer, m);
        assert SlotOk(peer, n, m);
      }
      DataOfNothing(e.taken, s);
    }
  }

  /** Completeness: once everything the peer took a nonce for has been taken, a substream
      that was not dropped was routed all its peer sent there. */
  lemma AllTakenAllRouted(ws: seq<System>, ms: seq<Move>, i: nat, side: Side, s: SubstreamId)
    requires IsRun(ws, ms) && i < |ws|
    requires s in Mine(ws[i], side).subs && !Mine(ws[i], side).subs[s].dropped
    requires |Mine(ws[i], side).taken| >= Peer(ws[i], side).counter - 1
    ensures Mine(ws[i], side).subs[s].routed == SentOn(Peer(ws[i], side), s)
  {
    RunMux(ws, ms, i, side);
    RunTaken(ws, ms, i, side);
    RunStreams(ws, ms, i, Other(side));
    RoutedInFull(Mine(ws[i], side), Peer(ws[i], side), s);
  }

  lemma RoutedInFull(e: End, peer: End, s: SubstreamId)
    requires RoutedOk(e) && TakenFrom(e, peer) && Counted(peer) && StreamsOk(peer)
    requires s in e.subs && !e.subs[s].dropped && |e.taken| >= peer.counter - 1
    ensures e.subs[s].routed == SentOn(peer, s)
  {
    FifoNow(e, peer, s);
    if s in peer.subs {
      WroteIsRecorded(peer, s);
      var wrote := peer.subs[s].wrote;
      var k := RoutedIsSent(e, peer, s, wrote, |e.taken|);
      assert e.taken[..|e.taken|] == e.taken;
      forall i | 0 <= i < |wrote| ensures wrote[i].0 <= |e.taken| {
        assert SentAt(peer, wrote[i].0, Msg(s, Data(wrote[i].1)));
      }
      assert k == |wrote| && wrote[..k] == wrote;
    }
  }

  /** End-to-end byte stream: the bytes placed in read buffers are a prefix of the bytes
      the peer's writer handed over, through every buffer size and arrival order. What the
      reader is told of them is `ReaderIsTold`. */
  lemma ByteStream(ws: seq<System>, ms: seq<Move>, i: nat, side: Side, s: SubstreamId)
    requires IsRun(ws, ms) && i < |ws| && s in Mine(ws[i], side).subs
    ensures Mine(ws[i], side).subs[s].placed <= Concat(SentOn(Peer(ws[i], side), s))
  {
    SubstreamFifo(ws, ms, i, side, s);
    RunMux(ws, ms, i, side);
    PlacedIsPrefix(Mine(ws[i], side).subs[s], SentOn(Peer(ws[i], side), s));
  }

  lemma PlacedIsPrefix(sub: Sub, all: seq<Chunk>)
    requires sub.placed + sub.st.unread + Concat(sub.st.rx) == Concat(sub.routed)
    requires sub.routed <= all
    ensures sub.placed <= Concat(all)
  {
    var rest := all[|sub.routed|..];
    assert all == sub.routed + rest;
    ConcatAppend(sub.routed, rest);
    PrefixOfSum(sub.placed, sub.st.unread, Concat(sub.st.rx), Concat(rest));
  }

  lemma PrefixOfSum(a: seq<byte>, b: seq<byte>, c: seq<byte>, d: seq<byte>)
    ensures a <= a + b + c + d
  {
  }

  // ---------------------------------------------------------------- what the reader learns

  function PlacedOn(e: End, s: SubstreamId): seq<byte> {
    if s in e.subs then e.subs[s].placed else []
  }

  /** The bytes the reports of `poll_read` account for. */
  function ToldOn(e: End, s: SubstreamId): seq<byte> {
    if s in e.subs then e.subs[s].told else []
  }

  /** The action is a read of `s` that finds fewer left-over bytes than its buffer holds
      and a chunk ready. */
  ghost predicate ReadsShort(e: End, a: Action, s: SubstreamId) {
    CanAct(e, a) && a.ReadSome? && a.s == s && Short(e.subs[s].st, a.buf)
  }

  ghost predicate ShortMove(ws: seq<System>, ms: seq<Move>, k: nat, side: Side, s: SubstreamId) {
    k < |ms| && k < |ws| && ms[k].side == side && ReadsShort(Mine(ws[k], side), ms[k].action, s)
  }

  ghost predicate ShortBefore(ws: seq<System>, ms: seq<Move>, i: nat, side: Side, s: SubstreamId) {
    exists k: nat :: k < i && ShortMove(ws, ms, k, side, s)
  }

  /** The reader knows of all bytes placed, unless some read was short. */
  ghost predicate ToldUnless(e: End, s: SubstreamId, short: bool) {
    if short then |ToldOn(e, s)| < |PlacedOn(e, s)| else ToldOn(e, s) == PlacedOn(e, s)
  }

  lemma ReadTells(e: End, s: SubstreamId, buf: seq<byte>, short: bool)
    requires CanAct(e, ReadSome(s, buf)) && ToldUnless(e, s, short)
    ensures ToldUnless(Act(e, ReadSome(s, buf)), s, short || Short(e.subs[s].st, buf))
  {
    ToldIsPlacedUnlessShort(e.subs[s].st, buf);
  }

  /** No step but a read changes what was placed and told. */
  lemma OthersTellNothing(e: End, a: Action, s: SubstreamId)
    requires CanAct(e, a) && Undecided(e) && !(a.ReadSome? && a.s == s)
    ensures PlacedOn(Act(e, a), s) == PlacedOn(e, s) && ToldOn(Act(e, a), s) == ToldOn(e, s)
  {
    if ByMuxer(a) {
      MuxerTellsNothing(e, a, s);
    } else {
      OneSubMoves(e, a);
    }
  }

  lemma MuxerTellsNothing(e: End, a: Action, s: SubstreamId)
    requires CanAct(e, a) && ByMuxer(a) && Undecided(e)
    ensures PlacedOn(Act(e, a), s) == PlacedOn(e, s) && ToldOn(Act(e, a), s) == ToldOn(e, s)
  {
  }

  lemma MoveTells(w: System, m: Move, w': System, side: Side, s: SubstreamId, short: bool)
    requires Takes(w, m, w') && Undecided(Mine(w, side)) && ToldUnless(Mine(w, side), s, short)
    ensures ToldUnless(Mine(w', side), s, short || (m.side == side && ReadsShort(Mine(w, side), m.action, s)))
  {
    var e, a := Mine(w, side), m.action;
    if m.side == side {
      if a.ReadSome? && a.s == s {
        ReadTells(e, s, a.buf, short);
      } else {
        OthersTellNothing(e, a, s);
      }
    }
  }

  lemma {:induction false} ToldThroughRun(ws: seq<System>, ms: seq<Move>, i: nat, side: Side, s: SubstreamId)
    requires IsRun(ws, ms) && i < |ws|
    ensures ToldUnless(Mine(ws[i], side), s, ShortBefore(ws, ms, i, side, s))
  {
    if i > 0 {
      var j: nat := i - 1;
      ToldThroughRun(ws, ms, j, side, s);
      RunBusy(ws, ms, j, side);
      MoveTells(ws[j], ms[j], ws[i], side, s, ShortBefore(ws, ms, j, side, s));
      if ShortMove(ws, ms, j, side, s) { assert ShortBefore(ws, ms, i, side, s); }
      if k: nat :| k < j && ShortMove(ws, ms, k, side, s) { assert ShortBefore(ws, ms, i, side, s); }
    }
  }

  /** What the peer's writer hands over and the reader learns, end to end: a reader was
      told of all bytes placed, hence of a prefix of the peer's bytes, if and only if none
      of its reads found left-over bytes, room for more and a chunk ready; otherwise it
      was told of fewer bytes than its buffers took. */
  lemma ReaderIsTold(ws: seq<System>, ms: seq<Move>, i: nat, side: Side, s: SubstreamId)
    requires IsRun(ws, ms) && i < |ws| && s in Mine(ws[i], side).subs
    ensures var sub := Mine(ws[i], side).subs[s];
            && (sub.told == sub.placed <==> !ShortBefore(ws, ms, i, side, s))
            && (!ShortBefore(ws, ms, i, side, s) ==> sub.told <= Concat(SentOn(Peer(ws[i], side), s)))
            && (ShortBefore(ws, ms, i, side, s) ==> |sub.told| < |sub.placed|)
  {
    ToldThroughRun(ws, ms, i, side, s);
    ByteStream(ws, ms, i, side, s);
  }

  // ---------------------------------------------------------------- nonces

  ghost predicate NonceSent(e: End, n: nat) {
    exists i | 0 <= i < |e.sent| :: e.sent[i].nonce == n
  }

  ghost predicate NonceHeld(e: End, n: nat) {
    exists who :: Holding(e, who) == Some(n)
  }

  /** Nonce `n` is in exactly one of the three places if it was taken, else in none. */
  ghost predicate Accounted(e: End, n: nat) {
    && (1 <= n < e.counter <==> NonceSent(e, n) || NonceHeld(e, n) || n in e.burnt)
    && !(NonceSent(e, n) && NonceHeld(e, n))
    && !(NonceSent(e, n) && n in e.burnt)
    && !(NonceHeld(e, n) && n in e.burnt)
  }

  /** Nonce accounting under every interleaving: sent, held and burnt nonces are pairwise
      disjoint and together exactly 1..counter-1; none is sent twice or held twice. */
  lemma NonceAccounting(ws: seq<System>, ms: seq<Move>, i: nat, side: Side)
    requires IsRun(ws, ms) && i < |ws|
    ensures forall n: nat :: Accounted(Mine(ws[i], side), n)
    ensures NoRepeats(Mine(ws[i], side))
  {
    RunLedger(ws, ms, i, side);
    var e := Mine(ws[i], side);
    forall n: nat ensures Accounted(e, n) {
      SlotsAccount(e, n);
    }
    NothingTwice(e);
  }

  ghost predicate NoRepeats(e: End) {
    && (forall j, k | 0 <= j < k < |e.sent| :: e.sent[j].nonce != e.sent[k].nonce)
    && (forall x, y | Holding(e, x).Some? && Holding(e, x) == Holding(e, y) :: x == y)
  }

  lemma NothingTwice(e: End)
    requires LedgerOk(e)
    ensures NoRepeats(e)
  {
    forall x, y | Holding(e, x).Some? && Holding(e, x) == Holding(e, y) ensures x == y {
      assert e.ledger[Holding(e, x).value] == InFlight(x);
    }
  }

  lemma SlotsAccount(e: End, n: nat)
    requires LedgerOk(e)
    ensures NonceSent(e, n) <==> n in e.ledger && e.ledger[n].Sent?
    ensures NonceHeld(e, n) <==> n in e.ledger && e.ledger[n].InFlight?
    ensures n in e.burnt <==> n in e.ledger && e.ledger[n].Burnt?
  {
    if NonceSent(e, n) {
      var i :| 0 <= i < |e.sent| && e.sent[i].nonce == n;
      assert SentAt(e, e.sent[i].nonce, e.sent[i].message);
    }
    if n in e.ledger && e.ledger[n].Sent? {
      assert SentAt(e, n, e.ledger[n].m);
      var i :| 0 <= i < |e.sent| && e.sent[i] == TransportMessage(n, e.ledger[n].m, e.cid);
      assert e.sent[i].nonce == n;
    }
    if n in e.ledger && e.ledger[n].InFlight? {
      assert Holding(e, e.ledger[n].who) == Some(n);
    }
    if NonceHeld(e, n) {
      var who :| Holding(e, who) == Some(n);
      assert e.ledger[n] == InFlight(who);
    }
  }

  // ---------------------------------------------------------------- what can be delivered

  /** The peer has put nonce `n` on the network in a form the decoder accepts. */
  ghost predicate Deliverable(peer: End, n: nat) {
    exists m | m in peer.sent :: m.nonce == n && !IsEmptyData(m.message)
  }

  /** The messages the network may still bring to `e` without the peer sending more. */
  ghost predicate Brings(peer: End, more: seq<Event>) {
    forall i | 0 <= i < |more| && more[i] != Connected ::
      more[i].Arrived? && more[i].m in peer.sent && !IsEmptyData(more[i].m.message)
  }

  ghost predicate Reaches(e: End, peer: End, n: nat) {
    exists more | Brings(peer, more) ::
      Run(e.events + more).inbox.Some? && n <= |Run(e.events + more).inbox.value.sent|
  }

  /** The exact limit of completeness, in every state of every run: the network can bring
      `n` messages through to the connection if and only if the peer sent every nonce up
      to `n` and none of them as an empty write. */
  lemma ReachesIff(ws: seq<System>, ms: seq<Move>, i: nat, side: Side, n: u64)
    requires IsRun(ws, ms) && i < |ws| && n >= 1
    ensures var e, peer := Mine(ws[i], side), Peer(ws[i], side);
            Reaches(e, peer, n) <==> forall k: u64 | 1 <= k <= n :: Deliverable(peer, k)
  {
    RunLink(ws, ms, i, side);
    RunLedger(ws, ms, i, Other(side));
    var e, peer := Mine(ws[i], side), Peer(ws[i], side);
    if Reaches(e, peer, n) {
      ReachedWasSent(e, peer, n);
    }
    if forall k: u64 | 1 <= k <= n :: Deliverable(peer, k) {
      SentCanReach(e, peer, n);
    }
  }

  lemma ReachedWasSent(e: End, peer: End, n: u64)
    requires Proper(e.events) && Hears(e, peer) && Counted(peer) && ChannelOk(peer)
    requires n >= 1 && Reaches(e, peer, n)
    ensures forall k: u64 | 1 <= k <= n :: Deliverable(peer, k)
  {
    var more :| Brings(peer, more) && Run(e.events + more).inbox.Some? && n <= |Run(e.events + more).inbox.value.sent|;
    BroughtIsProper(e, peer, more);
    DeliveredIff(e.events + more, n);
    forall k: u64 | 1 <= k <= n ensures Deliverable(peer, k) {
      var j: nat := k;
      assert j in First(e.events + more);
      FirstOrigin(e.events + more, k);
      BroughtWasSent(e, peer, more, First(e.events + more)[k]);
    }
  }

  lemma SentCanReach(e: End, peer: End, n: u64)
    requires Proper(e.events) && Counted(peer) && ChannelOk(peer)
    requires n >= 1 && forall k: u64 | 1 <= k <= n :: Deliverable(peer, k)
    ensures Reaches(e, peer, n)
  {
    var more := BringAll(peer, n);
    var now := [Connected] + more;
    BroughtIsProper(e, peer, now);
    var all := e.events + now;
    assert all[|e.events|] == Connected;
    forall k: nat | 1 <= k <= n ensures k in First(all) {
      var j := WhereBrought(more, n, k);
      assert all[|e.events| + 1 + j] == more[j];
      FirstSeen(all, |e.events| + 1 + j);
    }
    DeliveredIff(all, n);
  }

  lemma BroughtIsProper(e: End, peer: End, more: seq<Event>)
    requires Proper(e.events) && Counted(peer) && ChannelOk(peer) && Brings(peer, more)
    ensures Proper(e.events + more)
  {
    var all := e.events + more;
    forall i | 0 <= i < |all| ensures !all[i].Dropped? && (all[i].Arrived? ==> all[i].m.nonce >= 1) {
      if i >= |e.events| {
        assert all[i] == more[i - |e.events|];
        if all[i].Arrived? {
          var j :| 0 <= j < |peer.sent| && peer.sent[j] == all[i].m;
          assert SentAt(peer, peer.sent[j].nonce, peer.sent[j].message);
        }
      } else {
        assert all[i] == e.events[i];
      }
    }
  }

  lemma BroughtWasSent(e: End, peer: End, more: seq<Event>, m: TransportMessage)
    requires Hears(e, peer) && Brings(peer, more) && Arrived(m) in e.events + more
    ensures m in peer.sent && !IsEmptyData(m.message)
  {
    var all := e.events + more;
    var i :| 0 <= i < |all| && all[i] == Arrived(m);
    if i < |e.events| { assert e.events[i] == Arrived(m); } else { assert more[i - |e.events|] == Arrived(m); }
  }

  /** `more` is one arrival per nonce 1..n, in order. */
  ghost predicate OnePerNonce(more: seq<Event>, n: nat) {
    |more| == n && forall j: nat | j < n :: more[j].Arrived? && more[j].m.nonce == j + 1
  }

  lemma WhereBrought(more: seq<Event>, n: nat, k: nat) returns (j: nat)
    requires OnePerNonce(more, n) && 1 <= k <= n
    ensures j < |more| && more[j].Arrived? && more[j].m.nonce == k
  {
    j := k - 1;
  }

  lemma {:induction false} BringAll(peer: End, n: nat) returns (more: seq<Event>)
    requires n <= U64_MAX
    requires forall k: u64 | 1 <= k <= n :: Deliverable(peer, k)
    ensures Brings(peer, more) && OnePerNonce(more, n)
  {
    if n == 0 {
      more := [];
    } else {
      var p := BringAll(peer, n - 1);
      var top: u64 := n;
      assert Deliverable(peer, top);
      var m :| m in peer.sent && m.nonce == n && !IsEmptyData(m.message);
      more := p + [Arrived(m)];
    }
  }

  /** A nonce burnt by closing a closed substream, or spent on an empty write, stays so
      for the rest of the run. */
  ghost predicate Lost(e: End, n: nat) {
    n in e.burnt || exists s :: SentAt(e, n, Msg(s, Data([])))
  }

  lemma {:induction false} LostStaysLost(ws: seq<System>, ms: seq<Move>, i: nat, j: nat, side: Side, n: nat)
    requires IsRun(ws, ms) && i <= j < |ws| && Lost(Mine(ws[i], side), n)
    ensures Lost(Mine(ws[j], side), n)
  {
    if i < j {
      LostStaysLost(ws, ms, i, j - 1, side, n);
      LostAtNext(ws, ms, j - 1, side, n);
    }
  }

  lemma LostAtNext(ws: seq<System>, ms: seq<Move>, i: nat, side: Side, n: nat)
    requires IsRun(ws, ms) && i < |ms| && Lost(Mine(ws[i], side), n)
    ensures Lost(Mine(ws[i + 1], side), n)
  {
    RunLedger(ws, ms, i, side);
    MoveKeepsLost(ws[i], ms[i], ws[i + 1], side, n);
  }

  lemma MoveKeepsLost(w: System, m: Move, w': System, side: Side, n: nat)
    requires Takes(w, m, w') && LedgerOk(Mine(w, side)) && Lost(Mine(w, side), n)
    ensures Lost(Mine(w', side), n)
  {
    if m.side == side {
      StepKeepsLost(Mine(w, side), m.action, n);
    }
  }

  lemma StepKeepsLost(e: End, a: Action, n: nat)
    requires CanAct(e, a) && LedgerOk(e) && Lost(e, n)
    ensures Lost(Act(e, a), n)
  {
    if ByMuxer(a) { MuxerGrows(e, a); } else { StreamGrows(e, a); }
    if n !in e.burnt {
      var s :| SentAt(e, n, Msg(s, Data([])));
      assert SentAt(Act(e, a), n, Msg(s, Data([])));
    }
  }

  /** So from then on, in every continuation, the other side never gets past it: nothing
      with that nonce or a higher one is forwarded on any substream of the connection. */
  lemma LostNonceBlocks(ws: seq<System>, ms: seq<Move>, i: nat, j: nat, side: Side, n: nat)
    requires IsRun(ws, ms) && i <= j < |ws| && Lost(Peer(ws[i], side), n)
    ensures |Out(Mine(ws[j], side))| < n
  {
    LostStaysLost(ws, ms, i, j, Other(side), n);
    RunLink(ws, ms, j, side);
    RunLedger(ws, ms, j, Other(side));
    LostIsNotForwarded(Mine(ws[j], side), Peer(ws[j], side), n);
  }

  lemma LostIsNotForwarded(e: End, peer: End, n: nat)
    requires LinkOk(e) && Hears(e, peer) && LedgerOk(peer) && Lost(peer, n)
    ensures |Out(e)| < n
  {
    assert n in peer.ledger && n >= 1;
    if n <= |Out(e)| {
      ForwardedIsNotLost(e, peer, n - 1);
    }
  }

  lemma ForwardedIsNotLost(e: End, peer: End, k: nat)
    requires LinkOk(e) && Hears(e, peer) && LedgerOk(peer) && k < |Out(e)|
    ensures !Lost(peer, k + 1)
  {
    ForwardedWasSent(e, peer);
    assert SentAt(peer, k + 1, Out(e)[k]) && !IsEmptyData(Out(e)[k]);
  }

  // ---------------------------------------------------------------- opening and closing

  /** Pending-open discipline: whatever still waits for an OpenResponse is a live
      substream this side opened, and no response to it was taken yet. */
  lemma PendingIsLive(ws: seq<System>, ms: seq<Move>, i: nat, side: Side, s: SubstreamId)
    requires IsRun(ws, ms) && i < |ws| && s in Mine(ws[i], side).mux.pending
    ensures var e := Mine(ws[i], side);
            s in e.mux.txs && s in e.subs && e.subs[s].opener && Msg(s, OpenResponse) !in e.taken
  {
    RunMux(ws, ms, i, side);
  }

  lemma StepKeepsTaken(e: End, a: Action)
    requires CanAct(e, a)
    ensures e.taken <= Act(e, a).taken
  {
  }

  lemma MoveKeepsTaken(w: System, m: Move, w': System, side: Side)
    requires Takes(w, m, w')
    ensures Mine(w, side).taken <= Mine(w', side).taken
  {
    if m.side == side {
      StepKeepsTaken(Mine(w, side), m.action);
    }
  }

  lemma {:induction false} TakenGrows(ws: seq<System>, ms: seq<Move>, i: nat, j: nat, side: Side)
    requires IsRun(ws, ms) && i <= j < |ws|
    ensures Mine(ws[i], side).taken <= Mine(ws[j], side).taken
  {
    if i < j {
      TakenGrows(ws, ms, i, j - 1, side);
      MoveKeepsTaken(ws[j - 1], ms[j - 1], ws[j], side);
    }
  }

  /** Each pending entry is cleared at most once: it never comes back. */
  lemma ClearedAtMostOnce(ws: seq<System>, ms: seq<Move>, i: nat, j: nat, k: nat, side: Side, s: SubstreamId)
    requires IsRun(ws, ms) && i <= j <= k < |ws|
    requires s in Mine(ws[i], side).mux.pending && s !in Mine(ws[j], side).mux.pending
    ensures s !in Mine(ws[k], side).mux.pending
    ensures Msg(s, OpenResponse) in Mine(ws[k], side).taken
  {
    RunMux(ws, ms, i, side);
    OpenerStays(ws, ms, i, j, side, s);
    RunMux(ws, ms, j, side);
    assert Msg(s, OpenResponse) in Mine(ws[j], side).taken;
    TakenGrows(ws, ms, j, k, side);
    RunMux(ws, ms, k, side);
  }

  ghost predicate HasRole(e: End, s: SubstreamId, opener: bool) {
    s in e.subs && e.subs[s].opener == opener
  }

  lemma {:induction false} OpenerStays(ws: seq<System>, ms: seq<Move>, i: nat, j: nat, side: Side, s: SubstreamId)
    requires IsRun(ws, ms) && i <= j < |ws| && HasRole(Mine(ws[i], side), s, true)
    ensures HasRole(Mine(ws[j], side), s, true)
  {
    if i < j {
      var k: nat := j - 1;
      OpenerStays(ws, ms, i, k, side, s);
      OpenerAtNext(ws, ms, k, side, s);
      assert k + 1 == j;
    }
  }

  lemma OpenerAtNext(ws: seq<System>, ms: seq<Move>, i: nat, side: Side, s: SubstreamId)
    requires IsRun(ws, ms) && i < |ms| && HasRole(Mine(ws[i], side), s, true)
    ensures HasRole(Mine(ws[i + 1], side), s, true)
  {
    RunBusy(ws, ms, i, side);
    MoveKeepsOpener(ws[i], ms[i], ws[i + 1], side, s);
  }

  lemma MoveKeepsOpener(w: System, m: Move, w': System, side: Side, s: SubstreamId)
    requires Takes(w, m, w') && Undecided(Mine(w, side)) && HasRole(Mine(w, side), s, true)
    ensures HasRole(Mine(w', side), s, true)
  {
    if m.side == side {
      StepKeepsOpener(Mine(w, side), m.action, s);
    }
  }

  lemma StepKeepsOpener(e: End, a: Action, s: SubstreamId)
    requires CanAct(e, a) && s in e.subs && Undecided(e)
    ensures s in Act(e, a).subs && Act(e, a).subs[s].opener == e.subs[s].opener
  {
  }

  /** Each side sends at most one Close per substream, under the largest nonce it ever
      uses there, after an opening message under the smallest. */
  lemma CloseIsLast(ws: seq<System>, ms: seq<Move>, i: nat, side: Side,
                    s: SubstreamId, x: TransportMessage, y: TransportMessage)
    requires IsRun(ws, ms) && i < |ws|
    requires var e := Mine(ws[i], side);
             x in e.sent && y in e.sent && x.message.substreamId == s && y.message.substreamId == s && x != y
    ensures x.message.messageType.Close? ==> y.nonce < x.nonce && !y.message.messageType.Close?
    ensures x.message.messageType.OpenRequest? || x.message.messageType.OpenResponse? ==> x.nonce < y.nonce
  {
    RunStreams(ws, ms, i, side);
    RunLedger(ws, ms, i, side);
    SentHasSlot(Mine(ws[i], side), x);
    SentHasSlot(Mine(ws[i], side), y);
  }

  lemma SentHasSlot(e: End, x: TransportMessage)
    requires ChannelOk(e) && StreamsOk(e) && x in e.sent
    ensures SentAt(e, x.nonce, x.message) && SlotOk(e, x.nonce, x.message) && x.id == e.cid
  {
    var j :| 0 <= j < |e.sent| && e.sent[j] == x;
    assert SentAt(e, e.sent[j].nonce, e.sent[j].message);
  }

  // ---------------------------------------------------------------- steps and calls

  /** Undisturbed, the two halves of a write are one `poll_write`. */
  lemma WriteIsTwoSteps(e: End, s: SubstreamId, data: Chunk)
    requires CanAct(e, BeginWrite(s, data))
    ensures var r := PollWrite(e.subs[s].st, data, true);
            var e1 := Act(e, BeginWrite(s, data));
            if r.tookNonce then
              && r.sent.Some? && CanAct(e1, FinishWrite(s))
              && var e2 := Act(e1, FinishWrite(s));
                 && e2.subs[s].st == r.st && e2.counter == e.counter + 1
                 && e2.sent == e.sent + [TransportMessage(e.counter, Msg(s, r.sent.value), e.cid)]
            else
              e1.subs[s].st == r.st && e1.counter == e.counter && e1.sent == e.sent
  {
  }

  /** Undisturbed, the two halves of a close are one `poll_close`; it sends, or burns. */
  lemma CloseIsTwoSteps(e: End, s: SubstreamId)
    requires CanAct(e, BeginClose(s))
    ensures var r := PollClose(e.subs[s].st, true);
            var e1 := Act(e, BeginClose(s));
            && CanAct(e1, FinishClose(s))
            && var e2 := Act(e1, FinishClose(s));
               && e2.subs[s].st == r.st && e2.counter == e.counter + 1
               && (r.sent.Some? ==> e2.sent == e.sent + [TransportMessage(e.counter, Msg(s, r.sent.value), e.cid)]
                                    && e2.burnt == e.burnt)
               && (r.sent.None? ==> e2.sent == e.sent && e2.burnt == e.burnt + {e.counter})
  {
  }

  /** Undisturbed, the two halves of opening a substream are one
      `new_outbound_substream`, and answering a request is one iteration of `poll`. */
  lemma OpenIsTwoSteps(e: End, remote: Recipient, s: SubstreamId)
    requires CanAct(e, BeginOpen(s)) && s !in e.mux.txs && e.counter < U64_MAX
    ensures var c := ConnState(e.cid, remote, e.mux, e.counter, [], true);
            var c' := OpenOutbound(c, s).0;
            var e' := Act(Act(e, BeginOpen(s)), FinishOpen);
            && e'.mux == c'.mux && e'.counter == c'.nonce
            && c'.sent == [OutboundMessage(Transport(e'.sent[|e.sent|]), remote)]
  {
  }

  lemma AnswerIsTwoSteps(e: End, remote: Recipient)
    requires CanAct(e, Process) && e.counter < U64_MAX
    requires Out(e)[|e.taken|].messageType.OpenRequest? && Out(e)[|e.taken|].substreamId !in e.mux.txs
    ensures var c := ConnState(e.cid, remote, e.mux, e.counter, [], true);
            var c' := PollOne(c, Out(e)[|e.taken|]).0;
            var e1 := Act(e, Process);
            && CanAct(e1, FinishAnswer)
            && var e' := Act(e1, FinishAnswer);
               && e'.mux == c'.mux && e'.counter == c'.nonce
               && c'.sent == [OutboundMessage(Transport(e'.sent[|e.sent|]), remote)]
  {
  }

  /** Taking any other message is one iteration of `poll` as well; it sends nothing. */
  lemma ProcessIsOneIteration(e: End, remote: Recipient)
    requires CanAct(e, Process) && e.counter <= U64_MAX && !Out(e)[|e.taken|].messageType.OpenRequest?
    ensures var c := ConnState(e.cid, remote, e.mux, e.counter, [], true);
            var (c', o) := PollOne(c, Out(e)[|e.taken|]);
            var e' := Act(e, Process);
            && e'.mux == c'.mux && e'.counter == c'.nonce && e'.sent == e.sent && c'.sent == []
            && e'.trouble == if o == Continue then None else Some(MuxTrouble(o))
  {
  }
}
