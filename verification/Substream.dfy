/** One end of a substream (src/substream.rs) as a value: its operations and what they
    guarantee over every sequence of calls. */
module SubstreamSpec {
  import opened Base
  import opened Messages

  type Chunk = seq<byte>

  /** Chunks waiting in the inbound channel, the one-shot close signal, the `closed`
      flag, and bytes received but not yet read. */
  datatype SubState = SubState(rx: seq<Chunk>, signal: bool, closed: bool, unread: seq<byte>)

  const NEW_SUBSTREAM := SubState([], false, false, [])

  datatype IoResult = Ready(n: nat) | Pending | StreamClosed | SendFailed

  function Concat(cs: seq<Chunk>): seq<byte> {
    if cs == [] then [] else cs[0] + Concat(cs[1..])
  }

  lemma {:induction false} ConcatAppend(cs: seq<Chunk>, ds: seq<Chunk>)
    ensures Concat(cs + ds) == Concat(cs) + Concat(ds)
  {
    if cs == [] {
      assert cs + ds == ds;
    } else {
      ConcatAppend(cs[1..], ds);
      assert (cs + ds)[0] == cs[0] && (cs + ds)[1..] == cs[1..] + ds;
      PlusAssoc(cs[0], Concat(cs[1..]), Concat(ds));
    }
  }

  lemma PlusAssoc(a: seq<byte>, b: seq<byte>, c: seq<byte>)
    ensures a + (b + c) == a + b + c
  {
  }

  // ---------------------------------------------------------------- operations

  /** `check_closed`: consume the signal, set the flag, report whether the end is open. */
  function CheckClosed(st: SubState): (r: (SubState, bool)) {
    var closed := st.closed || st.signal;
    (st.(signal := false, closed := closed), !closed)
  }

  datatype ReadResult = ReadResult(st: SubState, buf: seq<byte>, placed: nat, result: IoResult)

  /** `poll_read`: `placed` counts the bytes put into `buf`, `result` is what is reported. */
  function PollRead(st: SubState, buf: seq<byte>): ReadResult {
    var (s, ok) := CheckClosed(st);
    if ok then Fill(s, buf) else ReadResult(s, buf, 0, StreamClosed)
  }

  /** The read proper: left-over bytes first, then one waiting chunk. */
  function Fill(s: SubState, buf: seq<byte>): ReadResult {
    var filled := Min(|s.unread|, |buf|);
    var buf1 := s.unread[..filled] + buf[filled..];
    var rest := s.unread[filled..];
    if s.rx == [] then
      ReadResult(s.(unread := rest), buf1, filled, if filled > 0 then Ready(filled) else Pending)
    else
      var data := s.rx[0];
      if filled == |buf| then
        ReadResult(s.(rx := s.rx[1..], unread := rest + data), buf1, filled, Ready(filled))
      else
        var copied := Min(|buf| - filled, |data|);
        ReadResult(
          s.(rx := s.rx[1..], unread := rest + data[copied..]),
          buf1[..filled] + data[..copied] + buf1[filled + copied..],
          filled + copied,
          Ready(copied))
  }

  /** What a sending call does: the new state, whether it took a nonce, what it sent. */
  datatype SendResult = SendResult(st: SubState, tookNonce: bool, sent: Option<SubstreamMessageType>, result: IoResult)

  function PollWrite(st: SubState, buf: seq<byte>, open: bool): SendResult {
    var (s, ok) := CheckClosed(st);
    if !ok then SendResult(s, false, None, StreamClosed)
    else if open then SendResult(s, true, Some(Data(buf)), Ready(|buf|))
    else SendResult(s, true, None, SendFailed)
  }

  /** `poll_close` takes its nonce before it looks at the flag. */
  function PollClose(st: SubState, open: bool): SendResult {
    if st.closed then SendResult(st, true, None, StreamClosed)
    else if open then SendResult(st.(closed := true), true, Some(Close), Ready(0))
    else SendResult(st.(closed := true), true, None, SendFailed)
  }

  // ---------------------------------------------------------------- reading

  /** Nothing is lost between the buffer, what is kept back and what still waits. */
  ghost predicate Conserves(st: SubState, buf: seq<byte>, r: ReadResult) {
    && |r.buf| == |buf| && r.placed <= |buf|
    && r.buf[..r.placed] + r.st.unread + Concat(r.st.rx) == st.unread + Concat(st.rx)
    && r.buf[r.placed..] == buf[r.placed..]
  }

  /** No byte is lost, repeated or reordered by a read: what it placed, then what it kept
      back, then what still waits, is what was there before. */
  lemma ReadConserves(st: SubState, buf: seq<byte>)
    ensures Conserves(st, buf, PollRead(st, buf))
  {
    if st.closed || st.signal {
      assert buf[..0] + st.unread == st.unread;
    } else if st.rx == [] || |st.unread| >= |buf| {
      LeftOverConserves(CheckClosed(st).0, buf);
    } else {
      ChunkConserves(CheckClosed(st).0, buf);
    }
  }

  lemma LeftOverConserves(s: SubState, buf: seq<byte>)
    requires s.rx == [] || |s.unread| >= |buf|
    ensures Conserves(s, buf, Fill(s, buf))
  {
    var filled := Min(|s.unread|, |buf|);
    Split(s.unread, filled);
    assert Fill(s, buf).buf[..filled] == s.unread[..filled];
    if s.rx != [] {
      Assoc(s.unread[..filled], s.unread[filled..], s.rx[0], Concat(s.rx[1..]));
    }
  }

  lemma ChunkConserves(s: SubState, buf: seq<byte>)
    requires s.rx != [] && |s.unread| < |buf|
    ensures Conserves(s, buf, Fill(s, buf))
  {
    var data := s.rx[0];
    var copied := Min(|buf| - |s.unread|, |data|);
    ChunkFill(s, buf);
    Ends(s.unread + data[..copied], buf[|s.unread| + copied..]);
    Split(data, copied);
    Assoc(s.unread, data[..copied], data[copied..], Concat(s.rx[1..]));
  }

  lemma ChunkFill(s: SubState, buf: seq<byte>)
    requires s.rx != [] && |s.unread| < |buf|
    ensures var n, data, r := |s.unread|, s.rx[0], Fill(s, buf);
            var copied := Min(|buf| - n, |data|);
            && r.placed == n + copied
            && r.buf == s.unread + data[..copied] + buf[n + copied..]
            && r.st == s.(rx := s.rx[1..], unread := data[copied..])
  {
    var n := |s.unread|;
    var buf1 := s.unread[..n] + buf[n..];
    assert s.unread[..n] == s.unread && s.unread[n..] == [];
    assert buf1[..n] == s.unread;
    var copied := Min(|buf| - n, |s.rx[0]|);
    assert buf1[n + copied..] == buf[n + copied..];
  }

  lemma Ends(a: seq<byte>, b: seq<byte>)
    ensures (a + b)[..|a|] == a && (a + b)[|a|..] == b
  {
  }

  lemma Split(s: seq<byte>, n: nat)
    requires n <= |s|
    ensures s == s[..n] + s[n..]
  {
  }

  lemma Assoc(a: seq<byte>, b: seq<byte>, c: seq<byte>, d: seq<byte>)
    ensures a + (b + c) + d == (a + b) + (c + d)
    ensures a + ((b + c) + d) == (a + b) + c + d == (a + b) + (c + d)
  {
  }

  /** The reported count is the number of bytes placed except in exactly one case: bytes
      were left over, fewer than the buffer holds, and a chunk was ready. The count then
      leaves the left-over bytes out. */
  lemma ReportedCountIff(st: SubState, buf: seq<byte>)
    requires PollRead(st, buf).result.Ready?
    ensures var r := PollRead(st, buf);
            && (r.result.n == r.placed <==> !(0 < |st.unread| < |buf| && st.rx != []))
            && (r.result.n != r.placed ==> r.result.n + |st.unread| == r.placed)
  {
  }

  /** What a read reports, for every state and buffer: an error if and only if the end is
      closed or signalled; `Pending` if and only if it is open, no chunk is ready and there
      is nothing left over or no room; otherwise a count. */
  lemma ReadResultIff(st: SubState, buf: seq<byte>)
    ensures var r := PollRead(st, buf).result;
            && (r == StreamClosed <==> st.closed || st.signal)
            && (r == Pending <==> !st.closed && !st.signal && st.rx == [] && (st.unread == [] || buf == []))
            && (r.Ready? <==> !st.closed && !st.signal && (st.rx != [] || (st.unread != [] && buf != [])))
  {
  }

  /** A read that has room for a byte reports the end of the stream, a count of 0, only
      for a ready empty chunk; never because nothing has arrived. */
  lemma ReportsZeroIff(st: SubState, buf: seq<byte>)
    ensures PollRead(st, buf).result == Ready(0) <==>
            && !st.closed && !st.signal && st.rx != []
            && (buf == [] || (st.rx[0] == [] && |st.unread| < |buf|))
  {
  }

  /** An open read takes at most one chunk off the channel and fills the buffer as far as
      the left-over bytes and that chunk go; a closed one touches nothing. */
  lemma ReadFillsBuffer(st: SubState, buf: seq<byte>)
    ensures var r := PollRead(st, buf);
            if st.closed || st.signal then
              r.placed == 0 && r.buf == buf && r.st == SubState(st.rx, false, true, st.unread)
            else
              && r.placed == Min(|buf|, |st.unread| + if st.rx == [] then 0 else |st.rx[0]|)
              && r.st.rx == (if st.rx == [] then [] else st.rx[1..])
              && !r.st.closed && !r.st.signal
  {
  }

  /** A ready chunk meets fewer left-over bytes than the buffer holds. */
  predicate Short(st: SubState, buf: seq<byte>) {
    !st.closed && !st.signal && 0 < |st.unread| < |buf| && st.rx != []
  }

  lemma ReportFits(st: SubState, buf: seq<byte>)
    ensures var r := PollRead(st, buf);
            |r.buf| == |buf| && r.placed <= |buf| && (r.result.Ready? ==> r.result.n <= r.placed)
  {
  }

  /** What the caller of a read takes for its bytes: the buffer up to the reported count. */
  function Told(st: SubState, buf: seq<byte>): seq<byte> {
    ReportFits(st, buf);
    var r := PollRead(st, buf);
    if r.result.Ready? then r.buf[..r.result.n] else []
  }

  /** The caller learns of all bytes placed, unless the read is short; it then misses as
      many as were left over. */
  lemma ToldIsPlacedUnlessShort(st: SubState, buf: seq<byte>)
    ensures PollRead(st, buf).placed <= |PollRead(st, buf).buf|
    ensures var r := PollRead(st, buf);
            if Short(st, buf) then |Told(st, buf)| + |st.unread| == r.placed
            else Told(st, buf) == r.buf[..r.placed]
    ensures Told(st, buf) <= PollRead(st, buf).buf[..PollRead(st, buf).placed]
  {
  }

  /** A read places nothing exactly when it reports an error, reports `Pending`, or has
      no room or only empty chunks to work with. */
  lemma NothingPlacedIff(st: SubState, buf: seq<byte>)
    ensures var r := PollRead(st, buf);
            r.placed == 0 <==>
              st.closed || st.signal || buf == [] || (st.unread == [] && (st.rx == [] || st.rx[0] == []))
  {
  }

  // ---------------------------------------------------------------- whole runs

  datatype Op =
    | Arrive(chunk: Chunk)         // the connection routes a chunk here
    | Signal                       // the connection processed the peer's Close
    | Read(buf: seq<byte>)
    | Write(data: seq<byte>)
    | Flush
    | CloseCall
    | OthersTake(count: nat)       // other users of the shared counter take nonces

  datatype Emission = Emission(nonce: nat, body: SubstreamMessageType)

  /** A substream with its history: bytes placed in buffers and bytes its reader was told
      of, chunks routed here, the messages it sent, the nonces it took without sending, and the bytes its writer was
      told were written. */
  datatype Trace = Trace(
    st: SubState,
    counter: nat,
    placed: seq<byte>,
    told: seq<byte>,
    arrived: seq<Chunk>,
    sent: seq<Emission>,
    burnt: seq<nat>,
    accepted: seq<byte>)

  function Start(counter: nat): Trace {
    Trace(NEW_SUBSTREAM, counter, [], [], [], [], [], [])
  }

  function Record(t: Trace, r: SendResult): Trace {
    t.(st := r.st,
       counter := if r.tookNonce then t.counter + 1 else t.counter,
       sent := if r.sent.Some? then t.sent + [Emission(t.counter, r.sent.value)] else t.sent,
       burnt := if r.tookNonce && r.sent.None? then t.burnt + [t.counter] else t.burnt)
  }

  function Step(t: Trace, op: Op): Trace {
    match op
    case Arrive(c) => t.(st := t.st.(rx := t.st.rx + [c]), arrived := t.arrived + [c])
    case Signal => t.(st := t.st.(signal := true))
    case Read(buf) =>
      var r := PollRead(t.st, buf);
      ReadConserves(t.st, buf);
      t.(st := r.st, placed := t.placed + r.buf[..r.placed], told := t.told + Told(t.st, buf))
    case Write(data) =>
      var r := PollWrite(t.st, data, true);
      var written := if r.result.Ready? && r.result.n <= |data| then data[..r.result.n] else [];
      Record(t, r).(accepted := t.accepted + written)
    case Flush => t.(st := CheckClosed(t.st).0)
    case CloseCall => Record(t, PollClose(t.st, true))
    case OthersTake(k) => t.(counter := t.counter + k)
  }

  function Steps(t: Trace, ops: seq<Op>): Trace {
    if ops == [] then t else Step(Steps(t, ops[..|ops| - 1]), ops[|ops| - 1])
  }

  ghost predicate Conserved(t: Trace) {
    t.placed + t.st.unread + Concat(t.st.rx) == Concat(t.arrived)
  }

  lemma StepConserves(t: Trace, op: Op)
    requires Conserved(t)
    ensures Conserved(Step(t, op))
  {
    match op {
      case Arrive(c) =>
        ConcatAppend(t.st.rx, [c]);
        ConcatAppend(t.arrived, [c]);
        Assoc(t.placed, t.st.unread, Concat(t.st.rx), Concat([c]));
      case Read(buf) => ReadStepConserves(t, buf);
      case _ =>
    }
  }

  lemma ReadStepConserves(t: Trace, buf: seq<byte>)
    requires Conserved(t)
    ensures Conserved(Step(t, Read(buf)))
  {
    ReadConserves(t.st, buf);
    var r := PollRead(t.st, buf);
    Assoc(t.placed, r.buf[..r.placed], r.st.unread, Concat(r.st.rx));
    Assoc(t.placed, [], t.st.unread, Concat(t.st.rx));
  }

  /** Read conservation over any sequence of calls, buffer sizes and arrivals. */
  lemma {:induction false} StreamConservation(counter: nat, ops: seq<Op>)
    ensures var t := Steps(Start(counter), ops);
            t.placed + t.st.unread + Concat(t.st.rx) == Concat(t.arrived)
  {
    if ops != [] {
      StreamConservation(counter, ops[..|ops| - 1]);
      StepConserves(Steps(Start(counter), ops[..|ops| - 1]), ops[|ops| - 1]);
    }
  }

  /** Some read of the history was short. */
  ghost predicate ReadShort(counter: nat, ops: seq<Op>) {
    exists i: nat :: ShortAt(counter, ops, i)
  }

  ghost predicate ShortAt(counter: nat, ops: seq<Op>, i: nat) {
    i < |ops| && ops[i].Read? && Short(Steps(Start(counter), ops[..i]).st, ops[i].buf)
  }

  lemma ReadShortGrows(counter: nat, p: seq<Op>, op: Op)
    ensures ReadShort(counter, p + [op]) <==>
            ReadShort(counter, p) || (op.Read? && Short(Steps(Start(counter), p).st, op.buf))
  {
    var ops := p + [op];
    assert ops[..|p|] == p;
    forall i: nat | i < |p| ensures ShortAt(counter, ops, i) <==> ShortAt(counter, p, i) {
      assert ops[..i] == p[..i];
    }
    if i: nat :| ShortAt(counter, p, i) { assert ShortAt(counter, ops, i); }
    if op.Read? && Short(Steps(Start(counter), p).st, op.buf) { assert ShortAt(counter, ops, |p|); }
    if i: nat :| ShortAt(counter, ops, i) && i < |p| { assert ShortAt(counter, p, i); }
  }

  /** The exact limit of what a reader can rely on, over any history: the bytes it was
      told of are the bytes placed in its buffers if and only if no read was short, and
      strictly fewer otherwise. */
  lemma {:induction false} ToldIff(counter: nat, ops: seq<Op>)
    ensures var t := Steps(Start(counter), ops);
            && (t.told == t.placed <==> !ReadShort(counter, ops))
            && (ReadShort(counter, ops) ==> |t.told| < |t.placed|)
  {
    if ops != [] {
      var p, op := ops[..|ops| - 1], ops[|ops| - 1];
      ToldIff(counter, p);
      assert ops == p + [op];
      ReadShortGrows(counter, p, op);
      var t := Steps(Start(counter), p);
      if op.Read? {
        ToldIsPlacedUnlessShort(t.st, op.buf);
      }
    }
  }

  /** A failing history: two chunks, a one-byte read, then a read that has room to spare.
      Three bytes were placed, but the reader was told of two. */
  lemma ShortReadHistory(counter: nat, x: byte, y: byte, z: byte, a: byte)
    ensures var t := Steps(Start(counter), [Arrive([x, y]), Arrive([z]), Read([a]), Read([a, a, a])]);
            t.placed == [x, y, z] && t.told == [x, y]
  {
    var ops := [Arrive([x, y]), Arrive([z]), Read([a]), Read([a, a, a])];
    var t1 := Step(Start(counter), ops[0]);
    var t2 := Step(t1, ops[1]);
    var t3 := Step(t2, ops[2]);
    assert ops[..3][..2] == ops[..2] && ops[..3][..1] == ops[..2][..1] == ops[..1] && ops[..1][..0] == [];
    assert Steps(Start(counter), ops[..1]) == t1;
    assert ops[..2] == ops[..1] + [ops[1]] && Steps(Start(counter), ops[..2]) == t2;
    assert Steps(Start(counter), ops[..3]) == t3;
    assert t2.st == SubState([[x, y], [z]], false, false, []) && t2.placed == t2.told == [];
    FirstRead(t2, x, y, z, a);
    SecondRead(t3, x, y, z, a);
  }

  lemma FirstRead(t: Trace, x: byte, y: byte, z: byte, a: byte)
    requires t.st == SubState([[x, y], [z]], false, false, []) && t.placed == t.told == []
    ensures var t' := Step(t, Read([a]));
            t'.st == SubState([[z]], false, false, [y]) && t'.placed == t'.told == [x]
  {
    var r := PollRead(t.st, [a]);
    assert r.buf == [x] && r.placed == 1 && r.result == Ready(1);
    assert r.buf[..1] == [x];
  }

  lemma SecondRead(t: Trace, x: byte, y: byte, z: byte, a: byte)
    requires t.st == SubState([[z]], false, false, [y]) && t.placed == t.told == [x]
    ensures var t' := Step(t, Read([a, a, a]));
            t'.placed == [x, y, z] && t'.told == [x, y]
  {
    var r := PollRead(t.st, [a, a, a]);
    assert r.buf == [y, z, a] && r.placed == 2 && r.result == Ready(1);
    assert r.buf[..2] == [y, z] && r.buf[..1] == [y];
  }

  // ---------------------------------------------------------------- reading everything

  /** Bytes and chunks not yet placed in a buffer. */
  function Remaining(st: SubState): nat {
    |st.unread| + |Concat(st.rx)| + |st.rx|
  }

  lemma ReadMakesProgress(st: SubState, buf: seq<byte>)
    requires !st.closed && !st.signal && buf != []
    ensures var r := PollRead(st, buf);
            && !r.st.closed && !r.st.signal
            && (Remaining(st) > 0 ==> Remaining(r.st) < Remaining(st))
            && (Remaining(st) == 0 ==> Remaining(r.st) == 0)
  {
    ReadConserves(st, buf);
    NothingPlacedIff(st, buf);
    var r := PollRead(st, buf);
    assert |r.buf[..r.placed]| + |r.st.unread| + |Concat(r.st.rx)| == |st.unread| + |Concat(st.rx)|;
  }

  /** While neither the peer's Close was processed nor this end was closed, reading does
      reach every byte: any sequence of as many reads as there are bytes and chunks left,
      into buffers of any size but zero, places all that arrived, in order. */
  lemma {:induction false} ReadingPlacesEverything(t: Trace, rs: seq<Op>)
    requires Conserved(t) && !t.st.closed && !t.st.signal
    requires forall i | 0 <= i < |rs| :: rs[i].Read? && rs[i].buf != []
    ensures var t' := Steps(t, rs);
            && Conserved(t') && t'.arrived == t.arrived && !t'.st.closed && !t'.st.signal
            && (Remaining(t'.st) == 0 || Remaining(t'.st) + |rs| <= Remaining(t.st))
            && (|rs| >= Remaining(t.st) ==> t'.placed == Concat(t.arrived))
  {
    if rs != [] {
      var p := rs[..|rs| - 1];
      ReadingPlacesEverything(t, p);
      ReadMakesProgress(Steps(t, p).st, rs[|rs| - 1].buf);
      StepConserves(Steps(t, p), rs[|rs| - 1]);
    }
  }

  // ---------------------------------------------------------------- closing

  /** Nonces were taken in increasing order, and a Close, if any, came last. */
  ghost predicate WellEmitted(t: Trace) {
    && (forall i, j | 0 <= i < j < |t.sent| :: t.sent[i].nonce < t.sent[j].nonce)
    && (forall i | 0 <= i < |t.sent| :: t.sent[i].nonce < t.counter)
    && (forall i | 0 <= i < |t.sent| :: t.sent[i].body.Close? ==> i == |t.sent| - 1 && t.st.closed)
    && (forall i | 0 <= i < |t.sent| :: t.sent[i].body.Close? || t.sent[i].body.Data?)
    && (t.burnt != [] ==> t.st.closed)
  }

  lemma {:induction false} EmissionsOrdered(counter: nat, ops: seq<Op>)
    ensures WellEmitted(Steps(Start(counter), ops))
  {
    if ops != [] {
      EmissionsOrdered(counter, ops[..|ops| - 1]);
      StepKeepsEmissions(Steps(Start(counter), ops[..|ops| - 1]), ops[|ops| - 1]);
    }
  }

  lemma StepKeepsEmissions(t: Trace, op: Op)
    requires WellEmitted(t)
    ensures WellEmitted(Step(t, op))
  {
    match op {
      case Write(data) => RecordKeepsEmissions(t, PollWrite(t.st, data, true));
      case CloseCall => RecordKeepsEmissions(t, PollClose(t.st, true));
      case _ =>
    }
  }

  lemma RecordKeepsEmissions(t: Trace, r: SendResult)
    requires WellEmitted(t)
    requires t.st.closed ==> r.st.closed && r.sent.None?
    requires r.sent.Some? ==> r.tookNonce && (r.sent.value.Data? || (r.sent.value.Close? && r.st.closed))
    requires r.tookNonce && r.sent.None? ==> r.st.closed
    ensures WellEmitted(Record(t, r))
  {
  }

  /** Close finality. Once the flag is set it stays set, and whatever is called next,
      this end sends nothing more and hands no further byte to the reader; all a later
      close call does is burn one nonce. */
  lemma {:induction false} CloseIsFinal(t: Trace, ops: seq<Op>)
    requires t.st.closed
    ensures var t' := Steps(t, ops);
            && t'.st.closed && t'.sent == t.sent && t'.placed == t.placed
            && |t'.burnt| == |t.burnt| + CloseCalls(ops)
  {
    if ops != [] {
      CloseIsFinal(t, ops[..|ops| - 1]);
    }
  }

  function CloseCalls(ops: seq<Op>): nat {
    if ops == [] then 0
    else CloseCalls(ops[..|ops| - 1]) + if ops[|ops| - 1].CloseCall? then 1 else 0
  }

  /** Calls that look for the peer's close signal. */
  predicate Checks(op: Op) {
    op.Read? || op.Write? || op.Flush?
  }

  /** The history by which an end is closed: it called close, or it looked after the
      peer's Close had been processed. */
  ghost predicate ClosedBy(ops: seq<Op>, i: nat) {
    i < |ops| && (ops[i].CloseCall? || (Checks(ops[i]) && Signal in ops[..i]))
  }

  lemma ClosedByGrows(p: seq<Op>, op: Op)
    ensures (exists i: nat :: ClosedBy(p + [op], i)) <==>
            (exists i: nat :: ClosedBy(p, i)) || op.CloseCall? || (Checks(op) && Signal in p)
  {
    var ops := p + [op];
    forall i: nat | i < |p| ensures ClosedBy(ops, i) <==> ClosedBy(p, i) {
      assert ops[..i] == p[..i];
    }
    assert ops[..|p|] == p;
    assert ClosedBy(ops, |p|) <==> op.CloseCall? || (Checks(op) && Signal in p);
    if i: nat :| ClosedBy(p, i) { assert ClosedBy(ops, i); }
    if i: nat :| ClosedBy(ops, i) && i < |p| { assert ClosedBy(p, i); }
  }

  lemma StepCloses(t: Trace, op: Op)
    ensures Step(t, op).st.closed <==> t.st.closed || op.CloseCall? || (Checks(op) && t.st.signal)
    ensures Step(t, op).st.closed || Step(t, op).st.signal <==>
            t.st.closed || t.st.signal || op.CloseCall? || op.Signal?
  {
  }

  lemma {:induction false} ClosedIff(counter: nat, ops: seq<Op>)
    ensures var st := Steps(Start(counter), ops).st;
            && (st.closed <==> exists i: nat :: ClosedBy(ops, i))
            && (st.closed || st.signal <==> CloseCall in ops || Signal in ops)
  {
    if ops != [] {
      var p, op := ops[..|ops| - 1], ops[|ops| - 1];
      ClosedIff(counter, p);
      assert ops == p + [op];
      ClosedByGrows(p, op);
      StepCloses(Steps(Start(counter), p), op);
      if CloseCall in p {
        var i :| 0 <= i < |p| && p[i] == CloseCall;
        assert ClosedBy(p, i);
      }
    }
  }

  /** The exact limit of "every nonce taken is sent": after any history, a close call
      burns its nonce if and only if this end called close before, or looked at the
      stream after the peer's Close had been processed. */
  lemma CloseBurnsIff(counter: nat, ops: seq<Op>)
    ensures var t := Steps(Start(counter), ops);
            Step(t, CloseCall).burnt == t.burnt + [t.counter] <==> exists i: nat :: ClosedBy(ops, i)
    ensures var t := Steps(Start(counter), ops);
            Step(t, CloseCall).sent == t.sent + [Emission(t.counter, Close)] <==> !exists i: nat :: ClosedBy(ops, i)
  {
    ClosedIff(counter, ops);
    var t := Steps(Start(counter), ops);
    assert |t.sent + [Emission(t.counter, Close)]| != |t.sent| && |t.burnt + [t.counter]| != |t.burnt|;
  }

  /** Who hears of it: a write is refused if and only if this end called close or the
      peer's Close was processed; otherwise all its bytes are reported written. */
  lemma WriteRefusedIff(counter: nat, ops: seq<Op>, data: seq<byte>)
    ensures var r := PollWrite(Steps(Start(counter), ops).st, data, true);
            && (r.result == StreamClosed <==> CloseCall in ops || Signal in ops)
            && (r.result != StreamClosed ==> r.result == Ready(|data|) && r.sent == Some(Data(data)))
            && (r.result == StreamClosed ==> !r.tookNonce && r.sent == None)
  {
    ClosedIff(counter, ops);
  }

  /** A close call is refused if and only if it burns its nonce. */
  lemma CloseRefusedIff(counter: nat, ops: seq<Op>)
    ensures var r := PollClose(Steps(Start(counter), ops).st, true);
            && r.tookNonce && r.st.closed
            && (r.result == StreamClosed <==> exists i: nat :: ClosedBy(ops, i))
            && (r.result == StreamClosed <==> r.sent == None)
            && (r.result != StreamClosed ==> r.result == Ready(0) && r.sent == Some(Close))
  {
    ClosedIff(counter, ops);
  }

  /** With the mixnet channel gone, an open end takes its nonce all the same, sends
      nothing and says so; a close still closes. */
  lemma SendFailsIff(st: SubState, data: seq<byte>)
    ensures var w := PollWrite(st, data, false);
            && (w.result == SendFailed <==> !st.closed && !st.signal)
            && (w.tookNonce <==> w.result == SendFailed) && w.sent == None
    ensures var c := PollClose(st, false);
            && (c.result == SendFailed <==> !st.closed)
            && c.tookNonce && c.sent == None && c.st.closed
  {
  }

  function TakenByOthers(ops: seq<Op>): nat {
    if ops == [] then 0
    else TakenByOthers(ops[..|ops| - 1]) + if ops[|ops| - 1].OthersTake? then ops[|ops| - 1].count else 0
  }

  /** Every nonce this end takes is either sent or burnt, one per call. */
  lemma {:induction false} NoncesAddUp(counter: nat, ops: seq<Op>)
    ensures var t := Steps(Start(counter), ops);
            t.counter == counter + |t.sent| + |t.burnt| + TakenByOthers(ops)
  {
    if ops != [] {
      NoncesAddUp(counter, ops[..|ops| - 1]);
    }
  }

  /** The bytes of the Data messages sent, in order. */
  function DataBytes(sent: seq<Emission>): seq<byte> {
    if sent == [] then []
    else DataBytes(sent[..|sent| - 1]) + BodyBytes(sent[|sent| - 1].body)
  }

  function BodyBytes(body: SubstreamMessageType): seq<byte> {
    if body.Data? then body.data else []
  }

  /** Write conservation over any sequence of calls: what the writer was told was written
      is what was put on the wire, byte for byte, in order. */
  lemma {:induction false} WritesAreSent(counter: nat, ops: seq<Op>)
    ensures var t := Steps(Start(counter), ops);
            t.accepted == DataBytes(t.sent)
  {
    if ops != [] {
      WritesAreSent(counter, ops[..|ops| - 1]);
      StepSends(Steps(Start(counter), ops[..|ops| - 1]), ops[|ops| - 1]);
    }
  }

  lemma StepSends(t: Trace, op: Op)
    requires t.accepted == DataBytes(t.sent)
    ensures Step(t, op).accepted == DataBytes(Step(t, op).sent)
  {
    match op {
      case Write(data) => WriteSends(t, data);
      case CloseCall => DataBytesAppend(t.sent, Emission(t.counter, Close));
      case _ => OthersSendNothing(t, op);
    }
  }

  lemma WriteSends(t: Trace, data: seq<byte>)
    requires t.accepted == DataBytes(t.sent)
    ensures Step(t, Write(data)).accepted == DataBytes(Step(t, Write(data)).sent)
  {
    DataBytesAppend(t.sent, Emission(t.counter, Data(data)));
    assert data[..|data|] == data;
  }

  lemma OthersSendNothing(t: Trace, op: Op)
    requires !op.Write? && !op.CloseCall?
    ensures Step(t, op).accepted == t.accepted && Step(t, op).sent == t.sent
  {
  }

  lemma DataBytesAppend(sent: seq<Emission>, m: Emission)
    ensures DataBytes(sent + [m]) == DataBytes(sent) + BodyBytes(m.body)
  {
    assert (sent + [m])[..|sent|] == sent;
  }

  /** So the single Close an end sends carries the largest nonce it ever sends there. */
  lemma CloseCarriesLargestNonce(counter: nat, ops: seq<Op>, more: seq<Op>, i: nat)
    requires i < |Steps(Start(counter), ops).sent|
    requires Steps(Start(counter), ops).sent[i].body.Close?
    ensures var all := Steps(Steps(Start(counter), ops), more).sent;
            && all == Steps(Start(counter), ops).sent && i == |all| - 1
            && forall j | 0 <= j < |all| && j != i :: all[j].nonce < all[i].nonce && all[j].body.Data?
  {
    EmissionsOrdered(counter, ops);
    CloseIsFinal(Steps(Start(counter), ops), more);
  }

  /** The peer's Close also cuts reading off: bytes that arrived but were not read when
      the signal comes in are never handed out, whatever is called next. */
  lemma {:induction false} SignalStopsReading(t: Trace, ops: seq<Op>)
    requires t.st.signal || t.st.closed
    ensures var t' := Steps(t, ops);
            (t'.st.signal || t'.st.closed) && t'.placed == t.placed
  {
    if ops != [] {
      SignalStopsReading(t, ops[..|ops| - 1]);
    }
  }

  ghost predicate Reads(rs: seq<Op>) {
    forall i | 0 <= i < |rs| :: rs[i].Read?
  }

  /** Exactly when bytes are lost to the reader: no reading whatever hands out all that
      arrived if and only if this end is closed, or the peer's Close was processed, while
      bytes are left. */
  lemma ReadableIff(t: Trace)
    requires Conserved(t)
    ensures (exists rs | Reads(rs) :: Steps(t, rs).placed == Concat(t.arrived)) <==>
            (!t.st.signal && !t.st.closed) || (t.st.unread == [] && Concat(t.st.rx) == [])
  {
    assert t.placed + t.st.unread + Concat(t.st.rx) == Concat(t.arrived);
    if !t.st.signal && !t.st.closed {
      var rs := seq(Remaining(t.st), i => Read([0]));
      ReadingPlacesEverything(t, rs);
      assert Reads(rs);
    } else {
      forall rs | Reads(rs) ensures Steps(t, rs).placed == t.placed {
        SignalStopsReading(t, rs);
      }
      assert Reads([]);
      assert t.placed == Concat(t.arrived) ==> |t.st.unread| == 0 && |Concat(t.st.rx)| == 0;
    }
  }
}

/** The mutable substream object, verified against `SubstreamSpec`. */
module Substream {
  import opened Base
  import opened Messages
  import opened SubstreamSpec
  import opened Channels

  class Substream {
    const remoteRecipient: Recipient
    const connectionId: ConnectionId
    const substreamId: SubstreamId
    const outboundTx: Outbox
    const messageNonce: AtomicU64
    var inboundRx: seq<Chunk>
    var closeSignal: bool
    var closed: bool
    var unreadData: seq<byte>

    ghost function State(): SubState
      reads this
    {
      SubState(inboundRx, closeSignal, closed, unreadData)
    }

    constructor (remote: Recipient, connection: ConnectionId, id: SubstreamId, outbox: Outbox, nonce: AtomicU64)
      ensures State() == NEW_SUBSTREAM
      ensures substreamId == id && connectionId == connection && remoteRecipient == remote
      ensures outboundTx == outbox && messageNonce == nonce
    {
      remoteRecipient, connectionId, substreamId := remote, connection, id;
      outboundTx, messageNonce := outbox, nonce;
      inboundRx, closeSignal, closed, unreadData := [], false, false, [];
    }

    method CheckIfClosed() returns (open: bool)
      modifies this
      ensures (State(), open) == CheckClosed(old(State()))
    {
      var received := closeSignal;
      closeSignal := false;
      if closed {
        return false;
      }
      if received {
        closed := true;
        return false;
      }
      return true;
    }

    /** First, hand out what an earlier read kept back. */
    method TakeUnread(buf: array<byte>) returns (filled: nat)
      modifies this`unreadData, buf
      ensures filled == Min(|old(unreadData)|, buf.Length)
      ensures unreadData == old(unreadData)[filled..]
      ensures buf[..] == old(unreadData)[..filled] + old(buf[..])[filled..]
    {
      filled := 0;
      if |unreadData| > 0 {
        filled := Min(|unreadData|, buf.Length);
        CopyInto(buf, 0, unreadData[..filled]);
        unreadData := unreadData[filled..];
      }
    }

    /** Then fill the rest of the buffer from the chunk and keep what does not fit. */
    method TakeChunk(buf: array<byte>, filled: nat, data: Chunk) returns (copied: nat)
      requires filled < buf.Length
      modifies this`unreadData, buf
      ensures copied == Min(buf.Length - filled, |data|)
      ensures unreadData == old(unreadData) + data[copied..]
      ensures buf[..] == old(buf[..])[..filled] + data[..copied] + old(buf[..])[filled + copied..]
    {
      var remaining := buf.Length - filled;
      if remaining < |data| {
        unreadData := unreadData + data[remaining..];
      }
      copied := Min(remaining, |data|);
      CopyInto(buf, filled, data[..copied]);
    }

    method FillBuffer(buf: array<byte>) returns (result: IoResult)
      modifies this`inboundRx, this`unreadData, buf
      ensures var r := Fill(old(State()), old(buf[..]));
              State() == r.st && buf[..] == r.buf && result == r.result
    {
      var inbound := inboundRx;
      if inboundRx != [] {
        inboundRx := inboundRx[1..];
      }
      var filled := TakeUnread(buf);
      if inbound != [] {
        if filled == buf.Length {
          unreadData := unreadData + inbound[0];
          return Ready(filled);
        }
        var copied := TakeChunk(buf, filled, inbound[0]);
        return Ready(copied);
      }
      result := if filled > 0 then Ready(filled) else Pending;
    }

    /** Reads into the caller's buffer in place. */
    method Read(buf: array<byte>) returns (result: IoResult)
      modifies this, buf
      ensures var r := PollRead(old(State()), old(buf[..]));
              State() == r.st && buf[..] == r.buf && result == r.result
    {
      var open := CheckIfClosed();
      if open {
        result := FillBuffer(buf);
      } else {
        result := StreamClosed;
      }
    }

    method Write(buf: seq<byte>) returns (result: IoResult)
      modifies this, messageNonce, outboundTx
      ensures var r := PollWrite(old(State()), buf, old(outboundTx.open));
              && State() == r.st && result == r.result
              && outboundTx.open == old(outboundTx.open)
              && (r.tookNonce ==> messageNonce.value == WrappingSucc(old(messageNonce.value)))
              && (!r.tookNonce ==> messageNonce.value == old(messageNonce.value))
              && (r.sent.None? ==> outboundTx.sent == old(outboundTx.sent))
              && (r.sent.Some? ==>
                    outboundTx.sent == old(outboundTx.sent) + [
                      OutboundMessage(
                        Transport(TransportMessage(
                          old(messageNonce.value), SubstreamMessage(substreamId, Data(buf)), connectionId)),
                        remoteRecipient)])
    {
      var open := CheckIfClosed();
      if !open {
        return StreamClosed;
      }
      var nonce := messageNonce.FetchAdd();
      var m := SubstreamMessage(substreamId, Data(buf));
      var sent := outboundTx.Send(OutboundMessage(Transport(TransportMessage(nonce, m, connectionId)), remoteRecipient));
      result := if sent then Ready(|buf|) else SendFailed;
    }

    method FlushAll() returns (result: IoResult)
      modifies this
      ensures State() == CheckClosed(old(State())).0
      ensures result == if CheckClosed(old(State())).1 then Ready(0) else StreamClosed
    {
      var open := CheckIfClosed();
      result := if open then Ready(0) else StreamClosed;
    }

    /** Takes a nonce whether or not anything is left to close. */
    method CloseStream() returns (result: IoResult)
      modifies this, messageNonce, outboundTx
      ensures var r := PollClose(old(State()), old(outboundTx.open));
              && State() == r.st && result == r.result && r.tookNonce
              && messageNonce.value == WrappingSucc(old(messageNonce.value))
              && outboundTx.open == old(outboundTx.open)
              && (r.sent.None? ==> outboundTx.sent == old(outboundTx.sent))
              && (r.sent.Some? ==>
                    outboundTx.sent == old(outboundTx.sent) + [
                      OutboundMessage(
                        Transport(TransportMessage(
                          old(messageNonce.value), SubstreamMessage(substreamId, Close), connectionId)),
                        remoteRecipient)])
    {
      var nonce := messageNonce.FetchAdd();
      if closed {
        return StreamClosed;
      }
      closed := true;
      var m := SubstreamMessage(substreamId, Close);
      var sent := outboundTx.Send(OutboundMessage(Transport(TransportMessage(nonce, m, connectionId)), remoteRecipient));
      result := if sent then Ready(0) else SendFailed;
    }
  }

  /** `copy_from_slice` at an offset. */
  method CopyInto(buf: array<byte>, at: nat, src: seq<byte>)
    requires at + |src| <= buf.Length
    modifies buf
    ensures buf[..] == old(buf[..])[..at] + src + old(buf[..])[at + |src|..]
  {
    for i := 0 to |src|
      invariant forall k | 0 <= k < buf.Length ::
                  buf[k] == if at <= k < at + i then src[k - at] else old(buf[k])
    {
      buf[at + i] := src[i];
    }
  }
}
