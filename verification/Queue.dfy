/** The reordering buffer of src/queue.rs.

    `QueueState` is the value a queue stands for: the next expected nonce and a map
    from each waiting nonce to its message. `MessageQueue` is the mutable object, whose
    `BTreeSet` is a sequence kept strictly sorted under the nonce-only order of
    `TransportMessage`. */
module Queue {
  import opened Base
  import opened Messages

  datatype QueueState = QueueState(next: u64, buf: map<u64, TransportMessage>)

  const FRESH := QueueState(0, map[])

  /** The least waiting nonce is the expected one. */
  predicate HeadReady(q: QueueState) {
    q.next in q.buf && forall n | n in q.buf :: q.next <= n
  }

  /** The documented invariant: everything waiting lies beyond the expected nonce. */
  predicate Strict(q: QueueState) {
    forall n | n in q.buf :: q.next < n
  }

  /** What `try_push` alone keeps. */
  predicate Weak(q: QueueState) {
    forall n | n in q.buf :: q.next <= n
  }

  /** `try_push`: hand the expected message back, ignore old nonces, keep the first
      message of every later nonce. */
  function Push(q: QueueState, m: TransportMessage): (r: (QueueState, Option<TransportMessage>)) {
    if m.nonce == q.next then (q.(next := WrappingSucc(q.next)), Some(m))
    else if m.nonce < q.next || m.nonce in q.buf then (q, None)
    else (q.(buf := q.buf[m.nonce := m]), None)
  }

  /** What is left after the ready head was popped. */
  function Popped(q: QueueState): (r: QueueState)
    requires HeadReady(q)
    ensures |r.buf| < |q.buf|
  {
    assert (q.buf - {q.next}).Keys == q.buf.Keys - {q.next};
    QueueState(WrappingSucc(q.next), q.buf - {q.next})
  }

  lemma PushKeepsWeak(q: QueueState, m: TransportMessage)
    requires Strict(q)
    ensures Weak(Push(q, m).0)
    ensures Push(q, m).1.None? ==> Strict(Push(q, m).0)
  {
  }

  /** The exact limit: `try_push` breaks the documented invariant if and only if it
      hands out the expected message while the next one already waits. */
  lemma PushKeepsStrictIff(q: QueueState, m: TransportMessage)
    requires Strict(q)
    ensures Strict(Push(q, m).0) <==> !(m.nonce == q.next && WrappingSucc(q.next) in q.buf)
  {
  }

  /** A failing input. */
  lemma PushAloneBreaksStrictness(m1: TransportMessage, m2: TransportMessage)
    requires m1.nonce == 1 && m2.nonce == 2
    ensures var q := QueueState(1, map[2 := m2]);
            Strict(q) && !Strict(Push(q, m1).0)
  {
    var q := Push(QueueState(1, map[2 := m2]), m1).0;
    assert 2 in q.buf && q.next == 2;
  }

  // ---------------------------------------------------------------- the ordered set

  predicate Sorted(s: seq<TransportMessage>) {
    forall i, j | 0 <= i < j < |s| :: s[i].nonce < s[j].nonce
  }

  function AsMap(s: seq<TransportMessage>): map<u64, TransportMessage> {
    if s == [] then map[] else AsMap(s[1..])[s[0].nonce := s[0]]
  }

  /** `BTreeSet::insert` under nonce-only equality: an equal nonce leaves the set alone. */
  function Insert(s: seq<TransportMessage>, m: TransportMessage): seq<TransportMessage> {
    if s == [] || m.nonce < s[0].nonce then [m] + s
    else if m.nonce == s[0].nonce then s
    else [s[0]] + Insert(s[1..], m)
  }

  predicate HasNonce(s: seq<TransportMessage>, n: u64) {
    exists i | 0 <= i < |s| :: s[i].nonce == n
  }

  lemma {:induction false} AsMapKeys(s: seq<TransportMessage>)
    requires Sorted(s)
    ensures forall n :: n in AsMap(s) <==> HasNonce(s, n)
    ensures forall i | 0 <= i < |s| :: s[i].nonce in AsMap(s) && AsMap(s)[s[i].nonce] == s[i]
  {
    if s != [] {
      var t := s[1..];
      AsMapKeys(t);
      forall n ensures n in AsMap(s) <==> HasNonce(s, n) {
        if HasNonce(t, n) {
          var i :| 0 <= i < |t| && t[i].nonce == n;
          assert s[i + 1].nonce == n;
        }
        if HasNonce(s, n) {
          var i :| 0 <= i < |s| && s[i].nonce == n;
          if i > 0 { assert t[i - 1].nonce == n; }
        }
      }
      forall i | 0 <= i < |s|
        ensures s[i].nonce in AsMap(s) && AsMap(s)[s[i].nonce] == s[i]
      {
        if i > 0 { assert s[i] == t[i - 1] && s[0].nonce < s[i].nonce; }
      }
    }
  }

  lemma {:induction false} InsertKeepsSorted(s: seq<TransportMessage>, m: TransportMessage)
    requires Sorted(s)
    ensures Sorted(Insert(s, m))
    ensures forall i | 0 <= i < |Insert(s, m)| :: Insert(s, m)[i] == m || Insert(s, m)[i] in s
  {
    if s == [] || m.nonce <= s[0].nonce {
    } else {
      var t := Insert(s[1..], m);
      InsertKeepsSorted(s[1..], m);
      forall i | 0 <= i < |t| ensures s[0].nonce < t[i].nonce {
        if t[i] != m { assert t[i] in s[1..]; }
      }
    }
  }

  /** Inserting keeps the order and, read as a map, never replaces an earlier message. */
  lemma {:induction false} InsertRefinesMap(s: seq<TransportMessage>, m: TransportMessage)
    requires Sorted(s)
    ensures Sorted(Insert(s, m))
    ensures AsMap(Insert(s, m)) == if m.nonce in AsMap(s) then AsMap(s) else AsMap(s)[m.nonce := m]
  {
    InsertKeepsSorted(s, m);
    if s == [] {
    } else if m.nonce < s[0].nonce {
      assert ([m] + s)[1..] == s;
      NothingBelowHead(s, m.nonce);
    } else if m.nonce == s[0].nonce {
    } else {
      InsertRefinesMap(s[1..], m);
      assert Insert(s, m)[1..] == Insert(s[1..], m);
    }
  }

  lemma NothingBelowHead(s: seq<TransportMessage>, n: u64)
    requires Sorted(s) && s != [] && n < s[0].nonce
    ensures n !in AsMap(s)
  {
    AsMapKeys(s);
  }

  /** Popping the first element removes exactly the least nonce of the map. */
  lemma PopFirstRefinesMap(s: seq<TransportMessage>)
    requires Sorted(s) && s != []
    ensures Sorted(s[1..])
    ensures AsMap(s[1..]) == AsMap(s) - {s[0].nonce}
    ensures s[0].nonce in AsMap(s) && AsMap(s)[s[0].nonce] == s[0]
    ensures forall n | n in AsMap(s) :: s[0].nonce <= n
  {
    assert s[0].nonce !in AsMap(s[1..]) by {
      AsMapKeys(s[1..]);
    }
    assert forall n | n in AsMap(s) :: s[0].nonce <= n by {
      AsMapKeys(s);
    }
  }

  // ---------------------------------------------------------------- the object

  class MessageQueue {
    var nextExpectedNonce: u64
    var queue: seq<TransportMessage>

    ghost predicate Valid()
      reads this
    {
      Sorted(queue)
    }

    ghost function State(): QueueState
      reads this
    {
      QueueState(nextExpectedNonce, AsMap(queue))
    }

    constructor ()
      ensures Valid() && State() == FRESH
    {
      nextExpectedNonce := 0;
      queue := [];
    }

    /** Reports the "connection message received twice" panic instead of unwinding. */
    method SetConnectionMessageReceived() returns (panicked: bool)
      requires Valid()
      modifies this
      ensures Valid()
      ensures panicked <==> old(State()).next != 0
      ensures State() == if panicked then old(State()) else old(State()).(next := 1)
    {
      panicked := nextExpectedNonce != 0;
      if !panicked {
        nextExpectedNonce := WrappingSucc(nextExpectedNonce);
      }
    }

    method TryPush(msg: TransportMessage) returns (r: Option<TransportMessage>)
      requires Valid()
      modifies this
      ensures Valid()
      ensures (State(), r) == Push(old(State()), msg)
    {
      if msg.nonce == nextExpectedNonce {
        nextExpectedNonce := WrappingSucc(nextExpectedNonce);
        return Some(msg);
      }
      if msg.nonce < nextExpectedNonce {
        return None;
      }
      InsertRefinesMap(queue, msg);
      queue := Insert(queue, msg);
      return None;
    }

    method Pop() returns (r: Option<TransportMessage>)
      requires Valid()
      modifies this
      ensures Valid()
      ensures r.Some? <==> HeadReady(old(State()))
      ensures r.Some? ==> r.value == old(State()).buf[old(State()).next] && State() == Popped(old(State()))
      ensures r.None? ==> State() == old(State())
    {
      if queue == [] {
        return None;
      }
      PopFirstRefinesMap(queue);
      var head := queue[0];
      if head.nonce == nextExpectedNonce {
        nextExpectedNonce := WrappingSucc(nextExpectedNonce);
        queue := queue[1..];
        return Some(head);
      }
      return None;
    }
  }
}
