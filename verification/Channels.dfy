/** Shared objects of a running node: the outbound mixnet channel and the atomic
    message counter. */
module Channels {
  import opened Base
  import opened Messages

  /** The unbounded channel to the mixnet task; `open` is false once its receiver is gone. */
  class Outbox {
    var sent: seq<OutboundMessage>
    var open: bool

    constructor ()
      ensures sent == [] && open
    {
      sent, open := [], true;
    }

    method Send(m: OutboundMessage) returns (ok: bool)
      modifies this`sent
      ensures ok == open
      ensures sent == if open then old(sent) + [m] else old(sent)
    {
      ok := open;
      if open { sent := sent + [m]; }
    }
  }

  class AtomicU64 {
    var value: u64

    constructor (initial: u64)
      ensures value == initial
    {
      value := initial;
    }

    method FetchAdd() returns (previous: u64)
      modifies this
      ensures previous == old(value) && value == WrappingSucc(old(value))
    {
      previous := value;
      value := WrappingSucc(value);
    }
  }
}
