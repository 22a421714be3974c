/** The unbounded multi-producer, single-consumer channel (std::sync::mpsc) that links two workers. */
module Channels {

  class Channel<T> {
    /** Messages sent and not yet received, oldest first. */
    var items: seq<T>

    constructor ()
      ensures items == []
    {
      items := [];
    }

    /** `send`: appends at the back; the channel is unbounded, so it never blocks. */
    method Send(x: T)
      modifies this
      ensures items == old(items) + [x]
    {
      items := items + [x];
    }

    /** `recv`: takes the oldest message. The real call blocks while the channel is empty;
        callers here only receive from a non-empty channel. */
    method Recv() returns (x: T)
      requires items != []
      modifies this
      ensures x == old(items)[0] && items == old(items)[1..]
    {
      x := items[0];
      items := items[1..];
    }
  }
}
