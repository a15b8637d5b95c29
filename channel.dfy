/**
 * The channels the engine, the scenes and the node managers talk through:
 * tokio's bounded mpsc channel and its oneshot channel, reduced to the state
 * that decides what a send or a receive does. A waker, a blocked task and the
 * scheduler are not part of this state: a send that would have to wait reports
 * `Full`, and the caller's future stays pending.
 *
 * The bottom of the file is `create_signal` and `NSignal` (src/signal.rs): the
 * consumer end of a capacity-1 value slot.
 */
module Channel {
  import opened Common

  /** What a single attempt to send on a bounded channel does. */
  datatype SendResult = Sent | Full | Closed

  /** A bounded FIFO channel with one receiver. */
  class Chan<T> {
    const capacity: nat
    /** Values sent and not yet received, oldest first. */
    var queue: seq<T>
    /** False once the receiving end has been dropped. */
    var receiverAlive: bool

    ghost predicate Valid()
      reads this
    {
      0 < capacity && |queue| <= capacity
    }

    /** `tokio::sync::mpsc::channel(capacity)`; tokio refuses a zero capacity. */
    constructor (capacity: nat)
      requires capacity > 0
      ensures Valid() && this.capacity == capacity
      ensures queue == [] && receiverAlive
    {
      this.capacity := capacity;
      queue := [];
      receiverAlive := true;
    }

    /**
     * One attempt of `Sender::send`: it fails at once when the receiver is
     * gone, waits (here: reports `Full`) while the buffer is full, and
     * otherwise appends the value.
     */
    method TrySend(x: T) returns (r: SendResult)
      requires Valid()
      modifies this
      ensures Valid() && receiverAlive == old(receiverAlive)
      ensures r == Closed <==> !old(receiverAlive)
      ensures r == Full <==> old(receiverAlive) && |old(queue)| == capacity
      ensures queue == if r == Sent then old(queue) + [x] else old(queue)
    {
      if !receiverAlive {
        r := Closed;
      } else if |queue| == capacity {
        r := Full;
      } else {
        r := Sent;
        queue := queue + [x];
      }
    }

    /** `Receiver::try_recv`: never waits; takes the oldest value if there is one. */
    method TryRecv() returns (r: Option<T>)
      modifies this
      ensures old(Valid()) ==> Valid()
      ensures receiverAlive == old(receiverAlive)
      ensures r.None? <==> old(queue) == []
      ensures r.Some? ==> r.value == old(queue)[0] && queue == old(queue)[1..]
      ensures r.None? ==> queue == old(queue)
    {
      if queue == [] {
        r := None;
      } else {
        r := Some(queue[0]);
        queue := queue[1..];
      }
    }

    /** The value the next receive returns, if any. */
    ghost function Oldest(): (r: Option<T>)
      reads this
      ensures r.None? <==> queue == []
      ensures r.Some? ==> r.value == queue[0]
    {
      if queue == [] then None else Some(queue[0])
    }

    /** Dropping the receiver: later sends fail. */
    method CloseReceiver()
      modifies this
      ensures !receiverAlive && queue == old(queue)
    {
      receiverAlive := false;
    }
  }

  /** A tokio oneshot channel: one value, sent at most once. */
  class OneShot<T> {
    /** The value sent and not yet taken by the receiver. */
    var value: Option<T>
    var senderDropped: bool
    var receiverDropped: bool

    constructor ()
      ensures value == None && !senderDropped && !receiverDropped
    {
      value := None;
      senderDropped := false;
      receiverDropped := false;
    }

    /**
     * `oneshot::Sender::send`, which consumes the sender: it fails (and gives
     * the value back) when the receiver is gone.
     */
    method Send(x: T) returns (ok: bool)
      requires !senderDropped
      modifies this
      ensures ok == !old(receiverDropped)
      ensures value == if ok then Some(x) else old(value)
      ensures senderDropped && receiverDropped == old(receiverDropped)
    {
      ok := !receiverDropped;
      if ok {
        value := Some(x);
      }
      senderDropped := true;
    }

    /** Dropping the sender without sending. */
    method DropSender()
      modifies this
      ensures senderDropped && value == old(value) && receiverDropped == old(receiverDropped)
    {
      senderDropped := true;
    }

    /** Dropping the receiver. */
    method DropReceiver()
      modifies this
      ensures receiverDropped && value == old(value) && senderDropped == old(senderDropped)
    {
      receiverDropped := true;
    }

    /**
     * One poll of the receiver future (`recv.await`): the value if it is
     * there, a panic when the caller unwraps and the sender is gone without
     * sending, and otherwise pending.
     */
    method PollRecv() returns (r: Poll<T>)
      modifies this
      ensures old(value).Some? ==> r == Ready(old(value).value) && value == None
      ensures old(value).None? && senderDropped ==> r == Panicked
      ensures old(value).None? && !senderDropped ==> r == Pending
      ensures old(value).None? ==> value == None
      ensures senderDropped == old(senderDropped) && receiverDropped == old(receiverDropped)
    {
      match value {
        case Some(v) =>
          r := Ready(v);
          value := None;
        case None =>
          r := if senderDropped then Panicked else Pending;
      }
    }
  }

  /** Between two states, `c` gave up its oldest value, if it had one. */
  twostate predicate Received<T>(c: Chan<T>)
    reads c
  {
    c.queue == if old(c.queue) == [] then [] else old(c.queue)[1..]
  }

  /** The producer end of a value slot (`RawSignal`): a sender on a capacity-1 channel. */
  datatype SignalInner<T> = SignalInner(sender: Chan<T>)

  /** The consumer end of a value slot, held by a node manager. */
  datatype NSignal<T> = NSignal(receiver: Chan<T>)
  {
    /** The slot holds at most one undelivered value. */
    predicate Valid()
    {
      receiver.capacity == 1
    }

    /** `NSignal::get`: never waits; returns and removes the undelivered value, if any. */
    method Get() returns (r: Option<T>)
      modifies receiver
      ensures r == old(receiver.Oldest())
      ensures Received(receiver) && receiver.receiverAlive == old(receiver.receiverAlive)
    {
      r := receiver.TryRecv();
    }
  }

  /**
   * `create_signal`: a producer and a consumer joined by one fresh capacity-1
   * channel, so at most one value is ever undelivered.
   */
  method CreateSignal<T>() returns (inner: SignalInner<T>, n: NSignal<T>)
    ensures fresh(inner.sender) && n.receiver == inner.sender
    ensures n.Valid() && inner.sender.queue == [] && inner.sender.receiverAlive
  {
    var c := new Chan<T>(1);
    inner := SignalInner(c);
    n := NSignal(c);
  }
}
