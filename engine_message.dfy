/**
 * The requests a scene sends the engine (src/engine_message.rs), and the
 * scene's handle on the engine's inbox.
 */
module EngineMessage {
  import opened Common
  import opened Channel
  import opened Node

  /**
   * `EngineMessage`: the closed set of requests. `CreateRef` carries the
   * one-shot slot the raw node handle comes back in, `CreateElement` hands
   * over the boxed builder, and `WaitNextFrame` carries the slot the engine
   * answers at the start of its next frame.
   */
  datatype Msg =
    | CreateRef(tag: Kind, reply: OneShot<AnyRaw>)
    | CreateElement(tag: Kind, builder: AnyBuilder)
    | WaitNextFrame(frame: OneShot<()>)
    | Submit

  /** The engine's inbox is `channel(8)`. */
  const INBOX_CAPACITY: nat := 8

  /** Between two states, one attempt to put `(id, msg)` into `inbox` gave `r`. */
  twostate predicate Enqueued(inbox: Chan<(nat, Msg)>, id: nat, new msg: Msg, new r: Poll<()>)
    reads inbox
  {
    inbox.receiverAlive == old(inbox.receiverAlive) &&
    (r == Panicked <==> !old(inbox.receiverAlive)) &&
    (r == Pending <==> old(inbox.receiverAlive) && |old(inbox.queue)| == inbox.capacity) &&
    inbox.queue == (if r.Ready? then old(inbox.queue) + [(id, msg)] else old(inbox.queue))
  }

  /** The messages `ms`, each tagged with the sending scene's id, as they sit in the inbox. */
  function Tagged(id: nat, ms: seq<Msg>): (q: seq<(nat, Msg)>)
    ensures |q| == |ms|
  {
    seq(|ms|, i requires 0 <= i < |ms| => (id, ms[i]))
  }

  /** The tagged messages after `a` in `c` are those after `a` in `b`, then those after `b` in `c`. */
  lemma TaggedSplit(id: nat, a: seq<Msg>, b: seq<Msg>, c: seq<Msg>)
    requires a <= b <= c
    ensures Tagged(id, c[|a|..]) == Tagged(id, b[|a|..]) + Tagged(id, c[|b|..])
  {
    assert c[|a|..] == b[|a|..] + c[|b|..];
  }

  /** `EngineSender`: a scene's id and its clone of the inbox's sender. */
  datatype EngineSender = EngineSender(id: nat, sender: Chan<(nat, Msg)>)
  {
    /**
     * One attempt of `send`: the message goes in tagged with the scene's
     * id; a full inbox leaves the caller waiting, and a closed one panics
     * the `unwrap`.
     */
    method Send(msg: Msg) returns (r: Poll<()>)
      requires sender.Valid()
      modifies sender
      ensures sender.Valid() && Enqueued(sender, id, msg, r)
    {
      var s := sender.TrySend((id, msg));
      r := match s
        case Sent => Ready(())
        case Full => Pending
        case Closed => Panicked;
    }
  }
}
