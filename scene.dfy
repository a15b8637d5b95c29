/**
 * A scene's side of the frame protocol (src/scene.rs, src/info.rs): the
 * `SceneTask` handle a scene script runs with, and the futures of its
 * `wait` and `submit` operations. A future is modelled by the state it keeps
 * between polls; one call of `Poll` runs it until it finishes, panics, or
 * reaches an `await` that cannot complete yet.
 */
module Scene {
  import opened Common
  import opened Channel
  import opened Node
  import opened EngineMessage

  /** `Info`: the frame time and the output size, shared read-only with every scene. */
  datatype Info = Info(delta: real, width: nat, height: nat)

  /**
   * The `Arc<RwLock<Info>>` the engine and its scenes share. Nothing takes
   * the write lock after the engine creates it, so the value is constant.
   */
  class InfoCell {
    const info: Info

    constructor (info: Info)
      ensures this.info == info
    {
      this.info := info;
    }
  }

  /** `SceneTask`: a scene's sender into the engine's inbox and its view of `Info`. */
  class SceneTask {
    const sender: EngineSender
    const info: InfoCell

    constructor (sender: EngineSender, info: InfoCell)
      ensures this.sender == sender && this.info == info
    {
      this.sender := sender;
      this.info := info;
    }

    /** The inbox is usable by this scene. */
    ghost predicate Valid()
      reads sender.sender
    {
      sender.sender.Valid()
    }

    /**
     * `info`: the reader applied to the shared `Info`. Nothing holds the
     * write lock, so the read never waits, and nothing changes.
     */
    method ReadInfo<O>(reader: Info -> O) returns (o: O)
      ensures o == reader(info.info)
    {
      o := reader(info.info);
    }

    /** `info.delta`, as `Signal::tween` and the tween runner read it. */
    method Delta() returns (d: real)
      ensures d == info.info.delta
    {
      d := ReadInfo((i: Info) => i.delta);
    }

    /**
     * One attempt of `submit` (`update` in older code): a single `Submit`
     * message, which asks the engine to update every node manager.
     */
    method Submit() returns (r: Poll<()>)
      requires Valid()
      modifies sender.sender
      ensures Valid() && Enqueued(sender.sender, sender.id, Msg.Submit, r)
    {
      r := sender.Send(Msg.Submit);
    }
  }

  /** Where a `wait` future stands: before a round trip, sending its request, awaiting the reply, or finished. */
  datatype WaitStage = Starting | Sending(slot: OneShot<()>) | Receiving(slot: OneShot<()>) | Finished

  /**
   * The future of `wait(frames)` (`present(frames)` in older code): `frames`
   * round trips, each a `WaitNextFrame` request whose one-shot slot the
   * engine answers at the start of its next frame.
   */
  class WaitFuture {
    const sender: EngineSender
    const frames: nat
    /** Round trips completed. */
    var done: nat
    var stage: WaitStage
    /** `WaitNextFrame` requests put into the inbox so far. */
    ghost var sent: nat
    /** The reply slots this future has made. */
    ghost var Repr: set<object>

    /**
     * A request is sent only once every earlier one has its reply: while
     * starting or sending, `sent == done`; while receiving, exactly one
     * request is unanswered; and no more than `frames` are ever sent.
     */
    ghost predicate Valid()
      reads this, Repr, sender.sender
    {
      sender.sender.Valid() && done <= frames && sent <= frames &&
      (stage.Starting? ==> sent == done) &&
      (stage.Sending? ==> sent == done < frames && stage.slot in Repr && stage.slot.value == None && !stage.slot.senderDropped) &&
      (stage.Receiving? ==> sent == done + 1 && stage.slot in Repr) &&
      (stage.Finished? ==> sent == done == frames)
    }

    constructor (sender: EngineSender, frames: nat)
      requires sender.sender.Valid()
      ensures Valid() && fresh(Repr)
      ensures this.sender == sender && this.frames == frames
      ensures done == 0 && sent == 0 && stage == Starting
    {
      this.sender := sender;
      this.frames := frames;
      done := 0;
      stage := Starting;
      sent := 0;
      Repr := {};
    }

    /**
     * One poll. It finishes once `frames` round trips are done, panics when
     * the inbox is closed, when a reply slot's sender was dropped without an
     * answer, or when polled after finishing, and otherwise waits for room in
     * the inbox or for the engine's reply. At most one request goes out per
     * poll, tagged with the scene's id, and only when every earlier one has
     * its reply. A round trip started by this poll cannot also finish in it.
     */
    method Poll() returns (r: Poll<()>)
      requires Valid()
      modifies this, Repr, sender.sender
      ensures Valid() && fresh(Repr - old(Repr))
      ensures r.Ready? <==> old(!stage.Finished?) && stage.Finished?
      ensures r.Ready? ==> sent == frames == done
      ensures old(stage).Finished? ==> r == Panicked
      ensures r == Panicked && !old(stage).Finished? ==>
        !sender.sender.receiverAlive || (stage.Receiving? && stage.slot.senderDropped && stage.slot.value == None)
      ensures old(stage).Starting? && old(done) < frames ==> !r.Ready?
      ensures sent == old(sent) || sent == old(sent) + 1
      ensures sent == old(sent) + 1 ==> stage.Receiving? && r == Pending
      ensures sender.sender.queue == old(sender.sender.queue) + (if sent == old(sent) then [] else [(sender.id, WaitNextFrame(stage.slot))])
      ensures sender.sender.receiverAlive == old(sender.sender.receiverAlive)
    {
      while true
        invariant Valid() && fresh(Repr - old(Repr))
        invariant old(stage).Finished? ==> stage.Finished?
        invariant sent == old(sent) || (sent == old(sent) + 1 && stage.Receiving? && stage.slot.value == None && !stage.slot.senderDropped)
        invariant sender.sender.queue == old(sender.sender.queue) + (if sent == old(sent) then [] else [(sender.id, WaitNextFrame(stage.slot))])
        invariant sender.sender.receiverAlive == old(sender.sender.receiverAlive)
        invariant old(stage).Starting? ==> done == old(done) && (stage.Receiving? ==> sent == old(sent) + 1)
        invariant old(stage).Starting? && old(done) < frames ==> !stage.Finished?
        invariant stage.Finished? && !old(stage).Finished? ==> false
        decreases frames - done, match stage case Starting => 3 case Sending(_) => 2 case Receiving(_) => 1 case Finished => 0
      {
        match stage
        case Starting =>
          if done == frames {
            stage := Finished;
            return Ready(());
          }
          var slot := new OneShot<()>();
          Repr := Repr + {slot};
          stage := Sending(slot);
        case Sending(slot) =>
          r := sender.Send(WaitNextFrame(slot));
          if !r.Ready? {
            return;
          }
          sent := sent + 1;
          stage := Receiving(slot);
        case Receiving(slot) =>
          var p := slot.PollRecv();
          if !p.Ready? {
            return if p.Pending? then Pending else Panicked;
          }
          done := done + 1;
          stage := Starting;
        case Finished =>
          return Panicked;
      }
    }
  }
}
