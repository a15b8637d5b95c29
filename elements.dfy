/**
 * The scene-side handles of the three kinds of element (`Rect` in
 * src/rect.rs, `Video` and `Audio` in src/main.rs), their `drop` futures,
 * and `SceneTask::spawn_element` (src/scene.rs), which asks the engine for
 * a raw node handle, wraps it in an element handle and then hands the
 * builder over.
 *
 * Each handle owns a drop slot and a `dropped` flag that the Rust `Drop`
 * impl checks; the model keeps these two, with the scene, in one
 * `DropGuard` that each handle holds.
 */
module Elements {
  import opened Common
  import opened Channel
  import opened Color
  import opened Node
  import opened EngineMessage
  import opened Scene
  import S = Signal
  import Rect
  import Video
  import Audio

  /** The drop slot of an element handle, its scene, and whether its `drop` future has completed. */
  class DropGuard {
    const scene: SceneTask
    const drop: S.Signal<()>
    var dropped: bool

    /** The drop slot talks to the handle's own scene. */
    ghost predicate Valid()
      reads drop.inner.sender, scene.sender.sender
    {
      drop.scene == scene && drop.Valid()
    }

    /** The drop part of `create_node_ref`: a signal over the drop slot, and not dropped yet. */
    constructor (raw: SignalInner<()>, scene: SceneTask)
      ensures this.scene == scene && !dropped && fresh(drop)
      ensures drop.inner == raw && drop.scene == scene && drop.value == ()
    {
      this.scene := scene;
      drop := new S.Signal(raw, scene, ());
      dropped := false;
    }

    /**
     * The `Drop` impl of `Rect`, `Video` and `Audio`: a handle whose `drop`
     * future has not completed aborts the process.
     */
    function Release(): (r: Outcome<()>)
      reads this
      ensures r.Panic? <==> !dropped
    {
      if dropped then Ok(()) else Panic
    }
  }

  /** `Rect`: signals for position, size and colour, and the drop guard. */
  class RectElement {
    const guard: DropGuard
    const position: S.Signal<Vec2>
    const size: S.Signal<Vec2>
    const color: S.Signal<Color>

    /** `RectBuilder::create_node_ref`: every signal starts at the builder's value. */
    constructor (raw: Rect.RawRect, scene: SceneTask, b: Rect.RectBuilder)
      ensures fresh(guard) && fresh(guard.drop) && fresh(position) && fresh(size) && fresh(color)
      ensures guard.scene == scene && !guard.dropped && guard.drop.inner == raw.drop && guard.drop.scene == scene
      ensures position.inner == raw.position && position.scene == scene && position.value == b.position
      ensures size.inner == raw.size && size.scene == scene && size.value == b.size
      ensures color.inner == raw.color && color.scene == scene && color.value == b.color
    {
      guard := new DropGuard(raw.drop, scene);
      position := new S.Signal(raw.position, scene, b.position);
      size := new S.Signal(raw.size, scene, b.size);
      color := new S.Signal(raw.color, scene, b.color);
    }
  }

  /** `Video`: signals for position and size, and the drop guard. */
  class VideoElement {
    const guard: DropGuard
    const position: S.Signal<Vec2>
    const size: S.Signal<Vec2>

    /** `VideoBuilder::create_node_ref`: every signal starts at the builder's value. */
    constructor (raw: Video.RawVideo, scene: SceneTask, b: Video.VideoBuilder)
      ensures fresh(guard) && fresh(guard.drop) && fresh(position) && fresh(size)
      ensures guard.scene == scene && !guard.dropped && guard.drop.inner == raw.drop && guard.drop.scene == scene
      ensures position.inner == raw.position && position.scene == scene && position.value == b.pos
      ensures size.inner == raw.size && size.scene == scene && size.value == b.size
    {
      guard := new DropGuard(raw.drop, scene);
      position := new S.Signal(raw.position, scene, b.pos);
      size := new S.Signal(raw.size, scene, b.size);
    }
  }

  /** `Audio`: only the drop guard. */
  class AudioElement {
    const guard: DropGuard

    /** `AudioBuilder::create_node_ref`. */
    constructor (raw: Audio.RawAudio, scene: SceneTask)
      ensures fresh(guard) && fresh(guard.drop)
      ensures guard.scene == scene && !guard.dropped && guard.drop.inner == raw.drop && guard.drop.scene == scene
    {
      guard := new DropGuard(raw.drop, scene);
    }
  }

  /** The element handle `spawn_element` returns, one variant per kind. */
  datatype ElementRef = RectHandle(rect: RectElement) | VideoHandle(video: VideoElement) | AudioHandle(audio: AudioElement)
  {
    /** The objects whose state the handle's description reads. */
    function Objs(): set<object>
    {
      match this
      case RectHandle(x) => {x.guard, x.guard.drop, x.position, x.size, x.color}
      case VideoHandle(x) => {x.guard, x.guard.drop, x.position, x.size}
      case AudioHandle(x) => {x.guard, x.guard.drop}
    }
  }

  /**
   * `e` is the handle built by `b.create_element_ref(raw)` for `scene`: of
   * the builder's kind, over exactly the senders in `raw`, every signal at
   * the builder's value and not dropped.
   */
  ghost predicate Made(e: ElementRef, b: AnyBuilder, raw: AnyRaw, scene: SceneTask)
    reads e.Objs()
  {
    match e
    case RectHandle(x) =>
      b.BuildRect? && raw.RectRaw? &&
      x.guard.scene == scene && !x.guard.dropped &&
      x.guard.drop.inner == raw.rect.drop && x.guard.drop.scene == scene &&
      x.position.inner == raw.rect.position && x.position.scene == scene && x.position.value == b.rect.position &&
      x.size.inner == raw.rect.size && x.size.scene == scene && x.size.value == b.rect.size &&
      x.color.inner == raw.rect.color && x.color.scene == scene && x.color.value == b.rect.color
    case VideoHandle(x) =>
      b.BuildVideo? && raw.VideoRaw? &&
      x.guard.scene == scene && !x.guard.dropped &&
      x.guard.drop.inner == raw.video.drop && x.guard.drop.scene == scene &&
      x.position.inner == raw.video.position && x.position.scene == scene && x.position.value == b.video.pos &&
      x.size.inner == raw.video.size && x.size.scene == scene && x.size.value == b.video.size
    case AudioHandle(x) =>
      b.BuildAudio? && raw.AudioRaw? &&
      x.guard.scene == scene && !x.guard.dropped &&
      x.guard.drop.inner == raw.audio.drop && x.guard.drop.scene == scene
  }

  /**
   * `create_element_ref` behind the type-erased reply: the boxed raw handle
   * is downcast to the builder's own raw type, and a handle of another kind
   * panics the `unwrap`.
   */
  method CreateElementRef(b: AnyBuilder, raw: AnyRaw, scene: SceneTask) returns (r: Outcome<ElementRef>)
    ensures r.Panic? <==> raw.Tag() != b.Tag()
    ensures r.Ok? ==> fresh(r.value.Objs()) && Made(r.value, b, raw, scene)
  {
    match b
    case BuildRect(rb) =>
      if !raw.RectRaw? {
        return Panic;
      }
      var x := new RectElement(raw.rect, scene, rb);
      r := Ok(RectHandle(x));
    case BuildVideo(vb) =>
      if !raw.VideoRaw? {
        return Panic;
      }
      var x := new VideoElement(raw.video, scene, vb);
      r := Ok(VideoHandle(x));
    case BuildAudio(_) =>
      if !raw.AudioRaw? {
        return Panic;
      }
      var x := new AudioElement(raw.audio, scene);
      r := Ok(AudioHandle(x));
  }

  /** `k` copies of `(id, Submit)`: what `k` successful submits put into the inbox. */
  function Submits(id: nat, k: nat): (q: seq<(nat, Msg)>)
    ensures |q| == k && forall i :: 0 <= i < k ==> q[i] == (id, Msg.Submit)
  {
    seq(k, _ => (id, Msg.Submit))
  }

  /** Where a `drop` future stands: setting the drop slot, submitting its own update, or finished. */
  datatype DropStage = DropSetting(setter: S.SetFuture<()>) | DropUpdating | DropFinished

  /**
   * The future of `Rect::drop`, `Video::drop` or `Audio::drop`: it sets the
   * drop slot (which includes a submit), then, for a rectangle only, submits
   * one more update, and then marks the handle dropped.
   */
  class DropFuture {
    const guard: DropGuard
    /** `Rect::drop` submits an update of its own; `Video::drop` and `Audio::drop` do not. */
    const update: bool
    var stage: DropStage
    /** Whether the drop slot has been given its value. */
    ghost var signalled: bool
    /** How many `Submit` messages this future has put into the inbox. */
    ghost var submitted: nat
    /** The `set` future. */
    ghost var Repr: set<object>

    /**
     * The handle is dropped exactly when the future has finished, by which
     * time the slot has its value and every submit has gone out; the drop
     * slot gets its value before any submit.
     */
    ghost predicate Valid()
      reads this, Repr, guard, guard.drop, guard.drop.inner.sender, guard.scene.sender.sender
    {
      guard.Valid() &&
      (guard.dropped <==> stage.DropFinished?) &&
      (stage.DropSetting? ==>
        stage.setter in Repr && stage.setter.signal == guard.drop && stage.setter.Valid() &&
        stage.setter.stage != S.SetDone && (signalled <==> stage.setter.stage == S.Submitting) && submitted == 0) &&
      (stage.DropUpdating? ==> update && signalled && submitted == 1) &&
      (stage.DropFinished? ==> signalled && submitted == (if update then 2 else 1))
    }

    /** Calling `drop`; nothing happens before the first poll. */
    constructor (guard: DropGuard, update: bool)
      requires guard.Valid() && !guard.dropped
      ensures Valid() && fresh(Repr) && this.guard == guard && this.update == update
      ensures stage.DropSetting? && !signalled && submitted == 0
    {
      this.guard := guard;
      this.update := update;
      var setter := new S.SetFuture(guard.drop, ());
      stage := DropSetting(setter);
      signalled := false;
      submitted := 0;
      Repr := {setter};
    }

    /** The rectangle's own update; once it is in the inbox the handle is dropped. */
    method PollUpdate() returns (r: Poll<()>)
      requires Valid() && stage.DropUpdating?
      modifies this, guard, guard.scene.sender.sender
      ensures Valid() && Repr == old(Repr) && signalled
      ensures Enqueued(guard.scene.sender.sender, guard.scene.sender.id, Msg.Submit, r)
      ensures guard.drop.inner.sender.queue == old(guard.drop.inner.sender.queue)
      ensures guard.drop.inner.sender.receiverAlive == old(guard.drop.inner.sender.receiverAlive)
      ensures r.Ready? ==> stage.DropFinished? && submitted == 2
      ensures !r.Ready? ==> stage.DropUpdating? && submitted == 1
    {
      r := guard.scene.Submit();
      if r.Ready? {
        submitted := 2;
        guard.dropped := true;
        stage := DropFinished;
      }
    }

    /**
     * One poll. The drop slot is set, waiting while it holds an unread value,
     * and the submits follow; a closed slot or inbox panics, and so does a
     * poll after the future has finished.
     */
    method Poll() returns (r: Poll<()>)
      requires Valid()
      modifies this, Repr, guard, guard.drop, guard.drop.inner.sender, guard.scene.sender.sender
      ensures Valid() && Repr == old(Repr)
      ensures r.Ready? <==> !old(stage).DropFinished? && stage.DropFinished?
      ensures old(stage).DropFinished? ==> r == Panicked
      ensures r == Panicked && !old(stage).DropFinished? ==>
        !guard.drop.inner.sender.receiverAlive || !guard.scene.sender.sender.receiverAlive
      ensures old(signalled) ==> signalled
      ensures guard.drop.inner.sender.queue == old(guard.drop.inner.sender.queue) + (if signalled && !old(signalled) then [()] else [])
      ensures old(submitted) <= submitted &&
        guard.scene.sender.sender.queue == old(guard.scene.sender.sender.queue) + Submits(guard.scene.sender.id, submitted - old(submitted))
      ensures guard.drop.inner.sender.receiverAlive == old(guard.drop.inner.sender.receiverAlive)
      ensures guard.scene.sender.sender.receiverAlive == old(guard.scene.sender.sender.receiverAlive)
    {
      match stage
      case DropSetting(setter) =>
        ghost var unit: () := setter.v;
        assert unit == ();
        r := setter.Poll();
        signalled := setter.stage != S.Offering;
        if !r.Ready? {
          return;
        }
        submitted := 1;
        if update {
          stage := DropUpdating;
          r := PollUpdate();
        } else {
          guard.dropped := true;
          stage := DropFinished;
        }
      case DropUpdating =>
        r := PollUpdate();
      case DropFinished =>
        r := Panicked;
    }
  }

  /** Where a `spawn_element` future stands. */
  datatype SpawnStage = RequestingRef | AwaitingRef | HandingOver(element: ElementRef) | Spawned

  /**
   * The future of `spawn_element(builder)`: a `CreateRef` request tagged
   * with the builder's kind and carrying a one-shot slot, then the raw node
   * handle out of that slot made into an element handle, then a
   * `CreateElement` request with the same tag handing the builder over.
   */
  class SpawnFuture {
    const task: SceneTask
    const builder: AnyBuilder
    /** The slot the raw node handle comes back in. */
    const slot: OneShot<AnyRaw>
    var stage: SpawnStage
    /** The requests this future has put into the inbox, oldest first. */
    ghost var sent: seq<Msg>
    /** The raw node handle taken out of the slot. */
    ghost var received: Option<AnyRaw>

    /**
     * The requests go out in order, the second only after the reply to the
     * first has been received, and the handle is built from that reply.
     */
    ghost predicate Valid()
      reads this, task.sender.sender, if stage.HandingOver? then stage.element.Objs() else {}
    {
      task.Valid() &&
      (stage.RequestingRef? ==> sent == [] && received == None) &&
      (stage.AwaitingRef? ==> sent == [CreateRef(builder.Tag(), slot)] && received == None) &&
      (stage.HandingOver? ==>
        sent == [CreateRef(builder.Tag(), slot)] && received.Some? && Made(stage.element, builder, received.value, task)) &&
      (stage.Spawned? ==>
        sent == [CreateRef(builder.Tag(), slot), CreateElement(builder.Tag(), builder)] && received.Some?)
    }

    /** Calling `spawn_element`: a fresh one-shot slot, and nothing sent yet. */
    constructor (task: SceneTask, builder: AnyBuilder)
      requires task.Valid()
      ensures Valid() && this.task == task && this.builder == builder && fresh(slot)
      ensures slot.value == None && !slot.senderDropped && !slot.receiverDropped
      ensures stage == RequestingRef && sent == [] && received == None
    {
      this.task := task;
      this.builder := builder;
      slot := new OneShot<AnyRaw>();
      stage := RequestingRef;
      sent := [];
      received := None;
    }

    /** The `CreateRef` request; once it is in the inbox the future awaits the reply. */
    method Request() returns (r: Poll<()>)
      requires Valid() && stage.RequestingRef?
      modifies this, task.sender.sender
      ensures Valid() && received == old(received)
      ensures Enqueued(task.sender.sender, task.sender.id, CreateRef(builder.Tag(), slot), r)
      ensures r.Ready? ==> stage.AwaitingRef? && sent == [CreateRef(builder.Tag(), slot)]
      ensures !r.Ready? ==> stage.RequestingRef? && sent == []
    {
      r := task.sender.Send(CreateRef(builder.Tag(), slot));
      if r.Ready? {
        sent := [CreateRef(builder.Tag(), slot)];
        stage := AwaitingRef;
      }
    }

    /** Awaiting the reply, and making it into the element handle. */
    method Await() returns (r: Poll<()>)
      requires Valid() && stage.AwaitingRef?
      modifies this, slot
      ensures Valid() && sent == old(sent)
      ensures r.Ready? <==> stage.HandingOver?
      ensures r.Ready? ==> received == old(slot.value) && fresh(stage.element.Objs())
      ensures !r.Ready? ==> stage.AwaitingRef? && received == None
      ensures r == Pending <==> old(slot.value).None? && !slot.senderDropped
      ensures r == Panicked <==>
        (old(slot.value).None? && slot.senderDropped) || (old(slot.value).Some? && old(slot.value).value.Tag() != builder.Tag())
      ensures slot.senderDropped == old(slot.senderDropped) && slot.receiverDropped == old(slot.receiverDropped)
    {
      var p := slot.PollRecv();
      if !p.Ready? {
        return if p.Pending? then Pending else Panicked;
      }
      var e := CreateElementRef(builder, p.value, task);
      if e.Panic? {
        return Panicked;
      }
      received := Some(p.value);
      stage := HandingOver(e.value);
      r := Ready(());
    }

    /** The `CreateElement` request; once it is in the inbox the handle is returned. */
    method HandOver() returns (r: Poll<ElementRef>)
      requires Valid() && stage.HandingOver?
      modifies this, task.sender.sender
      ensures Valid() && received == old(received)
      ensures var sr: Poll<()> := if r.Ready? then Ready(()) else if r.Pending? then Pending else Panicked;
        Enqueued(task.sender.sender, task.sender.id, CreateElement(builder.Tag(), builder), sr)
      ensures r.Ready? ==> r.value == old(stage).element && stage.Spawned? && sent == old(sent) + [CreateElement(builder.Tag(), builder)]
      ensures r.Ready? ==> Made(r.value, builder, received.value, task)
      ensures !r.Ready? ==> stage == old(stage) && sent == old(sent)
    {
      var e := stage.element;
      var s := task.sender.Send(CreateElement(builder.Tag(), builder));
      if !s.Ready? {
        return if s == Pending then Pending else Panicked;
      }
      sent := sent + [CreateElement(builder.Tag(), builder)];
      stage := Spawned;
      r := Ready(e);
    }

    /**
     * One poll. A request waits while the inbox is full; a closed inbox, a
     * slot whose sender went away without answering, a reply of another kind
     * than the builder's, or a poll after the handle was returned panics.
     */
    method Poll() returns (r: Poll<ElementRef>)
      requires Valid()
      modifies this, slot, task.sender.sender
      ensures Valid()
      ensures r.Ready? <==> !old(stage).Spawned? && stage.Spawned?
      ensures old(stage).Spawned? ==> r == Panicked
      ensures r.Ready? ==> Made(r.value, builder, received.value, task)
      ensures r == Panicked && !old(stage).Spawned? ==>
        !task.sender.sender.receiverAlive ||
        (slot.senderDropped && old(slot.value).None?) ||
        (old(slot.value).Some? && old(slot.value).value.Tag() != builder.Tag())
      ensures old(received).Some? ==> received == old(received)
      ensures old(received).None? && received.Some? ==> received == old(slot.value)
      ensures old(sent) <= sent
      ensures task.sender.sender.queue == old(task.sender.sender.queue) + Tagged(task.sender.id, sent[|old(sent)|..])
      ensures task.sender.sender.receiverAlive == old(task.sender.sender.receiverAlive)
    {
      if stage == RequestingRef {
        var s := Request();
        if !s.Ready? {
          return if s == Pending then Pending else Panicked;
        }
      }
      if stage == AwaitingRef {
        var s := Await();
        if !s.Ready? {
          return if s == Pending then Pending else Panicked;
        }
      }
      if stage.HandingOver? {
        r := HandOver();
      } else {
        r := Panicked;
      }
    }
  }
}
