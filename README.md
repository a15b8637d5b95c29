# motion-man in Dafny

A model of the core of motion-man, a Rust motion-graphics engine. Scenes are
async tasks that talk to a frame engine over a message channel; element
managers (rectangles, videos, audio) keep live lists of nodes that scenes
drive through capacity-1 signal channels; tweens and signal tweens animate
values frame by frame; media streams hold decoded frames behind a cursor.

The model covers:

- the scene–engine frame protocol: `EngineMessage` and `EngineSender::send`
  (`EngineMessage`), `SceneTask` with `wait`, `info`, `spawn_element`,
  `submit` and `tween` (`Scene`, `Elements`, `Tween`), and `Engine` with
  `new`, `create_scene`, `register_node`, `finished`, `render` and the `run`
  loop (`Engine`);
- the tag-keyed manager dispatch of `AbstractNodeManager` (`Node`), with the
  managers as a closed sum over the three kinds;
- signals: `create_signal`, `NSignal::get` (`Channel`), `Signal::new/get/set`,
  the `Executor` barrier, `lerp` and `Signal::tween` (`Signal`);
- tween stepping and the `TweenBuilder` stage machine (`Tween`);
- the rectangle, video and audio node managers with their `pending`
  handshake, `retain_mut` updates, meshes, texture choice and audio mixing
  (`Rect`, `Video`, `Audio`, on the generic `retain_mut` of `Common`);
- the video and audio frame cursors, `audio_buffer` interleaving and
  nth-stream-of-type selection (`Media`);
- the vertex-attribute layout of `VertexArrayBuilder::build`
  (`VertexArray`), `Color` conversions (`Color`) and the integer-to-enum
  tables of the FFmpeg bindings (`FFmpeg`).

Channels are heap objects: `Channel.Chan` is a bounded FIFO with a
`receiverAlive` flag (tokio's `mpsc`), `Channel.OneShot` an option cell with
dropped flags (tokio's `oneshot`). Each async function is a class with a
`Poll` method that runs until the next await that is not ready, and reports
`Panicked` where the Rust code would panic (an `unwrap` on a closed channel,
a future polled after completion). `Box<dyn Any>` payloads are closed sums
over the three kinds, `TypeId` is the `Node.Kind` datatype. Floats are reals;
`usize::MAX` is the constant `Media.USIZE_MAX`. Panics of pure code are
`Outcome.Panic` results.

## Model

| member | source | states |
|---|---|---|
| EngineMessage.EngineSender.Send | src/engine_message.rs:20-23 | one attempt enqueues (id, msg) at the back of the inbox when there is room, leaves it unchanged when full (pending), and panics when the engine's receiver is gone |
| Scene.SceneTask.constructor | src/scene.rs:12-16 | a task holds its engine sender and the shared info cell |
| Scene.SceneTask.ReadInfo | src/scene.rs:27-30 | `info` returns the reader applied to the current info and changes nothing |
| Scene.SceneTask.Delta | src/scene.rs:27-30 | the frame delta read through `info` is the info's delta |
| Scene.SceneTask.Submit | src/scene.rs:50-52 | `submit` enqueues exactly one Submit tagged with the scene's id, or stays pending, or panics on a closed inbox |
| Scene.WaitFuture.constructor | src/scene.rs:19 | `wait(n)` starts with no round trip sent and none finished |
| Scene.WaitFuture.Poll | src/scene.rs:19-25 | Ready exactly when n round trips have finished; sent never exceeds n; at most one WaitNextFrame per poll, tagged with the scene id, each sent only after the previous reply; `wait(0)` is Ready without sending; a dropped reply slot or closed inbox panics; a freshly sent request is not answered in the same poll |
| Elements.SpawnFuture.constructor | src/scene.rs:32-33 | `spawn_element` starts with a fresh empty reply slot and nothing sent |
| Elements.SpawnFuture.Request | src/scene.rs:34-36 | the CreateRef send: enqueues CreateRef(builder tag, slot) tagged with the scene id when there is room |
| Elements.SpawnFuture.Await | src/scene.rs:38 | Ready exactly when the slot holds the raw node; Pending while it is empty and its sender lives; Panicked when the sender was dropped unanswered |
| Elements.SpawnFuture.HandOver | src/scene.rs:38-47 | the CreateElement send carries the same tag and the builder; the element ref returned is built from exactly the received raw node |
| Elements.SpawnFuture.Poll | src/scene.rs:32-48 | Ready at most once; the inbox grows by exactly the CreateRef then CreateElement messages recorded in `sent`, in that order, tagged with the scene id; the ref is `Made` from the received raw node; repolling after completion panics |
| Elements.CreateElementRef | src/scene.rs:38 | `create_element_ref` panics exactly when the raw node's kind differs from the builder's, and otherwise wraps the raw signals with the builder's values |
| Elements.RectElement.constructor | src/rect.rs:70-79 | a `Rect` holds one signal per raw sender, each cached at the builder's value, plus an undropped guard |
| Elements.VideoElement.constructor | src/main.rs:543-559 | a video element holds position and size signals at the builder's values and an undropped guard |
| Elements.AudioElement.constructor | src/main.rs:1343-1352 | an audio element holds only an undropped guard |
| Elements.DropGuard.constructor | src/rect.rs:55-64 | a new guard is not yet dropped |
| Elements.DropGuard.Release | src/rect.rs:55-64 | dropping an element without its async `drop` panics, and only then |
| Elements.Submits | src/rect.rs:48-53 | the messages an element drop submits: k Submits tagged with the scene id |
| Elements.DropFuture.constructor | src/rect.rs:48-53 | the async drop starts by setting the drop signal, nothing submitted |
| Elements.DropFuture.PollUpdate | src/rect.rs:50-51 | the update after the drop signal enqueues one Submit and marks the element dropped when done |
| Elements.DropFuture.Poll | src/rect.rs:48-53 | the drop signal's channel gains exactly one `()` once; Submits are enqueued in order; Ready once the element is marked dropped; repolling after completion panics |
| Channel.Chan.constructor | src/signal.rs:167 | a new channel is empty, open and has the given capacity |
| Channel.Chan.TrySend | src/signal.rs:39 | Closed exactly when the receiver is gone, Full exactly when the queue is at capacity, otherwise the value is appended |
| Channel.Chan.TryRecv | src/signal.rs:160-163 | takes the oldest value, or None exactly when the queue is empty |
| Channel.Chan.Oldest | src/signal.rs:160-163 | the oldest queued value, None exactly when nothing is queued |
| Channel.Chan.CloseReceiver | src/rect.rs:231-233 | dropping the receiver closes the channel and keeps the queue |
| Channel.OneShot.constructor | src/scene.rs:21 | a new one-shot slot is empty with both ends alive |
| Channel.OneShot.Send | src/engine.rs:128 | succeeds exactly when the receiver is alive, storing the value; the sender is consumed either way |
| Channel.OneShot.DropSender | src/engine.rs:146-153 | dropping the sender unsent keeps the slot as it was |
| Channel.OneShot.DropReceiver | src/scene.rs:23 | dropping the receiver keeps the slot as it was |
| Channel.OneShot.PollRecv | src/scene.rs:23 | Ready with the value when one is stored (emptying the slot), Panicked when the sender was dropped without one, Pending otherwise |
| Channel.NSignal.Get | src/signal.rs:160-163 | `NSignal::get` never blocks: it returns and removes the oldest pending value, None when there is none |
| Channel.CreateSignal | src/signal.rs:166-169 | producer and consumer share one fresh, empty, open channel of capacity 1 |
| Signal.Lerp | src/signal.rs:135-137 | lerp is `from` at t = 0 and `to` at t = 1 |
| Signal.LerpBetween | src/signal.rs:135-137 | for t in [0, 1] the lerp lies between its end points |
| Signal.LerpOvershoot | src/signal.rs:144-149 | for t > 1 the lerp passes beyond `to`, which `Signal::tween` reaches when the summed steps exceed 1 |
| Signal.Signal.constructor | src/signal.rs:20-26 | `Signal::new` keeps the sender and scene, and `get` returns the given value |
| Signal.SetFuture.constructor | src/signal.rs:35 | `set` starts by offering the value |
| Signal.SetFuture.Poll | src/signal.rs:35-42 | `set` sends first, waiting for room rather than overwriting; panics on a closed receiver; then caches the value and submits an update; after Ready `get` returns the value; repolling panics |
| Signal.PollStep | src/signal.rs:99-105 | one step of the executor's `retain_mut`: a flagged step is kept untouched; an unflagged one is kept exactly while its future is pending, recording whether it signalled |
| Signal.ClearedUnflagged | src/signal.rs:119-121 | after clearing no step is flagged |
| Signal.FlaggedAll | src/signal.rs:116-121 | the flagged count equals the step count exactly when every step is flagged |
| Signal.FlaggedMark | src/signal.rs:107-114 | collecting signals raises the flagged count by the number of steps that signalled |
| Signal.FlaggedRetain | src/signal.rs:99-105 | polling and retaining steps never changes the number of flagged steps |
| Signal.RetainSteps | src/signal.rs:99-105 | the retained steps are the inputs at ascending kept positions; a flagged step is never advanced and is always kept |
| Signal.QuietRetain | src/signal.rs:99-105 | retaining keeps steps free of uncollected signals |
| Signal.BarrierIffAllSignalled | src/signal.rs:116 | the barrier fires exactly when at least one step remains and, counting this round's signals, every remaining step has signalled |
| Signal.RetainOrdered | src/signal.rs:70-105 | retained steps keep their relative order |
| Signal.MarkQuiet | src/signal.rs:107-121 | after collecting and after clearing, no signal is left uncollected |
| Signal.MarkOrdered | src/signal.rs:107-121 | collecting and clearing keep the step order |
| Signal.BalancedRound | src/signal.rs:99-125 | one round keeps the waiting counter equal to the number of flagged steps |
| Signal.CollectSignals | src/signal.rs:107-114 | the loop over the steps marks every signalled step flagged and counts the signals |
| Signal.ClearFlags | src/signal.rs:119-121 | the loop clears every flag and changes nothing else |
| Signal.Round | src/signal.rs:99-125 | one executor round: retain, collect, and, when the count reaches the remaining steps, start `end`, reset the count and clear the flags; keeps order and the counter balance |
| Signal.Executor.constructor | src/signal.rs:57-68 | a new executor has no steps, no pending `end` and a zero count |
| Signal.Executor.Add | src/signal.rs:70-82 | `add` appends one unflagged step with a new id and keeps the rest |
| Signal.Executor.Poll | src/signal.rs:88-132 | a pending `end` is polled first; otherwise one round runs; Ready exactly when no steps remain and no `end` is pending; the count stays balanced |
| Signal.SignalTween.At | src/signal.rs:146-148 | the tween position is `from` at 0 and `to` at 1 |
| Signal.SignalTween.constructor | src/signal.rs:141-142 | the step starts at sum 0 with nothing set |
| Signal.SignalTween.Check | src/signal.rs:144-146 | the loop ends exactly when the sum reached 1, otherwise the sum grows by delta/time and a set of the lerped point starts |
| Signal.SignalTween.PollSet | src/signal.rs:148 | forwards the inner `set`; its panics reach the tween |
| Signal.SignalTween.PollSignal | src/signal.rs:149 | the completion signal is sent when there is room, pends when the channel is full, and panics when the executor is gone |
| Signal.SignalTween.Turn | src/signal.rs:143-152 | each non-final turn strictly decreases a progress measure, so a poll ends |
| Signal.SignalTween.Poll | src/signal.rs:143-152 | Ready exactly when the loop finishes; then the sum is at least 1 and the signal holds the lerped point at that sum; repolling panics |
| Signal.Tween | src/signal.rs:140-153 | `Signal::tween` returns an executor with one unflagged step and a step future at sum 0 with a fresh capacity-1 completion channel |
| Tween.NewTween | src/tween.rs:17-30 | a new tween starts with x at the start of its range |
| Tween.Moved | src/tween.rs:82-90 | each step moves x by (delta/time)(end - start), which is the decreasing-range branch's subtraction as well |
| Tween.StepTween | src/tween.rs:78-93 | a tween is kept exactly when its moved x has not passed end (x >= end when decreasing, x <= end otherwise), with x moved |
| Tween.StepAll | src/tween.rs:78-93 | the `retain_mut` loop keeps exactly `Pass` and calls each runner once, in order, with its moved x |
| Tween.AdvanceClosedForm | src/tween.rs:78-93 | after n steps x = start + n (delta/time)(end - start) |
| Tween.WithinIff | src/tween.rs:82-93 | after n steps a tween with start != end is within range exactly when n delta/time <= 1 |
| Tween.SingleTweenRun | src/tween.rs:77-100 | a lone tween survives n rounds exactly while n delta/time <= 1, and then at the advanced position |
| Tween.PassOne | src/tween.rs:78-93 | one round over one tween keeps it, moved, exactly when the move stays in range |
| Tween.EmptyRangeStays | src/tween.rs:89-100 | a tween with start = end never moves and is always kept |
| Tween.EmptyRangeNeverEnds | src/tween.rs:89-100 | with such a tween the list never empties, so the future never completes |
| Tween.KeepsStuck | src/tween.rs:89-93 | a tween with start = end survives every round |
| Tween.AlternatesSnoc | src/tween.rs:95-96 | the sent messages alternate update and present(1), one pair per iteration |
| Tween.TweenRun.constructor | src/tween.rs:74-75 | the running future starts by reading the delta, nothing sent |
| Tween.TweenRun.ReadDelta | src/tween.rs:76 | the delta is read once through `info` and stepping begins |
| Tween.TweenRun.Step | src/tween.rs:78-93 | one `retain_mut` pass over the tweens, recorded in the trace of rounds |
| Tween.TweenRun.Update | src/tween.rs:95 | the update enqueues one Submit tagged with the scene id |
| Tween.TweenRun.Present | src/tween.rs:96-100 | present(1) waits one frame; once it finishes the loop stops exactly when the list is empty; a fresh wait is never finished in the same poll |
| Tween.TweenRun.Rest | src/tween.rs:95-96 | the update and present of one iteration, pending after at most two messages |
| Tween.TweenRun.Round | src/tween.rs:78-96 | one full iteration: step, then update and present |
| Tween.TweenRun.Resume | src/tween.rs:96-100 | resuming in present ends Ready exactly when the list is empty |
| Tween.TweenRun.Poll | src/tween.rs:75-102 | Ready exactly when the loop ends, with no tween left; the first poll reads the delta and runs one round; the inbox grows by exactly the tagged messages sent; repolling panics |
| Tween.TweenBuilder.constructor | src/tween.rs:45-52 | a builder starts in Init with its one tween |
| Tween.TweenBuilder.AddTween | src/tween.rs:54-64 | `tween` appends a new tween only in Init; later calls change nothing |
| Tween.TweenBuilder.Poll | src/tween.rs:70-119 | the first poll moves Init to Running over the collected tweens and polls the new future at once; later polls forward; Ready only with the list emptied |
| Tween.SceneTween | src/scene.rs:54-61 | `SceneTask::tween` returns a builder in Init holding exactly one tween |
| Engine.Running | src/engine.rs:162-163 | `retain` over the scenes never adds one |
| Engine.RunningSpec | src/engine.rs:162-163 | a scene survives exactly when it was there and its task has not finished |
| Engine.RunningIncreasing | src/engine.rs:162-163 | `retain` keeps the order, so scene ids still increase |
| Engine.RunningAppend | src/engine.rs:162-163 | `retain` distributes over concatenation |
| Engine.RunningNone | src/engine.rs:162-163 | with nothing finished every scene is kept |
| Engine.RunningTwice | src/engine.rs:162-163 | two prunings remove what either would |
| Engine.BufferLen | src/engine.rs:59 | the audio buffer length is samples*channels/fps rounded to nearest |
| Engine.KindIndex | src/engine.rs:139-142 | dispatch finds the first registered manager of the tag's kind, or none |
| Engine.NewManager | src/engine.rs:101-103 | `T::default()`: a fresh manager of the kind with no node and nothing pending |
| Engine.UpdateEach | src/engine.rs:154-158 | the Submit loop updates every registered manager, in order, and no manager gains a receiver |
| Engine.CreateAt | src/engine.rs:146-153 | CreateRef goes to the first manager of the tag's kind, whose fresh raw node is sent into the reply slot; it panics exactly when the scene's receiver is gone; with no such manager the slot is dropped unanswered |
| Engine.ReplyFound | src/engine.rs:146-153 | the same once the search has stopped |
| Engine.DismissAt | src/engine.rs:146-153 | with no matching manager the reply sender is dropped and no manager changes |
| Engine.BuildAt | src/engine.rs:138-145 | CreateElement goes to the first manager of the tag's kind; it panics exactly when that manager's `init_node` does; with no such manager nothing changes |
| Engine.InitFound | src/engine.rs:138-145 | the same once the search has stopped |
| Engine.FinishedBy | src/engine.rs:162-163 | the scenes finished by the end of some turns include those of each turn |
| Engine.Frames | src/engine.rs:135-137 | the WaitNextFrame slots among some requests, in order |
| Engine.FramesFirst | src/engine.rs:133-137 | a turn takes at most one message: the slots it adds are those of the oldest request alone |
| Engine.NoneSettledNext | src/engine.rs:165-167 | a failed exit test extends the run of turns that did not stop |
| Engine.ScenesAfterNext | src/engine.rs:162-163 | each turn prunes the scenes finished in that tick |
| Engine.WaitersAfterNext | src/engine.rs:133-137 | each turn appends the slot of the message it takes, if that is a WaitNextFrame |
| Engine.AfterNext | src/engine.rs:131-168 | one turn of the loop moves the scenes, waiters and remaining inbox on by one |
| Engine.WaitersMono | src/engine.rs:135-137 | the waiters are only ever added within a run |
| Engine.ScenesMono | src/engine.rs:162-163 | the running scenes never grow within a run |
| Engine.SettledStays | src/engine.rs:165-167 | once the exit test holds it keeps holding, so `run` stops at the first turn it holds |
| Engine.WakeAll | src/engine.rs:127-129 | waking the waiters succeeds exactly when every receiver is alive, and each slot then holds `()` |
| Engine.RenderOne | src/engine.rs:110-113 | one manager's render and audio_process keep the buffer length; only an audio manager writes samples |
| Engine.RenderAllKeepsLength | src/engine.rs:110-113 | rendering all managers keeps the buffer length |
| Engine.RenderAllSilentWithoutAudio | src/engine.rs:110-113 | without an audio manager the buffer stays as it was |
| Engine.RenderAt | src/engine.rs:111-112 | one manager's render then audio_process equals `RenderOne` on the buffer, and leaves the manager in `RenderedLive`: new video textures, audio queues drained and cursors moved |
| Engine.RenderedLivesRectsStay | src/engine.rs:110-113 | when rendering all managers succeeds there is one new state per manager, and a rect manager's is its current state |
| Engine.RenderVideoAt | src/main.rs:720-754 | the same for a video manager: its videos end in `RenderedAll`'s textures |
| Engine.RenderAudioAt | src/main.rs:1387-1403 | the same for an audio manager: its audios end with the queues and cursors `ProcessAll` leaves |
| Engine.RenderNext | src/engine.rs:110-113 | one loop iteration moves `RenderAll` of the remaining managers on by one, puts the `i`th manager in its `RenderedLive` state and leaves every other manager unchanged |
| Engine.LivesFrom | src/engine.rs:110-113 | the new states of the managers from `i` on are the `i`th manager's followed by the rest's from the buffer it leaves, or none once it panics |
| Engine.RenderStep | src/engine.rs:110-113 | one loop iteration also moves the remaining managers' new states on by one, with the `i`th manager now in the first of them |
| Engine.RenderOnly | src/engine.rs:110-113 | rendering one manager puts it in its `RenderedLive` state and leaves every other manager untouched |
| Engine.RenderEach | src/engine.rs:110-113 | the loop over the managers, in order, leaves the buffer at `RenderAll` and every manager in its `RenderedLives` state, or panics exactly when `RenderAll` does |
| Engine.Silence | src/engine.rs:107-109 | silence is the right number of zero samples |
| Engine.Zero | src/engine.rs:107-109 | the zeroing loop sets every sample to 0 |
| Engine.Silenced | src/engine.rs:107-109 | zeroing the buffer makes render start from silence, for both the samples and the managers' new states |
| Engine.RenderFrame | src/engine.rs:106-114 | render leaves the buffer at `RenderAll` of the managers over silence and every manager in its `RenderedLives` state over silence, or panics exactly when `RenderAll` does |
| Engine.Engine.constructor | src/engine.rs:43-71 | `new`: info with delta 1/fps, an open empty inbox, no scenes, waiters or managers, counter 0, a zeroed audio buffer of the rounded length |
| Engine.Engine.CreateScene | src/engine.rs:77-99 | the new scene gets id = counter and is appended last; the counter increments, so ids are distinct and increasing; its task sends to the engine's inbox with that id |
| Engine.Engine.RegisterNode | src/engine.rs:101-104 | a fresh default manager of the kind is appended last |
| Engine.Engine.AddManager | src/engine.rs:101-104 | a manager sharing nothing with the engine is appended last |
| Engine.Engine.Finished | src/engine.rs:116-118 | finished exactly when no scene is running |
| Engine.Engine.Drain | src/engine.rs:127-129 | every waiter receives `()` and `waiting` is left empty; it panics exactly when some waiter's receiver is gone |
| Engine.Engine.TakeWaiters | src/engine.rs:127 | `drain(..)` hands the waiters out and empties `waiting` |
| Engine.Engine.WakeTaken | src/engine.rs:128 | each taken waiter is sent `()`, panicking exactly when a receiver is gone |
| Engine.Engine.UpdateAll | src/engine.rs:154-158 | every manager is updated, in order |
| Engine.Engine.ServeSubmit | src/engine.rs:154-158 | the Submit arm never panics and updates every manager |
| Engine.Engine.WaitFor | src/engine.rs:135-137 | WaitNextFrame only appends its slot to the waiters, unanswered |
| Engine.Engine.AnswerRef | src/engine.rs:146-153 | the CreateRef arm answers through the first manager of the kind |
| Engine.Engine.ServeRef | src/engine.rs:146-153 | the same, keeping the rest of the inbox owned |
| Engine.Engine.BuildElement | src/engine.rs:138-145 | the CreateElement arm initialises the node at the first manager of the kind |
| Engine.Engine.ServeElement | src/engine.rs:138-145 | the same, keeping the rest of the inbox owned |
| Engine.Engine.Serve | src/engine.rs:134-159 | dispatch by message type: waiters grow only for WaitNextFrame; Submit updates every manager; CreateRef and CreateElement as above; it panics exactly when the message fails |
| Engine.Engine.Prune | src/engine.rs:162-163 | scenes whose task finished are removed; the rest keep their order |
| Engine.Engine.Take | src/engine.rs:133 | `try_recv` takes the oldest message, None exactly when the inbox is empty |
| Engine.Engine.Step | src/engine.rs:133-163 | one iteration takes at most one message, serves it, prunes the scenes finished in the tick; it panics exactly when the taken message fails |
| Engine.Engine.Turn | src/engine.rs:131-168 | one iteration moves the loop state on by one turn, and can panic only while requests queued before `run` remain |
| Engine.Engine.Run | src/engine.rs:126-169 | `run` first releases the waiters: it panics when one's receiver is gone, and otherwise every waiter of the previous frame holds `()`; a later panic needs a queued request; it returns only at the first turn where no more scenes run than wait, with every earlier turn unsettled; Pending when the ticks run out first |
| Engine.Engine.Loop | src/engine.rs:131-168 | the loop returns at the first turn where no more scenes run than wait, every earlier turn unsettled, the engine as `After` that many turns; Pending when the ticks run out first; it panics only when requests were queued |
| Engine.Engine.Render | src/engine.rs:106-114 | the audio buffer is zeroed, then each manager renders and processes audio in order; the buffer is `RenderAll` over silence and the managers are in their `RenderedLives` states over silence: videos hold their new textures, audio queues are drained and cursors moved |
| Node.Manager.TyId | src/node.rs:53-55 | the id names the concrete manager kind, and only it |
| Node.Manager.Init | src/node.rs:32-34 | `init` forwards: rect and video load their shader; the audio manager's default does nothing |
| Node.Manager.CreateNode | src/node.rs:41-43 | `create_node` forwards; the raw node carries the manager's own kind and is the one now pending |
| Node.Manager.InitNode | src/node.rs:36-39 | the downcast panics on a builder of another kind and changes nothing; otherwise it forwards |
| Node.Manager.Update | src/node.rs:45-47 | `update` forwards; managers only lose receivers |
| Node.Manager.Render | src/node.rs:49-51 | `render` forwards; the audio manager's default does nothing |
| Node.Manager.AudioProcess | src/node.rs:57-59 | `audio_process` forwards for audio; other managers leave the buffer unchanged |
| Common.ValueOr | src/rect.rs:218-229 | a received value, or the old one when none arrived |
| Common.RetainMut | src/rect.rs:215-242 | `retain_mut` never adds elements |
| Common.KeptIndices | src/rect.rs:215-242 | the kept positions are in range and ascending |
| Common.RetainMutSpec | src/rect.rs:215-242 | the kept elements are exactly f's results at the positions f keeps, in order |
| Rect.NewRectBuilder | src/rect.rs:22-28 | a new builder keeps size and colour and sits at [0, 0] |
| Rect.WithPosition | src/rect.rs:30-33 | `with_position` changes only the position |
| Rect.RectVertexArray | src/rect.rs:117-124 | the rect vertex array uses the position+colour layout |
| Rect.BuildMesh | src/rect.rs:246-268 | four vertices of the builder's colour at position + (-s0,-s1), (-s0,+s1), (+s0,+s1), (+s0,-s1) |
| Rect.NRectInner.Senders | src/rect.rs:194-213 | the raw node's senders are the pending consumers' channels |
| Rect.UpdateRect | src/rect.rs:216-241 | a rect is dropped exactly when its drop signal holds a value; otherwise received fields replace the builder's, others stay, and the mesh is re-uploaded exactly when something arrived |
| Rect.Mails | src/rect.rs:217-229 | the values each rect's signals hold when `update` runs |
| Rect.UpdateKeepsManaged | src/rect.rs:215-242 | after `update` the kept rects are valid and own distinct receivers, a subset of those before |
| Rect.RectNodeManager.constructor | src/rect.rs:102-108 | default: no rects, nothing pending, no shader |
| Rect.RectNodeManager.Init | src/rect.rs:130-167 | `init` loads the shader and keeps the rects and pending |
| Rect.RectNodeManager.Render | src/rect.rs:183-192 | render panics without a shader and otherwise draws every rect's vertex array, in order |
| Rect.RectNodeManager.CreateNode | src/rect.rs:194-213 | fresh consumers replace any pending ones (whose receivers close) and the matching empty open producers are returned |
| Rect.RectNodeManager.InitNode | src/rect.rs:169-181 | appends exactly one rect from the builder, the pending consumers and its mesh, leaving pending empty; panics when nothing is pending |
| Rect.RectNodeManager.Update | src/rect.rs:215-242 | the rects become `retain_mut` of the old rects with their mails under `UpdateRect` |
| Rect.RectNodeManager.StepAll | src/rect.rs:216-241 | the loop computes `retain_mut` of the rects under `UpdateRect` |
| Rect.RectNodeManager.StepAt | src/rect.rs:216-241 | stepping rect i reads its mail and leaves every other rect's signals untouched |
| Rect.RectNodeManager.StepRect | src/rect.rs:216-241 | stepping one rect empties its signals (closing them when it is dropped) and returns `UpdateRect` of its mail |
| Video.NewVideoBuilder | src/main.rs:529-537 | a new builder has size [1, 1] at [0, 0] |
| Video.VideoVertexArray | src/main.rs:569-576 | the video vertex array uses the position+uv layout |
| Video.CreateMesh | src/main.rs:757-784 | four vertices around the position with the size as half-extent and uvs (0,1), (0,0), (1,0), (1,1) |
| Video.MeshUpright | src/main.rs:757-784 | with a positive size the texture is upright: a higher corner samples a smaller v, a corner further right a larger u |
| Video.RVideoInner.Senders | src/main.rs:673-689 | the raw node's senders are the pending consumers' channels |
| Video.UpdateVideo | src/main.rs:692-717 | a video is dropped exactly when its drop signal fired; otherwise received position and size replace the builder's and the mesh is re-uploaded exactly when something arrived |
| Video.Mails | src/main.rs:693-712 | the values each video's signals hold when `update` runs |
| Video.UpdateKeepsManaged | src/main.rs:691-718 | after `update` the kept videos are valid and own distinct receivers |
| Video.RenderVideo | src/main.rs:725-750 | a new frame replaces the texture data, sized from the stream on first creation and kept after; no frame keeps the texture; a failing read panics |
| Video.AudioStreamCannotRender | src/main.rs:725-750 | a video node over an audio stream with a frame under the cursor panics, since an audio stream has no width |
| Video.TextureSticks | src/main.rs:726-728 | once created, a texture keeps its size |
| Video.RenderedAllSpec | src/main.rs:723-752 | rendering all videos panics exactly when one does, and otherwise changes only each video's texture |
| Video.VideoNodeManager.constructor | src/main.rs:613-619 | default: no videos, nothing pending, no shader |
| Video.VideoNodeManager.Init | src/main.rs:625-659 | `init` loads the shader |
| Video.VideoNodeManager.CreateNode | src/main.rs:673-689 | fresh consumers replace any pending ones and the matching producers are returned |
| Video.VideoNodeManager.InitNode | src/main.rs:661-671 | appends exactly one video from the builder and the pending consumers; panics when nothing is pending |
| Video.VideoNodeManager.Update | src/main.rs:691-718 | the videos become `retain_mut` of the old ones with their mails under `UpdateVideo` |
| Video.VideoNodeManager.StepAll | src/main.rs:692-717 | the loop computes `retain_mut` under `UpdateVideo` |
| Video.VideoNodeManager.StepAt | src/main.rs:692-717 | stepping video i leaves every other video's signals untouched |
| Video.VideoNodeManager.StepVideo | src/main.rs:692-717 | stepping one video returns `UpdateVideo` of its mail |
| Video.VideoNodeManager.Render | src/main.rs:720-754 | panics without a shader or when a video's read does; otherwise each video gets its new texture and reports whether it has one |
| Video.VideoNodeManager.RenderEach | src/main.rs:723-752 | the loop over the videos computes `RenderedAll` |
| Video.VideoNodeManager.RenderOne | src/main.rs:725-743 | one video's texture step is `Rendered` |
| Audio.ProcessAudio | src/main.rs:1388-1401 | a node takes the first min(buffer length, queued) samples of its queue, refilling from the stream first; a failing read panics |
| Audio.Mix | src/main.rs:1399-1401 | the taken samples are added into the buffer prefix; the rest stays |
| Audio.MixIsSum | src/main.rs:1387-1403 | each output sample is the input sample plus the sum of every node's contribution there |
| Audio.ProcessAllPerNode | src/main.rs:1387-1403 | each node's new state is its own step, independent of the others |
| Audio.UpdateAudio | src/main.rs:1379-1384 | an audio node is removed exactly when its drop signal fired, and otherwise kept unchanged |
| Audio.Mails | src/main.rs:1379-1384 | each node's drop signal as `update` finds it |
| Audio.UpdateKeepsManaged | src/main.rs:1378-1385 | kept nodes were there before and own distinct receivers |
| Audio.SameDropsManaged | src/main.rs:1387-1403 | nodes with the same drop signals stay managed, also against the pending one |
| Audio.AudioNodeManager.constructor | src/main.rs:1354-1358 | default: no nodes, nothing pending |
| Audio.AudioNodeManager.CreateNode | src/main.rs:1370-1376 | a fresh consumer replaces the pending one, whose receiver closes, and its producer is returned |
| Audio.AudioNodeManager.InitNode | src/main.rs:1365-1368 | appends one node with the stream, an empty queue and offset 0; panics when nothing is pending |
| Audio.AudioNodeManager.Update | src/main.rs:1378-1385 | nodes become `retain_mut` under `UpdateAudio`, and every drop signal is read |
| Audio.AudioNodeManager.StepAll | src/main.rs:1379-1384 | the loop computes `retain_mut` under `UpdateAudio` |
| Audio.AudioNodeManager.AudioProcess | src/main.rs:1387-1403 | the buffer and nodes become `ProcessAll`, or it panics exactly when that does |
| Audio.ProcessOne | src/main.rs:1389-1401 | one node's step, with its samples mixed into the buffer in place |
| Audio.PanicPersists | src/main.rs:1387-1403 | one node's panic panics the whole pass |
| Audio.ProcessAllKeepsManaged | src/main.rs:1387-1403 | processing keeps every node's drop signal |
| Media.Gc | src/main.rs:922-929 | gc panics exactly when index > 100 (not the sentinel) with fewer than 50 frames; otherwise drops the 50 oldest and lowers index by 50 |
| Media.GcKeepsCursorFrame | src/main.rs:922-929 | gc keeps the frame under the cursor |
| Media.NextFromSentinel | src/main.rs:894-909 | from the sentinel `next` moves to 0 exactly when there are frames |
| Media.NextStopsPastLast | src/main.rs:894-909 | `next` moves exactly while index < len, and can reach len, one past the last frame |
| Media.PrevFromSentinel | src/main.rs:911-920 | `prev` from the sentinel moves to usize::MAX - 1, where gc then panics |
| Media.InterleaveAt | src/main.rs:1019-1031 | interleaving yields p0[0], p1[0], p0[1], ..., stopping as soon as the plane due next is exhausted |
| Media.FirstTurn | src/main.rs:1019-1031 | each turn takes plane 0 first |
| Media.InterleavePlanes | src/main.rs:1019-1031 | the loop computes the interleaving |
| Media.GatherStep | src/main.rs:1005-1038 | gathering frames is one frame's samples before the rest |
| Media.GatherTurn | src/main.rs:1011-1033 | a loop step whose frame index leaves `usize` panics the whole gather; any other step appends that frame's samples, or nothing for a missing frame |
| Media.AudioBufferForward | src/main.rs:1005-1038 | forwards, `audio_buffer(from)` is the samples of the last current - from frames before the cursor |
| Media.GatherForward | src/main.rs:1005-1038 | the gather loop forwards from any frame |
| Media.GatherForwardUnderflow | src/main.rs:1012-1016 | a gather reaching below frame 0 panics |
| Media.AudioBufferBackward | src/main.rs:1005-1038 | backwards, `audio_buffer(from)` is the samples of the current - from frames after the cursor, farthest first, missing frames adding nothing; empty when the cursor is on the last frame |
| Media.GatherBackward | src/main.rs:1011-1033 | the gather loop backwards reads frames index + (diff - i) for each step i, skipping those past the last frame |
| Media.SamplesDownPastEnd | src/main.rs:1017-1032 | frames past the last one contribute no samples (the `frames.get` miss) |
| Media.GatherBackwardOverflow | src/main.rs:1012-1016 | a gather carrying the cursor past `usize::MAX` panics |
| Media.VideoStream.constructor | src/main.rs:853-861 | a new stream has no frames and the cursor at the sentinel |
| Media.VideoStream.Push | src/main.rs:889-891 | a decoded frame is appended, the cursor kept |
| Media.VideoStream.CollectGarbage | src/main.rs:922-929 | the frames and cursor become `Gc`, or it panics exactly when that does |
| Media.VideoStream.Next | src/main.rs:894-909 | gc first, then the cursor moves as `next` does and reports whether it moved |
| Media.VideoStream.Prev | src/main.rs:911-920 | `prev` decrements whenever index > 0, the sentinel included |
| Media.VideoStream.Clear | src/main.rs:931-935 | the frames are emptied and the cursor returns to the sentinel |
| Media.VideoStream.Data | src/main.rs:937-952 | None exactly at the sentinel; a panic exactly past the last frame or at a plane index not below the frame's `planes()` count (the `stride`/`plane_height` check, at most 8 planes); else the plane's bytes |
| Media.VideoStream.Width | src/main.rs:954-960 | None exactly at the sentinel, else the frame's width, or a panic past the frames |
| Media.VideoStream.Height | src/main.rs:962-968 | None exactly at the sentinel, else the frame's height, or a panic past the frames |
| Media.NextThenReadPastLast | src/main.rs:894-909 | with one frame, `next` twice leaves index 1 and `data`/`width` then panic |
| Media.AudioStream.constructor | src/main.rs:984-993 | a new stream has no frames, the cursor at the sentinel and counts from 0 |
| Media.AudioStream.Push | src/main.rs:1062 | a decoded frame is appended |
| Media.AudioStream.CollectGarbage | src/main.rs:1101-1108 | the frames and cursor become `Gc`, or it panics exactly when that does |
| Media.AudioStream.Next | src/main.rs:1069-1086 | gc first, then the cursor moves as `next` does, counting the frame and marking the direction forward |
| Media.AudioStream.Prev | src/main.rs:1088-1099 | `prev` decrements whenever index > 0, counts the move and marks the direction backward |
| Media.AudioStream.Clear | src/main.rs:1110-1114 | the frames are emptied and the cursor returns to the sentinel |
| Media.AudioStream.Data | src/main.rs:1116-1131 | None exactly at the sentinel; a panic exactly past the last frame or at a plane index of 8 or more (the fixed `data`/`linesize` arrays); else the plane's bytes |
| Media.AudioStream.SampleCount | src/main.rs:1133-1142 | None exactly at the sentinel, else the frame's sample count |
| Media.AudioStream.Channels | src/main.rs:1144-1153 | None exactly at the sentinel, else the frame's channel count |
| Media.AudioStream.AudioBuffer | src/main.rs:1005-1038 | `audio_buffer` computes `AudioBufferOf` |
| Media.StreamRef.Data | src/main.rs:820 | `data` dispatches to the stream |
| Media.StreamRef.Width | src/main.rs:835-837 | width is the video's, None for audio by the trait default |
| Media.StreamRef.Height | src/main.rs:838-840 | height is the video's, None for audio by the trait default |
| Media.StreamRef.AudioBuffer | src/main.rs:822-824 | None for video by the trait default, the audio computation otherwise |
| Media.CountOfTypeCons | src/main.rs:1233-1265 | the count of streams of a type over a cons |
| Media.NthOfTypeSpec | src/main.rs:1233-1265 | the n-th stream of a type exists exactly when there are more than n, is of that type and has n of that type before it |
| Media.MediaFile.constructor | src/main.rs:1197-1231 | a media file holds its streams in order |
| Media.MediaFile.NthStream | src/main.rs:1233-1265 | the counting loop returns the n-th stream of the type |
| Media.MediaFile.VideoStreamAt | src/main.rs:1233-1248 | `video(n)` is the n-th video stream, None when there are fewer |
| Media.MediaFile.AudioStreamAt | src/main.rs:1250-1265 | `audio(n)` is the n-th audio stream, None when there are fewer |
| VertexArray.GlEnum | src/gcx/vertex_array.rs:160-166 | F32 is GL_FLOAT |
| VertexArray.ArrayType | src/gcx/vertex_array.rs:84-92 | `[f32; N]` has N components of 4 bytes each |
| VertexArray.NewField | src/gcx/vertex_array.rs:42-51 | a field records its type's byte size and component count |
| VertexArray.ArrayFields | src/gcx/vertex_array.rs:59-64 | `[f32; N]` has one field, "position" |
| VertexArray.ArrayFieldShape | src/gcx/vertex_array.rs:59-64 | that field is 4N bytes of N F32 components, the whole layout |
| VertexArray.Pushed | src/gcx/vertex_array.rs:153-168 | one attribute per field |
| VertexArray.PushedAt | src/gcx/vertex_array.rs:153-168 | attribute k has the field's base and component count, unnormalised, at the summed size of the preceding fields |
| VertexArray.LayoutTiles | src/gcx/vertex_array.rs:153-172 | the offsets tile the layout: the last field ends at the total size |
| VertexArray.VertexArrayBuilder.constructor | src/gcx/vertex_array.rs:118-124 | a builder starts with no attributes |
| VertexArray.VertexArrayBuilder.AddBuffer | src/gcx/vertex_array.rs:126-136 | an array buffer replaces the current one; any other kind panics |
| VertexArray.VertexArrayBuilder.AddAttrib | src/gcx/vertex_array.rs:138-141 | an attribute is appended as given |
| VertexArray.VertexArrayBuilder.Build | src/gcx/vertex_array.rs:143-188 | panics exactly with no attributes and a zero-size layout; explicit attributes are used as given, in order; otherwise one attribute per field at its offset, every stride the total size; attribute i sits at location i |
| Color.ByteOf | src/color.rs:35-38 | each masked byte is below 256 |
| Color.FromI32 | src/color.rs:33-42 | every channel from an i32 lies in [0, 1] |
| Color.Pack | src/color.rs:33-42 | four bytes pack into one i32, negative values included |
| Color.FromPacked | src/color.rs:33-42 | alpha comes from bits 0-7, red 8-15, green 16-23, blue 24-31, each over 255, negative inputs included |
| Color.FromRgb | src/color.rs:44-53 | three channels are kept and alpha is 1 |
| Color.FromRgba | src/color.rs:55-64 | all four channels are copied |
| Color.ConstantsOpaque | src/color.rs:23-26 | RED, GREEN, BLUE and ALPHA are opaque; ALPHA is black; RED and BLUE are their packed values |
| Color.ColorField | src/color.rs:12-20 | Color is a 16-byte attribute of 4 F32 components |
| FFmpeg.FromCUint | src/ffmpeg.rs:171-311 | an errno maps to its named variant, and to Unknown of that number exactly when it has no name |
| FFmpeg.FromCUintTail | src/ffmpeg.rs:171-311 | the same for the second half of the table |
| FFmpeg.FromCInt | src/ffmpeg.rs:313-346 | AVERROR tags map to their variants; other codes are negated and decoded as errno; i32::MIN panics, and only it |
| FFmpeg.TagsAreLarge | src/ffmpeg.rs:315-342 | every AVERROR tag is far from the errno range |
| FFmpeg.NegatedErrno | src/ffmpeg.rs:344 | a negative errno code decodes as its errno |
| FFmpeg.UnknownIsNegated | src/ffmpeg.rs:308-344 | an unnamed code becomes Unknown of the positive number, not the original code |
| FFmpeg.UnknownTag | src/ffmpeg.rs:335 | AVERROR_UNKNOWN becomes Unknown(0) |
| FFmpeg.TagsDecode | src/ffmpeg.rs:315-342 | every AVERROR tag decodes to its own variant |
| FFmpeg.AliasedErrnos | src/ffmpeg.rs:171-311 | errnos with two names (EAGAIN/EWOULDBLOCK, EDEADLK/EDEADLOCK, EOPNOTSUPP/ENOTSUP) decode to the name whose arm comes first |
| FFmpeg.ShadowedNames | src/ffmpeg.rs:171-311 | the shadowed names are never produced |
| FFmpeg.CodecTypeFrom | src/ffmpeg.rs:431-443 | 0..5 map to Video, Audio, Data, Subtitle, Attachment, Nb, and every other integer to Unknown |
| FFmpeg.CodecTypeRoundTrip | src/ffmpeg.rs:431-443 | each known codec type decodes back from its code |
| FFmpeg.PixelFormatFrom | src/ffmpeg.rs:819-1058 | a declared code maps to its format, any other integer to NONE |
| FFmpeg.PixelFormatRoundTrip | src/ffmpeg.rs:819-1058 | `from(f as i32) == f` for every declared format |

## Left out

- The windowing and audio-device backend and the demo scene of `src/main.rs`, the OpenGL wrappers under `src/gcx/` other than the attribute layout, and the GL calls of every manager's `init` and `render`: they are I/O with no state the model observes. The managers keep a `shaderReady` flag and the texture decision only.
- The FFmpeg wrapper structs, `Media::new`, `send_packet` and `Media::next`: FFI decoding. Streams receive frames through `Push`, and `Media.MediaFile.constructor` takes the streams as given.
- `SCell`/`RCell` of `src/lib.rs` and the trait declarations of `src/element.rs`: no behaviour.
- f32 rounding: values are reals; `Info::fps` is not modelled, and the `delta` of `Engine::new` is 1/fps exactly.
- tokio internals (`yield_now`, `JoinHandle::is_finished`, wakers): scene completion is given per turn as `Engine.Tick.finished`, and a message the scenes would send while `run` is on is not modelled; the inbox holds what was sent before `run` began.
- `Engine::init` (`src/engine.rs:120-124`) only forwards to each manager's `init`, which `Node.Manager.Init` models; the engine has no method of its own for it.
- `Engine::audio_buffer`: a read-only accessor; the buffer is the field `audioBuffer`.
- Engine.Engine.Run, Engine.Engine.Loop: a panic of a later turn is reported as `Panicked` without stating which message caused it, only that a request was queued; whether a request `Fails` depends on the managers' state at its turn, which `Engine.Engine.Step` states per turn.
- Engine.Engine.Run: `run` loops without bound; the model turns it over a finite sequence of ticks and returns `Pending` when they run out.
- Signal.Executor.Poll: the step futures and the `end` future are not held; each poll receives their poll outcomes as parameters.
- Signal.SetFuture.Poll: `set` follows the code, which waits for room in the channel, rather than displacing an unread value.
- Tween.TweenRun.Step: runners are abstract numbers; a call is recorded as (runner, x) rather than run.
- Tween.StepTween, Signal.Tween, Signal.SignalTween.constructor, Tween.TweenBuilder.AddTween, Tween.SceneTween: a tween with time 0 is not modelled (division by zero in f32 gives an infinity or NaN); these members, the `Tween.LiveTween` type and `Signal.SignalTween`'s invariant require a time other than 0.
- Rect.RectNodeManager.Update: the per-rect facts that the signals were emptied and closed on drop are stated on `StepAt`/`StepRect` only, not gathered over the whole loop.
- Video.VideoNodeManager.Update: the same, stated on `StepAt`/`StepVideo` only.
- FFmpeg.FromCInt, Media.AudioBufferOf: integer overflow follows a debug build, where it panics (`-value` at `i32::MIN`, `current - from` and the cursor arithmetic of `audio_buffer`); the wrap-around of a release build is not modelled. `Media.Gc`'s panic is the bounds check of `drain(..50)`, which both builds keep, and its `index - 50` cannot underflow.
- Video.RenderVideo: the texture upload, format and sampler calls are GL; the model keeps the texture's size and bytes.
- Audio.ProcessAudio: the stream read is given through the `audio_buffer` model, not the decoder.
