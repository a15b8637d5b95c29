/**
 * Tweens (src/tween.rs): a value moved across a range over a duration, one
 * step per frame, with a runner called on every step. A `TweenBuilder`
 * collects tweens until its first poll, then runs them all together: each
 * round steps every tween, drops the ones that have passed their end, asks
 * the engine to update its nodes and waits one frame; the run finishes after
 * the round that leaves no tween.
 *
 * A runner is a closure the model cannot see; it is named by a number and
 * its calls are recorded as (runner, x) pairs.
 */
module Tween {
  import opened Common
  import opened Channel
  import opened EngineMessage
  import opened Scene

  /** A tween: its range `start..=end`, its duration, its runner and its current point `x`. */
  datatype Tween = Tween(start: real, end: real, time: real, runner: nat, x: real)

  /** A tween whose duration is not zero (see "Left out" in the README). */
  type LiveTween = t: Tween | t.time != 0.0 witness Tween(0.0, 0.0, 1.0, 0, 0.0)

  /** `Tween::new`: a tween starts at the start of its range. */
  function NewTween(start: real, end: real, time: real, runner: nat): (t: Tween)
    ensures t.x == t.start == start && t.end == end && t.time == time && t.runner == runner
  {
    Tween(start, end, time, runner, start)
  }

  /**
   * The point a step moves `t` to, written as the source writes it with one
   * branch per direction. Both branches move `x` by the same signed amount:
   * `delta / time` of the range, toward `end`.
   */
  function Moved(t: LiveTween, delta: real): (x: real)
    ensures x == t.x + (delta / t.time) * (t.end - t.start)
  {
    if t.start > t.end then t.x - (delta / t.time) * (t.start - t.end)
    else t.x + (delta / t.time) * (t.end - t.start)
  }

  /** `x` has not passed the end of `t`'s range, in the direction `t` runs. */
  predicate Within(t: Tween, x: real)
  {
    if t.start > t.end then x >= t.end else x <= t.end
  }

  /**
   * The closure `retain_mut` runs on each tween: move `x`, call the runner
   * with it, and keep the tween while `x` has not passed `end`.
   */
  function StepTween(t: LiveTween, delta: real): (r: Option<LiveTween>)
    ensures r.Some? <==> Within(t, Moved(t, delta))
    ensures r.Some? ==> r.value == t.(x := Moved(t, delta))
  {
    var x := Moved(t, delta);
    var u: LiveTween := t.(x := x);
    if Within(t, x) then Some(u) else None
  }

  /** The same frame time for each of `n` tweens. */
  function Deltas(n: nat, delta: real): (ds: seq<real>)
    ensures |ds| == n
  {
    seq(n, _ => delta)
  }

  /** One round of the run: `tweens.retain_mut(...)` with the frame time. */
  function Pass(ts: seq<LiveTween>, delta: real): (r: seq<LiveTween>)
    ensures |r| <= |ts|
  {
    RetainMut(ts, Deltas(|ts|, delta), StepTween)
  }

  /** The runner calls of one round: every tween's runner, in order, with its new point. */
  function Calls(ts: seq<LiveTween>, delta: real): (cs: seq<(nat, real)>)
    ensures |cs| == |ts|
  {
    seq(|ts|, i requires 0 <= i < |ts| => (ts[i].runner, Moved(ts[i], delta)))
  }

  /** The tweens left after `n` rounds. */
  function Passes(ts: seq<LiveTween>, delta: real, n: nat): (r: seq<LiveTween>)
    ensures |r| <= |ts|
  {
    if n == 0 then ts else Pass(Passes(ts, delta, n - 1), delta)
  }

  /** The runner calls of the first `n` rounds, in order. */
  function RunCalls(ts: seq<LiveTween>, delta: real, n: nat): seq<(nat, real)>
  {
    if n == 0 then [] else RunCalls(ts, delta, n - 1) + Calls(Passes(ts, delta, n - 1), delta)
  }

  /**
   * One round, as the loop of `retain_mut` does it: each tween in turn is
   * moved, its runner is called, and it is kept or dropped.
   */
  method StepAll(ts: seq<LiveTween>, delta: real) returns (kept: seq<LiveTween>, calls: seq<(nat, real)>)
    ensures kept == Pass(ts, delta)
    ensures calls == Calls(ts, delta)
  {
    kept, calls := [], [];
    var i := 0;
    while i < |ts|
      invariant 0 <= i <= |ts|
      invariant kept == RetainMut(ts[..i], Deltas(i, delta), StepTween)
      invariant calls == Calls(ts[..i], delta)
    {
      var t := ts[i];
      var x := t.x;
      if t.start > t.end {
        x := x - (delta / t.time) * (t.start - t.end);
        assert x == Moved(t, delta);
      } else {
        x := x + (delta / t.time) * (t.end - t.start);
        assert x == Moved(t, delta);
      }
      assert Calls(ts[..i + 1], delta) == Calls(ts[..i], delta) + [(t.runner, x)];
      calls := calls + [(t.runner, x)];
      if Within(t, x) {
        var u: LiveTween := t.(x := x);
        kept := kept + [u];
      }
      assert ts[..i + 1][..i] == ts[..i] && Deltas(i + 1, delta)[..i] == Deltas(i, delta);
      i := i + 1;
    }
    assert ts[..i] == ts;
  }

  /** `t` after `n` steps, whether or not it would have been dropped on the way. */
  function Advance(t: LiveTween, delta: real, n: nat): (u: LiveTween)
    ensures u.start == t.start && u.end == t.end && u.time == t.time && u.runner == t.runner
  {
    if n == 0 then t else var u := Advance(t, delta, n - 1); u.(x := Moved(u, delta))
  }

  /** After `n` steps a tween has moved `n · delta / time` of its range. */
  lemma {:induction false} AdvanceClosedForm(t: LiveTween, delta: real, n: nat)
    ensures Advance(t, delta, n).x == t.x + n as real * (delta / t.time) * (t.end - t.start)
  {
    if n > 0 {
      AdvanceClosedForm(t, delta, n - 1);
      var c := (delta / t.time) * (t.end - t.start);
      calc {
        Advance(t, delta, n).x;
        Advance(t, delta, n - 1).x + c;
        t.x + (n - 1) as real * c + c;
        { Dist((n - 1) as real, c); }
        t.x + n as real * c;
      }
    }
  }

  lemma Dist(m: real, c: real)
    ensures (m + 1.0) * c == m * c + c
  {
  }

  /**
   * A tween that starts at the start of a non-empty range and moves toward
   * its end (`delta / time > 0`) is still within its range after step `n`
   * exactly when `n · delta <= time`, in either direction.
   */
  lemma {:induction false} WithinIff(t: LiveTween, delta: real, n: nat)
    requires t.x == t.start != t.end && delta / t.time > 0.0
    ensures Within(t, Advance(t, delta, n).x) <==> n as real * (delta / t.time) <= 1.0
  {
    AdvanceClosedForm(t, delta, n);
    var a := n as real * (delta / t.time);
    var d := t.end - t.start;
    assert Advance(t, delta, n).x == t.start + a * d;
    if t.start > t.end {
      assert t.start + a * d - t.end == (1.0 - a) * (-d);
      SignOfScaled(a, -d);
    } else {
      assert t.end - (t.start + a * d) == (1.0 - a) * d;
      SignOfScaled(a, d);
    }
  }

  lemma SignOfScaled(a: real, d: real)
    requires d > 0.0
    ensures (1.0 - a) * d >= 0.0 <==> a <= 1.0
  {
    if a <= 1.0 {
      assert (1.0 - a) * d >= 0.0 * d;
    } else {
      assert (a - 1.0) * d > 0.0 * d;
    }
  }

  /**
   * A run of a single tween as above keeps it, advanced, for exactly the
   * rounds `n` with `n · delta <= time`, and is empty from the first round
   * that carries it past its end: the run ends in that round.
   */
  lemma {:induction false} SingleTweenRun(t: LiveTween, delta: real, n: nat)
    requires t.x == t.start != t.end && delta / t.time > 0.0
    ensures Passes([t], delta, n) == if n as real * (delta / t.time) <= 1.0 then [Advance(t, delta, n)] else []
  {
    if n > 0 {
      SingleTweenRun(t, delta, n - 1);
      var c := delta / t.time;
      if (n - 1) as real * c <= 1.0 {
        WithinIff(t, delta, n);
        PassOne(Advance(t, delta, n - 1), delta);
      } else {
        Dist((n - 1) as real, c);
        assert Passes([t], delta, n) == Pass([], delta);
      }
    }
  }

  /** One round over a single tween keeps it, moved, exactly when the move stays within its range. */
  lemma PassOne(u: LiveTween, delta: real)
    ensures Pass([u], delta) == if Within(u, Moved(u, delta)) then [u.(x := Moved(u, delta))] else []
  {
    assert [u][..0] == [] && Deltas(1, delta)[..0] == [];
  }

  /** A tween over an empty range (`start == end`) that sits at its start is kept unchanged by every step. */
  lemma EmptyRangeStays(t: LiveTween, delta: real)
    requires t.start == t.end == t.x
    ensures StepTween(t, delta) == Some(t)
  {
    assert Moved(t, delta) == t.x;
  }

  /**
   * A run holding such a tween never empties, so it never finishes: the
   * tween is still there, unchanged, after any number of rounds.
   */
  lemma {:induction false} EmptyRangeNeverEnds(ts: seq<LiveTween>, delta: real, n: nat, t: LiveTween)
    requires t in ts && t.start == t.end == t.x
    ensures t in Passes(ts, delta, n) && Passes(ts, delta, n) != []
  {
    if n > 0 {
      EmptyRangeNeverEnds(ts, delta, n - 1, t);
      KeepsStuck(Passes(ts, delta, n - 1), delta, t);
    }
  }

  lemma {:induction false} KeepsStuck(ts: seq<LiveTween>, delta: real, t: LiveTween)
    requires t in ts && t.start == t.end == t.x
    ensures t in Pass(ts, delta)
  {
    var n := |ts| - 1;
    EmptyRangeStays(t, delta);
    assert Deltas(|ts|, delta)[..n] == Deltas(n, delta);
    if ts[n] != t {
      assert t in ts[..n] by {
        var i :| 0 <= i < |ts| && ts[i] == t;
        assert ts[..n][i] == t;
      }
      KeepsStuck(ts[..n], delta, t);
    }
  }

  /** Where the run stands: reading the frame time, stepping, updating, presenting a frame, or finished. */
  datatype RunStage = ReadingDelta | Stepping | Updating | Presenting(wait: WaitFuture) | RunDone

  /** `ms` is `Submit`, a `WaitNextFrame`, `Submit`, a `WaitNextFrame`, and so on. */
  ghost predicate Alternates(ms: seq<Msg>)
  {
    forall i :: 0 <= i < |ms| ==> (ms[i].Submit? <==> i % 2 == 0)
  }

  /** `ts` and `cs` are the tweens left and the runner calls made after `n` rounds from `init`. */
  ghost predicate Traced(init: seq<LiveTween>, delta: real, n: nat, ts: seq<LiveTween>, cs: seq<(nat, real)>)
  {
    ts == Passes(init, delta, n) && cs == RunCalls(init, delta, n)
  }

  lemma AlternatesSnoc(ms: seq<Msg>, m: Msg)
    requires Alternates(ms) && (m.Submit? <==> |ms| % 2 == 0)
    ensures Alternates(ms + [m])
  {
  }

  /**
   * The future a `TweenBuilder` starts on its first poll: it reads the
   * frame time once, then loops: one round over the tweens, one `update`,
   * one `present(1)`, and a break once no tween is left.
   */
  class TweenRun {
    const task: SceneTask
    /** The tweens the run began with. */
    ghost const initial: seq<LiveTween>
    var tweens: seq<LiveTween>
    var delta: real
    var stage: RunStage
    /** The runners' calls so far, in order. */
    ghost var calls: seq<(nat, real)>
    /** Rounds over the tweens begun. */
    ghost var rounds: nat
    /** The messages this run has put into the inbox, in order. */
    ghost var sent: seq<Msg>
    ghost var Repr: set<object>

    /**
     * After reading the frame time, the tweens and the runner calls are
     * those of `rounds` rounds; each round is one `Submit` then one
     * `WaitNextFrame`, so the messages alternate starting with `Submit`;
     * and the run is finished only with no tween left.
     */
    ghost predicate Valid()
      reads this, Repr, task.sender.sender
    {
      task.Valid() && this !in Repr &&
      (stage.ReadingDelta? ==> tweens == initial && calls == [] && rounds == 0) &&
      (!stage.ReadingDelta? ==>
        delta == task.info.info.delta && Traced(initial, delta, rounds, tweens, calls)) &&
      (stage.Updating? ==> 0 < rounds && |sent| == 2 * rounds - 2) &&
      (stage.Presenting? ==>
        0 < rounds && stage.wait in Repr && stage.wait.Repr <= Repr &&
        stage.wait.sender == task.sender && stage.wait.Valid() && stage.wait.frames == 1 && !stage.wait.stage.Finished? &&
        |sent| == 2 * rounds - 1 + stage.wait.sent) &&
      (stage.ReadingDelta? || stage.Stepping? || stage.RunDone? ==> |sent| == 2 * rounds) &&
      (stage.RunDone? ==> 0 < rounds && tweens == []) &&
      Alternates(sent)
    }

    constructor (task: SceneTask, tweens: seq<LiveTween>)
      requires task.Valid()
      ensures Valid() && fresh(Repr)
      ensures this.task == task && initial == tweens && stage == ReadingDelta
      ensures calls == [] && sent == [] && rounds == 0
    {
      this.task := task;
      initial := tweens;
      this.tweens := tweens;
      delta := 0.0;
      stage := ReadingDelta;
      calls := [];
      rounds := 0;
      sent := [];
      Repr := {};
    }

    /** Reading `info.delta` once, before the first round. */
    method ReadDelta()
      requires Valid() && stage.ReadingDelta?
      modifies this
      ensures Valid() && Repr == old(Repr) && stage == Stepping
      ensures sent == old(sent) && rounds == old(rounds)
    {
      delta := task.Delta();
      stage := Stepping;
    }

    /** One round over the tweens. */
    method Step()
      requires Valid() && stage.Stepping?
      modifies this
      ensures Valid() && Repr == old(Repr) && stage == Updating
      ensures sent == old(sent) && rounds == old(rounds) + 1
    {
      var kept, cs := StepAll(tweens, delta);
      tweens := kept;
      calls := calls + cs;
      rounds := rounds + 1;
      stage := Updating;
    }

    /** `task.update().await`: the round's `Submit`, then a fresh `present(1)`. */
    method Update() returns (r: Poll<()>)
      requires Valid() && stage.Updating?
      modifies this, task.sender.sender
      ensures Valid() && fresh(Repr - old(Repr)) && rounds == old(rounds)
      ensures Enqueued(task.sender.sender, task.sender.id, Msg.Submit, r)
      ensures r.Ready? ==>
        sent == old(sent) + [Msg.Submit] && stage.Presenting? && stage.wait.stage.Starting? && stage.wait.done == 0
      ensures !r.Ready? ==> sent == old(sent) && stage == old(stage)
    {
      r := task.Submit();
      if r.Ready? {
        AlternatesSnoc(sent, Msg.Submit);
        sent := sent + [Msg.Submit];
        var w := new WaitFuture(task.sender, 1);
        Repr := Repr + {w} + w.Repr;
        stage := Presenting(w);
      }
    }

    /** `task.present(1).await`, then the loop's exit test. */
    method Present() returns (r: Poll<()>)
      requires Valid() && stage.Presenting?
      modifies this, Repr, task.sender.sender
      ensures Valid() && fresh(Repr - old(Repr)) && rounds == old(rounds)
      ensures r.Ready? ==> (if tweens == [] then stage.RunDone? else stage.Stepping?)
      ensures !r.Ready? ==> stage == old(stage)
      ensures old(stage.wait.stage).Starting? && old(stage.wait.done) == 0 ==> !r.Ready?
      ensures r == Panicked ==>
        !task.sender.sender.receiverAlive || (stage.wait.stage.Receiving? && stage.wait.stage.slot.senderDropped)
      ensures old(sent) <= sent && |sent| <= |old(sent)| + 1
      ensures task.sender.sender.queue == old(task.sender.sender.queue) + Tagged(task.sender.id, sent[|old(sent)|..])
      ensures task.sender.sender.receiverAlive == old(task.sender.sender.receiverAlive)
    {
      var w := stage.wait;
      ghost var before := w.sent;
      r := w.Poll();
      Repr := Repr + w.Repr;
      if w.sent != before {
        AlternatesSnoc(sent, WaitNextFrame(w.stage.slot));
        sent := sent + [WaitNextFrame(w.stage.slot)];
      }
      if r.Ready? {
        stage := if tweens == [] then RunDone else Stepping;
      }
    }

    /** The rest of a round once its `Submit` is due: the `Submit`, then the first poll of its fresh `present(1)`. */
    method Rest() returns (r: Poll<()>)
      requires Valid() && stage.Updating?
      modifies this, Repr, task.sender.sender
      ensures Valid() && fresh(Repr - old(Repr)) && rounds == old(rounds)
      ensures !r.Ready? && (stage.Updating? || stage.Presenting?)
      ensures r == Panicked ==>
        !task.sender.sender.receiverAlive || (stage.Presenting? && stage.wait.stage.Receiving? && stage.wait.stage.slot.senderDropped)
      ensures old(sent) <= sent
      ensures task.sender.sender.queue == old(task.sender.sender.queue) + Tagged(task.sender.id, sent[|old(sent)|..])
      ensures task.sender.sender.receiverAlive == old(task.sender.sender.receiverAlive)
    {
      r := Update();
      if r.Ready? {
        ghost var mid := sent;
        r := Present();
        TaggedSplit(task.sender.id, old(sent), mid, sent);
      }
    }

    /** A whole round from its start, as far as one poll gets: the step over the tweens, then `Rest`. */
    method Round() returns (r: Poll<()>)
      requires Valid() && stage.Stepping?
      modifies this, Repr, task.sender.sender
      ensures Valid() && fresh(Repr - old(Repr)) && rounds == old(rounds) + 1
      ensures !r.Ready? && (stage.Updating? || stage.Presenting?)
      ensures r == Panicked ==>
        !task.sender.sender.receiverAlive || (stage.Presenting? && stage.wait.stage.Receiving? && stage.wait.stage.slot.senderDropped)
      ensures old(sent) <= sent
      ensures task.sender.sender.queue == old(task.sender.sender.queue) + Tagged(task.sender.id, sent[|old(sent)|..])
      ensures task.sender.sender.receiverAlive == old(task.sender.sender.receiverAlive)
    {
      Step();
      r := Rest();
    }

    /** Back from a frame: the rest of `present(1)`, the exit test, and, unless the run ends, the next round. */
    method Resume() returns (r: Poll<()>)
      requires Valid() && stage.Presenting?
      modifies this, Repr, task.sender.sender
      ensures Valid() && fresh(Repr - old(Repr))
      ensures r.Ready? <==> stage.RunDone?
      ensures r.Ready? ==> tweens == []
      ensures r == Panicked ==>
        !task.sender.sender.receiverAlive || (stage.Presenting? && stage.wait.stage.Receiving? && stage.wait.stage.slot.senderDropped)
      ensures rounds == old(rounds) || rounds == old(rounds) + 1
      ensures old(sent) <= sent
      ensures task.sender.sender.queue == old(task.sender.sender.queue) + Tagged(task.sender.id, sent[|old(sent)|..])
      ensures task.sender.sender.receiverAlive == old(task.sender.sender.receiverAlive)
    {
      r := Present();
      if r.Ready? && stage.Stepping? {
        ghost var mid := sent;
        r := Round();
        TaggedSplit(task.sender.id, old(sent), mid, sent);
      }
    }

    /**
     * One poll. It finishes only after a round leaves no tween; it panics
     * when the inbox is closed, when a frame reply's sender is dropped
     * unanswered, or when polled after finishing. A poll runs at most one
     * round, and the poll that starts the run runs its first round and does
     * not finish it. The messages it sends reach the inbox in order, tagged
     * with the scene's id.
     */
    method Poll() returns (r: Poll<()>)
      requires Valid()
      modifies this, Repr, task.sender.sender
      ensures Valid() && fresh(Repr - old(Repr))
      ensures r.Ready? <==> !old(stage).RunDone? && stage.RunDone?
      ensures r.Ready? ==> tweens == []
      ensures old(stage).RunDone? ==> r == Panicked
      ensures r == Panicked && !old(stage).RunDone? ==>
        !task.sender.sender.receiverAlive || (stage.Presenting? && stage.wait.stage.Receiving? && stage.wait.stage.slot.senderDropped)
      ensures old(stage).ReadingDelta? ==> rounds == 1 && !r.Ready?
      ensures rounds == old(rounds) || rounds == old(rounds) + 1
      ensures old(sent) <= sent
      ensures task.sender.sender.queue == old(task.sender.sender.queue) + Tagged(task.sender.id, sent[|old(sent)|..])
      ensures task.sender.sender.receiverAlive == old(task.sender.sender.receiverAlive)
    {
      match stage
      case RunDone =>
        r := Panicked;
      case ReadingDelta =>
        ReadDelta();
        r := Round();
      case Stepping =>
        r := Round();
      case Updating =>
        r := Rest();
      case Presenting(_) =>
        r := Resume();
    }
  }

  /** The builder's stage: collecting tweens, or running them. */
  datatype BuilderStage = Init(tweens: seq<LiveTween>) | Running(run: TweenRun)

  /** `TweenBuilder`: tweens collected until the first poll, then one run of them all. */
  class TweenBuilder {
    const task: SceneTask
    var stage: BuilderStage
    ghost var Repr: set<object>

    /** A builder always holds at least one tween, and a running builder a valid run on its own task. */
    ghost predicate Valid()
      reads this, Repr, task.sender.sender
    {
      task.Valid() && this !in Repr &&
      (stage.Init? ==> 0 < |stage.tweens|) &&
      (stage.Running? ==> stage.run in Repr && stage.run.Repr <= Repr && stage.run.task == task && stage.run.Valid())
    }

    /** `TweenBuilder::new`: a builder holding one tween. */
    constructor (task: SceneTask, t: LiveTween)
      requires task.Valid()
      ensures Valid() && fresh(Repr)
      ensures this.task == task && stage == Init([t])
    {
      this.task := task;
      stage := Init([t]);
      Repr := {};
    }

    /** `TweenBuilder::tween`: another tween, appended while the builder has not started; ignored once it runs. */
    method AddTween(start: real, end: real, time: real, runner: nat)
      requires Valid() && time != 0.0
      modifies this
      ensures Valid() && Repr == old(Repr)
      ensures old(stage).Init? ==> stage == Init(old(stage).tweens + [NewTween(start, end, time, runner)])
      ensures old(stage).Running? ==> stage == old(stage)
    {
      if stage.Init? {
        var t: LiveTween := NewTween(start, end, time, runner);
        stage := Init(stage.tweens + [t]);
      }
    }

    /**
     * One poll. The first poll starts a run over the collected tweens and
     * polls it at once; later polls poll the run. The first poll never
     * finishes, since a run waits at least one frame.
     */
    method Poll() returns (r: Poll<()>)
      requires Valid()
      modifies this, Repr, task.sender.sender
      ensures Valid() && fresh(Repr - old(Repr)) && stage.Running?
      ensures old(stage).Init? ==>
        fresh(stage.run) && stage.run.initial == old(stage).tweens && stage.run.rounds == 1 && !r.Ready?
      ensures old(stage).Running? ==> stage == old(stage)
      ensures r.Ready? ==> stage.run.stage.RunDone? && stage.run.tweens == []
    {
      if stage.Init? {
        var run := new TweenRun(task, stage.tweens);
        stage := Running(run);
        Repr := Repr + {run};
      }
      var run := stage.run;
      r := run.Poll();
      Repr := Repr + run.Repr;
    }
  }

  /** `SceneTask::tween`: a builder holding the one tween over `start..=end`. */
  method SceneTween(task: SceneTask, start: real, end: real, time: real, runner: nat) returns (b: TweenBuilder)
    requires task.Valid() && time != 0.0
    ensures fresh(b) && b.Valid() && fresh(b.Repr)
    ensures b.task == task && b.stage == Init([NewTween(start, end, time, runner)])
  {
    var t: LiveTween := NewTween(start, end, time, runner);
    b := new TweenBuilder(task, t);
  }
}
