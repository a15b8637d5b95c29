/**
 * The producer side of a value slot and the step barrier of src/signal.rs:
 * `lerp`, `Signal` with its `set` future, the `Executor` that runs steps in
 * lock-step and fires a shared `end` action once all of them have signalled,
 * and the step future of `Signal::tween`. The consumer side (`NSignal`,
 * `create_signal`) is in the Channel module.
 */
module Signal {
  import opened Common
  import opened Channel
  import opened EngineMessage
  import opened Scene

  /** `lerp(from, to, time)`: the affine mix, exact at both ends. */
  function Lerp(from: real, to: real, t: real): (r: real)
    ensures t == 0.0 ==> r == from
    ensures t == 1.0 ==> r == to
  {
    from * (1.0 - t) + to * t
  }

  lemma MulNonneg(a: real, b: real)
    requires 0.0 <= a && 0.0 <= b
    ensures 0.0 <= a * b
  {
  }

  lemma MulPos(a: real, b: real)
    requires 0.0 < a && 0.0 < b
    ensures 0.0 < a * b
  {
  }

  /** For `t` in [0, 1], `lerp` stays between its two ends. */
  lemma {:induction false} LerpBetween(from: real, to: real, t: real)
    requires 0.0 <= t <= 1.0
    ensures from <= to ==> from <= Lerp(from, to, t) <= to
    ensures to <= from ==> to <= Lerp(from, to, t) <= from
  {
    var r := Lerp(from, to, t);
    if from <= to {
      MulNonneg(to - from, t);
      MulNonneg(to - from, 1.0 - t);
      assert r == from + (to - from) * t;
      assert r == to - (to - from) * (1.0 - t);
    } else {
      MulNonneg(from - to, t);
      MulNonneg(from - to, 1.0 - t);
      assert r == from - (from - to) * t;
      assert r == to + (from - to) * (1.0 - t);
    }
  }

  /** Past `t = 1`, `lerp` overshoots its target, as `Signal::tween` can do on its last step. */
  lemma {:induction false} LerpOvershoot(from: real, to: real, t: real)
    requires from != to && 1.0 < t
    ensures from < to ==> to < Lerp(from, to, t)
    ensures to < from ==> Lerp(from, to, t) < to
  {
    if from < to {
      MulPos(to - from, t - 1.0);
      assert Lerp(from, to, t) == to + (to - from) * (t - 1.0);
    } else {
      MulPos(from - to, t - 1.0);
      assert Lerp(from, to, t) == to - (from - to) * (t - 1.0);
    }
  }

  /**
   * `Signal`: the producer end of a value slot, the value last set through
   * it, and the scene whose `submit` follows every `set`.
   */
  class Signal<T> {
    const inner: SignalInner<T>
    const scene: SceneTask
    var value: T

    /** The slot has capacity one, the inbox is usable, and they are two channels. */
    ghost predicate Valid()
      reads inner.sender, scene.sender.sender
    {
      inner.sender.Valid() && inner.sender.capacity == 1 && scene.Valid() &&
      inner.sender as object != scene.sender.sender as object
    }

    /** `Signal::new`: `get` returns the initial value until a `set` completes. */
    constructor (inner: SignalInner<T>, scene: SceneTask, value: T)
      ensures this.inner == inner && this.scene == scene && Get() == value
    {
      this.inner := inner;
      this.scene := scene;
      this.value := value;
    }

    /** `Signal::get`. */
    function Get(): T
      reads this
    {
      value
    }
  }

  /** Between two states, neither the cached value, the slot nor the inbox changed. */
  twostate predicate Untouched<T>(s: Signal<T>)
    reads s, s.inner.sender, s.scene.sender.sender
  {
    s.value == old(s.value) && s.inner.sender.queue == old(s.inner.sender.queue) &&
    s.scene.sender.sender.queue == old(s.scene.sender.sender.queue)
  }

  /** Where a `set` future stands: offering the value to the slot, submitting, or finished. */
  datatype SetStage = Offering | Submitting | SetDone

  /**
   * The future of `Signal::set(v)`: the value goes into the slot (waiting for
   * room, never displacing an unread value), then it becomes the cached
   * value, then one `Submit` goes to the engine.
   */
  class SetFuture<T> {
    const signal: Signal<T>
    const v: T
    var stage: SetStage

    /** Once the value is in the slot, it is also the cached value. */
    ghost predicate Valid()
      reads this, signal, signal.inner.sender, signal.scene.sender.sender
    {
      signal.Valid() && (stage != Offering ==> signal.value == v)
    }

    constructor (signal: Signal<T>, v: T)
      requires signal.Valid()
      ensures Valid() && this.signal == signal && this.v == v && stage == Offering
    {
      this.signal := signal;
      this.v := v;
      stage := Offering;
    }

    /**
     * One poll. A closed slot panics the `unwrap`; a full slot leaves the
     * future waiting with nothing changed; otherwise the value is queued and
     * cached, and the submit is attempted in the same poll. The future is
     * ready once its submit has gone into the inbox.
     */
    method Poll() returns (r: Poll<()>)
      requires Valid()
      modifies this, signal, signal.inner.sender, signal.scene.sender.sender
      ensures Valid()
      ensures signal.inner.sender.receiverAlive == old(signal.inner.sender.receiverAlive)
      ensures signal.scene.sender.sender.receiverAlive == old(signal.scene.sender.sender.receiverAlive)
      ensures old(stage).SetDone? ==> r == Panicked && Untouched(signal)
      ensures old(stage).Offering? && !old(signal.inner.sender.receiverAlive) ==> r == Panicked && Untouched(signal)
      ensures old(stage).Offering? && old(signal.inner.sender.receiverAlive) && old(signal.inner.sender.queue) != [] ==>
        r == Pending && stage == Offering && Untouched(signal)
      ensures old(stage).Offering? && old(signal.inner.sender.receiverAlive) && old(signal.inner.sender.queue) == [] ==>
        signal.inner.sender.queue == [v] && signal.Get() == v &&
        Enqueued(signal.scene.sender.sender, signal.scene.sender.id, Msg.Submit, r)
      ensures old(stage).Submitting? ==>
        signal.value == old(signal.value) && signal.inner.sender.queue == old(signal.inner.sender.queue) &&
        Enqueued(signal.scene.sender.sender, signal.scene.sender.id, Msg.Submit, r)
      ensures r.Ready? <==> !old(stage).SetDone? && stage == SetDone
      ensures r == Pending ==> stage != SetDone
      ensures stage == Offering <==>
        old(stage) == Offering && (!old(signal.inner.sender.receiverAlive) || old(signal.inner.sender.queue) != [])
    {
      if stage == Offering {
        var s := signal.inner.sender.TrySend(v);
        if s == Closed {
          return Panicked;
        } else if s == Full {
          return Pending;
        }
        signal.value := v;
        stage := Submitting;
      }
      if stage == Submitting {
        r := signal.scene.Submit();
        if r.Ready? {
          stage := SetDone;
        }
      } else {
        r := Panicked;
      }
    }
  }

  /**
   * An `Executor` step: its future, named by the order it was added in,
   * whether its capacity-1 completion channel holds the step's signal, and
   * its flag, set once the step has signalled in the current round.
   */
  datatype Step = Step(id: nat, signalled: bool, flag: bool)

  /** What one poll of a step's future did: whether it is still pending, and whether it sent its signal. */
  datatype StepPoll = StepPoll(pending: bool, sent: bool)

  /**
   * The `retain_mut` closure of `Executor::poll`: a flagged step is kept
   * without a poll; any other is polled, its signal lands in its channel
   * (which holds at most one), and it is kept while its future is pending.
   */
  function PollStep(s: Step, p: StepPoll): (r: Option<Step>)
    ensures r.Some? <==> s.flag || p.pending
    ensures r.Some? && s.flag ==> r.value == s
    ensures r.Some? && !s.flag ==> r.value == Step(s.id, s.signalled || p.sent, false)
  {
    if s.flag then Some(s)
    else if p.pending then Some(s.(signalled := s.signalled || p.sent))
    else None
  }

  /** Number of flagged steps. */
  function Flagged(ss: seq<Step>): (n: nat)
    ensures n <= |ss|
  {
    if ss == [] then 0 else Flagged(ss[..|ss| - 1]) + (if ss[|ss| - 1].flag then 1 else 0)
  }

  /** Number of steps whose channel holds a signal. */
  function Signalled(ss: seq<Step>): (n: nat)
    ensures n <= |ss|
  {
    if ss == [] then 0 else Signalled(ss[..|ss| - 1]) + (if ss[|ss| - 1].signalled then 1 else 0)
  }

  /** No flagged step holds a signal: a flagged step is not polled, so it cannot signal twice in one round. */
  predicate Quiet(ss: seq<Step>)
  {
    forall i :: 0 <= i < |ss| && ss[i].flag ==> !ss[i].signalled
  }

  /** The steps after the counting loop: every signal taken, and its step flagged. */
  function Mark(ss: seq<Step>): (r: seq<Step>)
    ensures |r| == |ss|
  {
    seq(|ss|, i requires 0 <= i < |ss| => ss[i].(flag := ss[i].flag || ss[i].signalled, signalled := false))
  }

  /** The steps after the barrier: every flag cleared. */
  function Cleared(ss: seq<Step>): (r: seq<Step>)
    ensures |r| == |ss|
  {
    seq(|ss|, i requires 0 <= i < |ss| => ss[i].(flag := false))
  }

  /** Nothing is flagged after the barrier. */
  lemma {:induction false} ClearedUnflagged(ss: seq<Step>)
    ensures Flagged(Cleared(ss)) == 0
  {
    if ss != [] {
      var n := |ss| - 1;
      ClearedUnflagged(ss[..n]);
      assert Cleared(ss)[..n] == Cleared(ss[..n]);
    }
  }

  /** All steps are flagged exactly when the flagged count is the number of steps. */
  lemma {:induction false} FlaggedAll(ss: seq<Step>)
    ensures Flagged(ss) == |ss| <==> forall i :: 0 <= i < |ss| ==> ss[i].flag
  {
    if ss != [] {
      var n := |ss| - 1;
      FlaggedAll(ss[..n]);
      assert forall i :: 0 <= i < n ==> ss[..n][i] == ss[i];
    }
  }

  /** In a quiet round, the counting loop adds the number of signals to the flagged count. */
  lemma {:induction false} FlaggedMark(ss: seq<Step>)
    requires Quiet(ss)
    ensures Flagged(Mark(ss)) == Flagged(ss) + Signalled(ss)
  {
    if ss != [] {
      var n := |ss| - 1;
      assert Quiet(ss[..n]) by {
        assert forall i :: 0 <= i < n ==> ss[..n][i] == ss[i];
      }
      FlaggedMark(ss[..n]);
      assert Mark(ss)[..n] == Mark(ss[..n]);
    }
  }

  /** `retain_mut` only drops unflagged steps and leaves flagged ones alone, so it keeps the flagged count. */
  lemma {:induction false} FlaggedRetain(ss: seq<Step>, polls: seq<StepPoll>)
    requires |polls| == |ss|
    ensures Flagged(RetainMut(ss, polls, PollStep)) == Flagged(ss)
  {
    if ss != [] {
      var n := |ss| - 1;
      FlaggedRetain(ss[..n], polls[..n]);
      var r0 := RetainMut(ss[..n], polls[..n], PollStep);
      match PollStep(ss[n], polls[n])
      case Some(t) =>
        assert RetainMut(ss, polls, PollStep) == r0 + [t];
        assert (r0 + [t])[..|r0|] == r0;
      case None =>
        assert RetainMut(ss, polls, PollStep) == r0 + [];
        assert r0 + [] == r0;
    }
  }

  /**
   * `retain_mut` keeps exactly the flagged steps and the steps whose future
   * is still pending, in their order; a flagged step is not polled and
   * comes through unchanged.
   */
  lemma {:induction false} RetainSteps(ss: seq<Step>, polls: seq<StepPoll>)
    requires |polls| == |ss|
    ensures var r, ks := RetainMut(ss, polls, PollStep), KeptIndices(ss, polls, PollStep);
      |r| == |ks| &&
      (forall j :: 0 <= j < |ks| ==> ks[j] < |ss| && r[j].id == ss[ks[j]].id && r[j].flag == ss[ks[j]].flag) &&
      (forall j :: 0 <= j < |ks| && ss[ks[j]].flag ==> r[j] == ss[ks[j]]) &&
      (forall j, k :: 0 <= j < k < |ks| ==> ks[j] < ks[k]) &&
      (forall i :: 0 <= i < |ss| ==> (ss[i].flag || polls[i].pending <==> i in ks))
  {
    RetainMutSpec(ss, polls, PollStep);
  }

  /** A quiet round stays quiet through `retain_mut`. */
  lemma QuietRetain(ss: seq<Step>, polls: seq<StepPoll>)
    requires |polls| == |ss| && Quiet(ss)
    ensures Quiet(RetainMut(ss, polls, PollStep))
  {
    RetainSteps(ss, polls);
  }

  /**
   * The barrier: in a quiet round whose count matches the flags, the count
   * reaches the number of steps (at least one) exactly when every step is
   * flagged after the counting loop.
   */
  lemma {:induction false} BarrierIffAllSignalled(ss: seq<Step>, waiting: nat)
    requires Quiet(ss) && waiting == Flagged(ss)
    ensures 0 < |ss| <= waiting + Signalled(ss) <==> 0 < |ss| && forall i :: 0 <= i < |ss| ==> Mark(ss)[i].flag
  {
    FlaggedMark(ss);
    FlaggedAll(Mark(ss));
  }

  /** Steps named in the order they were added, all before `added`. */
  predicate Ordered(ss: seq<Step>, added: nat)
  {
    (forall i :: 0 <= i < |ss| ==> ss[i].id < added) &&
    (forall i, j :: 0 <= i < j < |ss| ==> ss[i].id < ss[j].id)
  }

  /** `retain_mut` keeps the steps in their order. */
  lemma RetainOrdered(ss: seq<Step>, polls: seq<StepPoll>, added: nat)
    requires |polls| == |ss| && Ordered(ss, added)
    ensures Ordered(RetainMut(ss, polls, PollStep), added)
  {
    RetainSteps(ss, polls);
    var r, ks := RetainMut(ss, polls, PollStep), KeptIndices(ss, polls, PollStep);
    forall i, j | 0 <= i < j < |r|
      ensures r[i].id < r[j].id
    {
      assert ks[i] < ks[j];
    }
  }

  /** After the counting loop no step holds a signal, whatever the flags. */
  lemma MarkQuiet(ss: seq<Step>)
    ensures Quiet(Mark(ss)) && Quiet(Cleared(Mark(ss)))
  {
  }

  /** Taking the signals and clearing the flags keep the steps and their order. */
  lemma MarkOrdered(ss: seq<Step>, added: nat)
    requires Ordered(ss, added)
    ensures Ordered(Mark(ss), added) && Ordered(Cleared(Mark(ss)), added)
  {
  }

  /** A poll round keeps the signal count in step with the flags. */
  lemma BalancedRound(ss: seq<Step>, polls: seq<StepPoll>, waiting: nat)
    requires |polls| == |ss| && Quiet(ss) && waiting == Flagged(ss)
    ensures var kept := RetainMut(ss, polls, PollStep);
      waiting + Signalled(kept) == Flagged(Mark(kept)) && Flagged(Cleared(Mark(kept))) == 0
  {
    FlaggedRetain(ss, polls);
    QuietRetain(ss, polls);
    FlaggedMark(RetainMut(ss, polls, PollStep));
    ClearedUnflagged(Mark(RetainMut(ss, polls, PollStep)));
  }

  lemma SignalledPrefix(ss: seq<Step>, i: nat)
    requires i < |ss|
    ensures Signalled(ss[..i + 1]) == Signalled(ss[..i]) + (if ss[i].signalled then 1 else 0)
  {
    assert ss[..i + 1][..i] == ss[..i];
  }

  /**
   * The counting loop of `Executor::poll`: every step whose channel holds
   * a signal gives it up and becomes flagged, and the signals are counted.
   */
  method CollectSignals(ss: seq<Step>) returns (marked: seq<Step>, count: nat)
    ensures marked == Mark(ss) && count == Signalled(ss)
  {
    marked := ss;
    count := 0;
    var i := 0;
    while i < |ss|
      invariant 0 <= i <= |ss| == |marked|
      invariant forall j :: 0 <= j < |ss| ==> marked[j] == (if j < i then Mark(ss)[j] else ss[j])
      invariant count == Signalled(ss[..i])
    {
      SignalledPrefix(ss, i);
      if marked[i].signalled {
        count := count + 1;
        marked := marked[i := marked[i].(signalled := false, flag := true)];
      }
      i := i + 1;
    }
    assert ss[..i] == ss;
  }

  /** The flag-clearing loop after the barrier. */
  method ClearFlags(ss: seq<Step>) returns (cleared: seq<Step>)
    ensures cleared == Cleared(ss)
  {
    cleared := ss;
    var i := 0;
    while i < |ss|
      invariant 0 <= i <= |ss| == |cleared|
      invariant forall j :: 0 <= j < |ss| ==> cleared[j] == (if j < i then Cleared(ss)[j] else ss[j])
    {
      cleared := cleared[i := cleared[i].(flag := false)];
      i := i + 1;
    }
  }

  /**
   * Everything a poll does after the `end` future is out of the way:
   * `retain_mut` polls the unflagged steps and drops the finished ones, the
   * counting loop takes the signals and flags their steps, and when the
   * count covers every remaining step (at least one) the barrier resets the
   * count and the flags. A round keeps the steps' order, and it keeps the
   * count in step with the flags.
   */
  method Round(ss: seq<Step>, waiting: nat, polls: seq<StepPoll>, ghost added: nat)
    returns (next: seq<Step>, w: nat, barrier: bool)
    requires |polls| == |ss|
    ensures var kept := RetainMut(ss, polls, PollStep);
      var total := waiting + Signalled(kept);
      barrier == (0 < |kept| <= total) &&
      (barrier ==> next == Cleared(Mark(kept)) && w == 0) &&
      (!barrier ==> next == Mark(kept) && w == total)
    ensures Ordered(ss, added) ==> Ordered(next, added)
    ensures Quiet(ss) && waiting == Flagged(ss) ==> Quiet(next) && w == Flagged(next)
  {
    var kept := RetainMut(ss, polls, PollStep);
    if Ordered(ss, added) {
      RetainOrdered(ss, polls, added);
      MarkOrdered(kept, added);
    }
    if Quiet(ss) && waiting == Flagged(ss) {
      BalancedRound(ss, polls, waiting);
      MarkQuiet(kept);
    }
    var count;
    next, count := CollectSignals(kept);
    w := waiting + count;
    barrier := 0 < |next| <= w;
    if barrier {
      w := 0;
      next := ClearFlags(next);
    }
  }

  /**
   * `Executor`: its steps in the order they were added, whether an `end`
   * future is pending, and the number of signals counted in this round.
   */
  class Executor {
    var steps: seq<Step>
    var toWait: bool
    var waiting: nat
    /** How many steps were ever added; the next step's name. */
    var added: nat

    /** Steps keep the order they were added in. */
    ghost predicate Valid()
      reads this
    {
      Ordered(steps, added)
    }

    /** The signal count agrees with the flags, and no flagged step holds a signal. */
    ghost predicate Balanced()
      reads this
    {
      waiting == Flagged(steps) && Quiet(steps)
    }

    /** `Executor::new`: no steps, nothing pending; the `end` action is the caller's. */
    constructor ()
      ensures Valid() && Balanced()
      ensures steps == [] && !toWait && waiting == 0 && added == 0
    {
      steps := [];
      toWait := false;
      waiting := 0;
      added := 0;
    }

    /** `add`: one new step last, with an empty completion channel and a clear flag. */
    method Add() returns (id: nat)
      requires Valid()
      modifies this
      ensures Valid() && id == old(added) && added == old(added) + 1
      ensures steps == old(steps) + [Step(id, false, false)]
      ensures toWait == old(toWait) && waiting == old(waiting)
      ensures old(Balanced()) ==> Balanced()
    {
      id := added;
      steps := steps + [Step(id, false, false)];
      added := added + 1;
      assert steps[..|steps| - 1] == old(steps);
    }

    /**
     * One poll. `endPending` is the poll result of the pending `end`
     * future, `polls[i]` what polling step `i`'s future did (used only if
     * the step is not flagged), and `endStartsPending` the first poll result
     * of a new `end` future. A pending `end` holds everything back; then the
     * finished steps go, the signals are counted, and once the count covers
     * every remaining step (at least one) the count and the flags are reset
     * and a new `end` starts. Ready means no steps and no `end` are left.
     */
    method Poll(endPending: bool, polls: seq<StepPoll>, endStartsPending: bool) returns (r: Poll<()>)
      requires Valid() && |polls| == |steps|
      modifies this
      ensures Valid() && added == old(added)
      ensures r.Ready? <==> steps == [] && !toWait
      ensures old(toWait) && endPending ==>
        r == Pending && steps == old(steps) && toWait && waiting == old(waiting)
      ensures !(old(toWait) && endPending) ==>
        var kept := RetainMut(old(steps), polls, PollStep);
        var total := old(waiting) + Signalled(kept);
        (0 < |kept| <= total ==> steps == Cleared(Mark(kept)) && waiting == 0 && toWait == endStartsPending) &&
        (!(0 < |kept| <= total) ==> steps == Mark(kept) && waiting == total && !toWait)
      ensures old(Balanced()) ==> Balanced()
    {
      if toWait {
        if endPending {
          return Pending;
        }
        toWait := false;
      }
      var barrier;
      steps, waiting, barrier := Round(steps, waiting, polls, added);
      if barrier {
        toWait := endStartsPending;
      }
      r := if steps == [] && !toWait then Ready(()) else Pending;
    }
  }

  /** Where the step of `Signal::tween` stands within its `while` loop. */
  datatype TweenStage = Checking | Setting(setter: SetFuture<(real, real)>) | Signalling | TweenDone

  /** One more iteration adds one more increment. */
  lemma Dist(n: real, c: real)
    ensures (n + 1.0) * c == n * c + c
  {
  }

  /**
   * The step future of `Signal::tween(from, to, time)`: while `sum < 1` it
   * adds `delta / time` to `sum`, sets the signal to the point at `sum`,
   * and signals its completion channel.
   */
  class SignalTween {
    const signal: Signal<(real, real)>
    const from: (real, real)
    const to: (real, real)
    const time: real
    /** The sender of this step's completion channel. */
    const done: Chan<()>
    var sum: real
    var stage: TweenStage
    /** Loop iterations begun. */
    ghost var rounds: nat
    /** The `set` futures this step has made. */
    ghost var Repr: set<object>

    /** The point of the tween at progress `t`. */
    function At(t: real): (p: (real, real))
      ensures t == 0.0 ==> p == from
      ensures t == 1.0 ==> p == to
    {
      (Lerp(from.0, to.0, t), Lerp(from.1, to.1, t))
    }

    /** The progress each iteration adds. */
    ghost function Increment(): real
      requires time != 0.0
    {
      signal.scene.info.info.delta / time
    }

    /**
     * `sum` is the number of iterations times the increment, an iteration
     * begins only while the previous `sum` is below 1, and the value being
     * set, or last set, is the point at `sum`.
     */
    ghost predicate Valid()
      reads this, Repr, signal, signal.inner.sender, signal.scene.sender.sender, done
    {
      time != 0.0 && signal.Valid() && done.Valid() &&
      done as object != signal.inner.sender && done as object != signal.scene.sender.sender &&
      sum == rounds as real * Increment() &&
      (0 < rounds ==> sum - Increment() < 1.0) &&
      (stage.Setting? ==> stage.setter in Repr && stage.setter.signal == signal && stage.setter.v == At(sum) && stage.setter.Valid() && stage.setter.stage != SetDone) &&
      ((stage.Signalling? || (stage.Checking? && 0 < rounds) || stage.TweenDone?) ==> signal.value == At(sum)) &&
      (stage.TweenDone? ==> 0 < rounds && 1.0 <= sum)
    }

    constructor (signal: Signal<(real, real)>, from: (real, real), to: (real, real), time: real, done: Chan<()>)
      requires signal.Valid() && done.Valid() && time != 0.0
      requires done as object != signal.inner.sender && done as object != signal.scene.sender.sender
      ensures Valid() && fresh(Repr)
      ensures this.signal == signal && this.from == from && this.to == to && this.time == time && this.done == done
      ensures sum == 0.0 && stage == Checking && rounds == 0
    {
      this.signal := signal;
      this.from := from;
      this.to := to;
      this.time := time;
      this.done := done;
      sum := 0.0;
      stage := Checking;
      rounds := 0;
      Repr := {};
    }

    /** The loop test, and when it passes, the update of `sum` and a new `set`. */
    method Check() returns (finished: bool)
      requires Valid() && stage.Checking?
      modifies this
      ensures Valid() && fresh(Repr - old(Repr))
      ensures finished <==> 1.0 <= old(sum)
      ensures finished ==> stage.TweenDone? && sum == old(sum) && rounds == old(rounds)
      ensures !finished ==>
        stage.Setting? && stage.setter.stage == Offering && sum == old(sum) + Increment() && rounds == old(rounds) + 1
    {
      if 1.0 <= sum {
        stage := TweenDone;
        return true;
      }
      var d := signal.scene.Delta();
      Dist(rounds as real, Increment());
      sum := sum + d / time;
      rounds := rounds + 1;
      var setter := new SetFuture(signal, At(sum));
      Repr := Repr + {setter};
      stage := Setting(setter);
      return false;
    }

    /** One poll of the pending `set`; once it is ready the step signals. */
    method PollSet() returns (r: Poll<()>)
      requires Valid() && stage.Setting?
      modifies this, Repr, signal, signal.inner.sender, signal.scene.sender.sender
      ensures Valid() && Repr == old(Repr) && sum == old(sum) && rounds == old(rounds)
      ensures done.queue == old(done.queue) && done.receiverAlive == old(done.receiverAlive)
      ensures signal.inner.sender.receiverAlive == old(signal.inner.sender.receiverAlive)
      ensures signal.scene.sender.sender.receiverAlive == old(signal.scene.sender.sender.receiverAlive)
      ensures r == Panicked ==>
        !signal.inner.sender.receiverAlive || !signal.scene.sender.sender.receiverAlive
      ensures r.Ready? ==> stage.Signalling?
      ensures !r.Ready? ==> stage == old(stage)
    {
      var setter := stage.setter;
      r := setter.Poll();
      if r.Ready? {
        stage := Signalling;
      }
    }

    /** One attempt of the completion send; a closed channel panics the `unwrap`. */
    method PollSignal() returns (r: Poll<()>)
      requires Valid() && stage.Signalling?
      modifies this, done
      ensures Valid() && Repr == old(Repr) && sum == old(sum) && rounds == old(rounds)
      ensures done.receiverAlive == old(done.receiverAlive)
      ensures r == Panicked <==> !old(done.receiverAlive)
      ensures r == Pending <==> old(done.receiverAlive) && |old(done.queue)| == done.capacity
      ensures done.queue == if r.Ready? then old(done.queue) + [()] else old(done.queue)
      ensures r.Ready? ==> stage.Checking?
      ensures !r.Ready? ==> stage == old(stage)
    {
      var s := done.TrySend(());
      r := if s == Sent then Ready(()) else if s == Full then Pending else Panicked;
      if r.Ready? {
        stage := Checking;
      }
    }

    /** Room left in the completion channel, then how far the stage is from the next send. */
    ghost function Progress(): nat
      reads this, done
    {
      (if |done.queue| <= done.capacity then done.capacity - |done.queue| else 0) * 3 +
      (match stage case Checking => 2 case Setting(_) => 1 case _ => 0)
    }

    /**
     * One iteration of `poll`'s loop: the stage's step, and whether the loop
     * stops there (finished, waiting or panicking) or goes on, closer to a wait.
     */
    method Turn() returns (r: Poll<()>, stop: bool)
      requires Valid() && !stage.TweenDone?
      modifies this, Repr, signal, signal.inner.sender, signal.scene.sender.sender, done
      ensures Valid() && fresh(Repr - old(Repr))
      ensures stop ==> (r.Ready? <==> stage.TweenDone?)
      ensures !stop ==> !stage.TweenDone? && Progress() < old(Progress())
      ensures stop && r == Panicked ==>
        !done.receiverAlive || !signal.inner.sender.receiverAlive || !signal.scene.sender.sender.receiverAlive
      ensures rounds >= old(rounds)
      ensures done.receiverAlive == old(done.receiverAlive) && |done.queue| >= |old(done.queue)|
      ensures signal.inner.sender.receiverAlive == old(signal.inner.sender.receiverAlive)
      ensures signal.scene.sender.sender.receiverAlive == old(signal.scene.sender.sender.receiverAlive)
    {
      match stage
      case Checking =>
        var finished := Check();
        r, stop := if finished then Ready(()) else Pending, finished;
      case Setting(_) =>
        r := PollSet();
        stop := !r.Ready?;
      case Signalling =>
        r := PollSignal();
        stop := !r.Ready?;
    }

    /**
     * One poll: iterations run until a `set` or the completion signal has
     * to wait, or `sum` has reached 1, which finishes the step. A closed
     * slot, inbox or completion channel panics.
     */
    method Poll() returns (r: Poll<()>)
      requires Valid()
      modifies this, Repr, signal, signal.inner.sender, signal.scene.sender.sender, done
      ensures Valid() && fresh(Repr - old(Repr))
      ensures old(stage).TweenDone? ==> r == Panicked
      ensures r.Ready? <==> !old(stage).TweenDone? && stage.TweenDone?
      ensures r.Ready? ==> 1.0 <= sum && signal.Get() == At(sum)
      ensures r == Panicked && !old(stage).TweenDone? ==>
        !done.receiverAlive || !signal.inner.sender.receiverAlive || !signal.scene.sender.sender.receiverAlive
      ensures rounds >= old(rounds)
      ensures done.receiverAlive == old(done.receiverAlive) && |done.queue| >= |old(done.queue)|
      ensures signal.inner.sender.receiverAlive == old(signal.inner.sender.receiverAlive)
      ensures signal.scene.sender.sender.receiverAlive == old(signal.scene.sender.sender.receiverAlive)
    {
      if stage.TweenDone? {
        return Panicked;
      }
      while true
        invariant Valid() && fresh(Repr - old(Repr)) && !stage.TweenDone?
        invariant rounds >= old(rounds)
        invariant done.receiverAlive == old(done.receiverAlive) && |done.queue| >= |old(done.queue)|
        invariant signal.inner.sender.receiverAlive == old(signal.inner.sender.receiverAlive)
        invariant signal.scene.sender.sender.receiverAlive == old(signal.scene.sender.sender.receiverAlive)
        decreases Progress()
      {
        var stop;
        r, stop := Turn();
        if stop {
          return;
        }
      }
    }
  }

  /**
   * `Signal::tween`: an executor with one step (named 0), the tween's step
   * future, which signals on its own capacity-1 completion channel; the
   * executor's `end` action is a one-frame `wait`. Nothing is polled yet.
   */
  method Tween(signal: Signal<(real, real)>, from: (real, real), to: (real, real), time: real)
    returns (e: Executor, step: SignalTween)
    requires signal.Valid() && time != 0.0
    ensures fresh(e) && fresh(step) && fresh(step.done) && e.Valid() && e.Balanced() && step.Valid()
    ensures e.steps == [Step(0, false, false)] && !e.toWait && e.waiting == 0
    ensures step.signal == signal && step.from == from && step.to == to && step.time == time
    ensures step.sum == 0.0 && step.stage == Checking
    ensures step.done.capacity == 1 && step.done.queue == [] && step.done.receiverAlive
  {
    e := new Executor();
    var id := e.Add();
    var done := new Chan<()>(1);
    step := new SignalTween(signal, from, to, time, done);
  }
}
