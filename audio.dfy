/**
 * Audio nodes (the `audio` module of src/main.rs): a node plays a stream. The
 * node manager keeps, per live node, its drop receiver, its stream, the
 * samples fetched from the stream and not yet played, and the frame count up
 * to which it has fetched; `audio_process` mixes the oldest queued samples of
 * every node into the output buffer.
 */
module Audio {
  import opened Common
  import opened Channel
  import opened Media

  /** `AudioBuilder`: the stream a node plays. */
  datatype AudioBuilder = AudioBuilder(stream: StreamRef)

  /** The scene's end of a node's drop signal. */
  datatype RawAudio = RawAudio(drop: SignalInner<()>)

  /** One live node: drop receiver, stream, queued samples, fetched-up-to frame count. */
  datatype AudioEntry = AudioEntry(drop: NSignal<()>, stream: StreamRef, queue: seq<real>, from: nat)

  /** The object behind a stream reference. */
  function StreamObject(s: StreamRef): object
  {
    match s
    case VideoRef(v) => v
    case AudioRef(a) => a
  }

  /** What `audio_buffer(from)` returns for a stream, as a function of its state. */
  ghost function Fetch(s: StreamRef, from: nat): (r: Outcome<Option<seq<real>>>)
    reads StreamObject(s)
  {
    match s
    case VideoRef(_) => Ok(None)
    case AudioRef(a) => AudioBufferOf(a.frames, a.index, a.current, a.forword, from)
  }

  /**
   * `audio_process` for one node, given what its stream returned (`fetched`),
   * the stream's frame count (`current`) and the output length: fetched
   * samples join the queue and move `from` up to `current`; then the oldest
   * `min(len, |queue|)` samples are taken out, the rest stay queued.
   */
  function ProcessAudio(e: AudioEntry, fetched: Outcome<Option<seq<real>>>, current: nat, len: nat): (r: Outcome<(AudioEntry, seq<real>)>)
    ensures r.Panic? <==> fetched.Panic?
    ensures r.Ok? ==> var (e2, taken) := r.value;
      var q := if fetched.value.Some? then e.queue + fetched.value.value else e.queue;
      taken + e2.queue == q &&
      |taken| == (if len < |q| then len else |q|) &&
      e2.from == (if fetched.value.Some? then current else e.from) &&
      e2.drop == e.drop && e2.stream == e.stream
  {
    match fetched
    case Panic => Panic
    case Ok(got) =>
      var q := if got.Some? then e.queue + got.value else e.queue;
      var from := if got.Some? then current else e.from;
      var n := if len < |q| then len else |q|;
      assert q[..n] + q[n..] == q;
      Ok((e.(queue := q[n..], from := from), q[..n]))
  }

  /** `buffer[i] += tmp[i]` for every `i` below `|tmp|`. */
  function Mix(buf: seq<real>, tmp: seq<real>): (r: seq<real>)
    requires |tmp| <= |buf|
    ensures |r| == |buf|
    ensures forall i :: 0 <= i < |tmp| ==> r[i] == buf[i] + tmp[i]
    ensures forall i :: |tmp| <= i < |buf| ==> r[i] == buf[i]
  {
    seq(|buf|, i requires 0 <= i < |buf| => if i < |tmp| then buf[i] + tmp[i] else buf[i])
  }

  /** The stream objects of a list of nodes. */
  ghost function StreamsOf(es: seq<AudioEntry>): set<object>
  {
    if es == [] then {} else StreamsOf(es[..|es| - 1]) + {StreamObject(es[|es| - 1].stream)}
  }

  /** `ProcessAudio` with what the node's stream returns in its present state. */
  ghost function Step(e: AudioEntry, len: nat): Outcome<(AudioEntry, seq<real>)>
    reads StreamObject(e.stream)
  {
    ProcessAudio(e, Fetch(e.stream, e.from), e.stream.Current(), len)
  }

  /**
   * `audio_process` over all nodes, in order: the new nodes and the output
   * buffer, or a panic if any node's stream panics.
   */
  ghost function ProcessAll(es: seq<AudioEntry>, buf: seq<real>): (r: Outcome<(seq<AudioEntry>, seq<real>)>)
    reads StreamsOf(es)
    ensures r.Ok? ==> |r.value.0| == |es| && |r.value.1| == |buf|
  {
    if es == [] then Ok(([], buf))
    else
      var n := |es| - 1;
      match ProcessAll(es[..n], buf)
      case Panic => Panic
      case Ok((es2, buf2)) =>
        match Step(es[n], |buf|)
        case Panic => Panic
        case Ok((e, taken)) => Ok((es2 + [e], Mix(buf2, taken)))
  }

  /** How much node `e` adds to sample `k` of the output this time. */
  ghost function Contribution(e: AudioEntry, len: nat, k: nat): real
    reads StreamObject(e.stream)
  {
    match Step(e, len)
    case Panic => 0.0
    case Ok((_, taken)) => if k < |taken| then taken[k] else 0.0
  }

  /** The sum of every node's contribution to sample `k`. */
  ghost function TotalContribution(es: seq<AudioEntry>, len: nat, k: nat): real
    reads StreamsOf(es)
  {
    if es == [] then 0.0
    else TotalContribution(es[..|es| - 1], len, k) + Contribution(es[|es| - 1], len, k)
  }

  /**
   * Mixing is addition: when no stream panics, every output sample is its
   * old value plus the sum of what each node took for that position.
   */
  lemma {:induction false} MixIsSum(es: seq<AudioEntry>, buf: seq<real>, k: nat)
    requires ProcessAll(es, buf).Ok? && k < |buf|
    ensures ProcessAll(es, buf).value.1[k] == buf[k] + TotalContribution(es, |buf|, k)
  {
    if es != [] {
      MixIsSum(es[..|es| - 1], buf, k);
    }
  }

  /** Every node's new state is its own `ProcessAudio` step. */
  lemma {:induction false} ProcessAllPerNode(es: seq<AudioEntry>, buf: seq<real>, i: nat)
    requires ProcessAll(es, buf).Ok? && i < |es|
    ensures Step(es[i], |buf|).Ok? && ProcessAll(es, buf).value.0[i] == Step(es[i], |buf|).value.0
  {
    var n := |es| - 1;
    if i < n {
      ProcessAllPerNode(es[..n], buf, i);
    }
  }

  /** The receivers of all nodes. */
  ghost function ChansOf(es: seq<AudioEntry>): set<object>
  {
    if es == [] then {} else ChansOf(es[..|es| - 1]) + {es[|es| - 1].drop.receiver}
  }

  lemma {:induction false} ChansOfAt(es: seq<AudioEntry>, i: nat)
    requires i < |es|
    ensures es[i].drop.receiver in ChansOf(es)
  {
    if i < |es| - 1 {
      ChansOfAt(es[..|es| - 1], i);
    }
  }

  /** Every receiver in `ChansOf(es)` is some node's drop receiver. */
  lemma {:induction false} ChansOfIn(es: seq<AudioEntry>, o: object)
    requires o in ChansOf(es)
    ensures exists i :: 0 <= i < |es| && o == es[i].drop.receiver
  {
    var n := |es| - 1;
    if o != es[n].drop.receiver {
      ChansOfIn(es[..n], o);
      var i :| 0 <= i < n && o == es[..n][i].drop.receiver;
      assert es[..n][i] == es[i];
    }
  }

  /** The drop slots of the nodes. */
  function Drops(es: seq<AudioEntry>): (s: set<NSignal<()>>)
    ensures forall i :: 0 <= i < |es| ==> es[i].drop in s
  {
    set i | 0 <= i < |es| :: es[i].drop
  }

  /** Fewer drop slots own fewer receivers. */
  lemma ChansOfMono(es: seq<AudioEntry>, fs: seq<AudioEntry>)
    requires Drops(es) <= Drops(fs)
    ensures ChansOf(es) <= ChansOf(fs)
  {
    forall o | o in ChansOf(es)
      ensures o in ChansOf(fs)
    {
      ChansOfIn(es, o);
      var i :| 0 <= i < |es| && o == es[i].drop.receiver;
      var j :| 0 <= j < |fs| && fs[j].drop == es[i].drop;
      ChansOfAt(fs, j);
    }
  }

  lemma {:induction false} ManagerNotInChans(es: seq<AudioEntry>, m: AudioNodeManager)
    ensures m !in ChansOf(es)
  {
    if es != [] {
      ManagerNotInChans(es[..|es| - 1], m);
    }
  }

  /**
   * Between two states, the drop slot `c` gave up its request, if any, and
   * was closed iff there was one.
   */
  twostate predicate Handled(c: Chan<()>)
    reads c
  {
    Received(c) &&
    (old(c.Oldest()).Some? ==> !c.receiverAlive) &&
    (old(c.Oldest()).None? ==> c.receiverAlive == old(c.receiverAlive))
  }

  /** The drop requests of every node, in order. */
  ghost function Mails(es: seq<AudioEntry>): (ms: seq<Option<()>>)
    reads ChansOf(es)
    ensures |ms| == |es|
    ensures forall i :: 0 <= i < |es| ==> ms[i] == es[i].drop.receiver.Oldest()
  {
    if es == [] then []
    else
      var n := |es| - 1;
      Mails(es[..n]) + [es[n].drop.receiver.Oldest()]
  }

  /** The closure `update` hands to `retain_mut`: a node whose drop slot holds a request goes. */
  function UpdateAudio(e: AudioEntry, m: Option<()>): (o: Option<AudioEntry>)
    ensures o.None? <==> m.Some?
    ensures o.Some? ==> o.value == e
  {
    if m.Some? then None else Some(e)
  }

  /** Every node has its own capacity-1 drop slot. */
  predicate Managed(es: seq<AudioEntry>)
  {
    (forall i :: 0 <= i < |es| ==> es[i].drop.Valid()) &&
    (forall i, j :: 0 <= i < j < |es| ==> es[i].drop.receiver != es[j].drop.receiver)
  }

  /** `update` keeps exactly the nodes with no drop request, unchanged and in order. */
  lemma {:induction false} UpdateKeepsManaged(es: seq<AudioEntry>, ms: seq<Option<()>>)
    requires |es| == |ms| && Managed(es)
    ensures Managed(RetainMut(es, ms, UpdateAudio))
    ensures forall e :: e in RetainMut(es, ms, UpdateAudio) ==> e in es
  {
    var r, ks := RetainMut(es, ms, UpdateAudio), KeptIndices(es, ms, UpdateAudio);
    RetainMutSpec(es, ms, UpdateAudio);
    forall j | 0 <= j < |r|
      ensures r[j] == es[ks[j]]
    {
      assert UpdateAudio(es[ks[j]], ms[ks[j]]) == Some(r[j]);
    }
    forall j, k | 0 <= j < k < |r|
      ensures r[j].drop.receiver != r[k].drop.receiver
    {
      assert ks[j] < ks[k];
    }
  }

  /** `Managed`, and a pending drop slot belongs to no live node. */
  predicate ManagedWith(es: seq<AudioEntry>, pending: Option<NSignal<()>>)
  {
    Managed(es) &&
    (pending.Some? ==> pending.value.Valid() && forall e :: e in es ==> e.drop.receiver != pending.value.receiver)
  }

  /** Changing queues and cursors but no drop slot keeps the manager well formed. */
  lemma SameDropsManaged(es: seq<AudioEntry>, out: seq<AudioEntry>, pending: Option<NSignal<()>>)
    requires ManagedWith(es, pending) && |out| == |es|
    requires forall i :: 0 <= i < |es| ==> out[i].drop == es[i].drop
    ensures ManagedWith(out, pending)
  {
    forall e | e in out
      ensures pending.Some? ==> e.drop.receiver != pending.value.receiver
    {
      var i :| 0 <= i < |out| && out[i] == e;
      assert es[i] in es;
    }
  }

  class AudioNodeManager {
    var audios: seq<AudioEntry>
    var pending: Option<NSignal<()>>

    ghost predicate Valid()
      reads this
    {
      ManagedWith(audios, pending)
    }

    constructor ()
      ensures Valid() && audios == [] && pending == None
    {
      audios := [];
      pending := None;
    }

    /** `create_node`: a fresh drop signal; a previous pending one is dropped. */
    method CreateNode() returns (raw: RawAudio)
      requires Valid()
      modifies this, if pending.Some? then {pending.value.receiver} else {}
      ensures Valid() && audios == old(audios) && pending.Some?
      ensures raw == RawAudio(SignalInner(pending.value.receiver)) && fresh(pending.value.receiver)
      ensures raw.drop.sender.queue == [] && raw.drop.sender.receiverAlive
      ensures old(pending).Some? ==> !old(pending).value.receiver.receiverAlive
    {
      var drop, ndrop := CreateSignal<()>();
      if pending.Some? {
        pending.value.receiver.CloseReceiver();
      }
      pending := Some(ndrop);
      raw := RawAudio(drop);
    }

    /** `init_node`: takes the pending drop receiver (panicking without one), with an empty queue. */
    method InitNode(builder: AudioBuilder) returns (r: Outcome<()>)
      requires Valid()
      modifies this
      ensures Valid()
      ensures r.Panic? <==> old(pending).None?
      ensures r.Panic? ==> audios == old(audios) && pending == None
      ensures r.Ok? ==> pending == None && audios == old(audios) + [AudioEntry(old(pending).value, builder.stream, [], 0)]
    {
      if pending.None? {
        return Panic;
      }
      audios := audios + [AudioEntry(pending.value, builder.stream, [], 0)];
      pending := None;
      r := Ok(());
    }

    /**
     * `update`: removes exactly the nodes whose drop slot holds a request,
     * keeping the rest in order; every drop slot read is emptied and a
     * removed node's receiver is closed.
     */
    method Update()
      requires Valid()
      modifies this, ChansOf(audios)
      ensures Valid() && pending == old(pending)
      ensures audios == RetainMut(old(audios), old(Mails(audios)), UpdateAudio)
      ensures forall i :: 0 <= i < |old(audios)| ==> Handled(old(audios)[i].drop.receiver)
    {
      ghost var ms := Mails(audios);
      UpdateKeepsManaged(audios, ms);
      forall i | 0 <= i < |audios| ensures audios[i].drop.receiver in ChansOf(audios) {
        ChansOfAt(audios, i);
      }
      ManagerNotInChans(audios, this);
      audios := StepAll(audios, ms, ChansOf(audios));
    }

    /** The `retain_mut` loop of `update`. */
    static method StepAll(es: seq<AudioEntry>, ghost ms: seq<Option<()>>, ghost chans: set<object>) returns (kept: seq<AudioEntry>)
      requires |es| == |ms|
      requires forall i :: 0 <= i < |es| ==> es[i].drop.receiver.Oldest() == ms[i] && es[i].drop.receiver in chans
      requires forall i, j :: 0 <= i < j < |es| ==> es[i].drop.receiver != es[j].drop.receiver
      modifies chans
      ensures kept == RetainMut(es, ms, UpdateAudio)
      ensures forall i :: 0 <= i < |es| ==> Handled(es[i].drop.receiver)
    {
      kept := [];
      for i := 0 to |es|
        invariant kept == RetainMut(es[..i], ms[..i], UpdateAudio)
        invariant forall j :: i <= j < |es| ==> es[j].drop.receiver.queue == old(es[j].drop.receiver.queue)
        invariant forall j :: i <= j < |es| ==> es[j].drop.receiver.receiverAlive == old(es[j].drop.receiver.receiverAlive)
        invariant forall j :: 0 <= j < i ==> Handled(es[j].drop.receiver)
      {
        var e := es[i];
        var d := e.drop.Get();
        if d.Some? {
          e.drop.receiver.CloseReceiver();
        } else {
          kept := kept + [e];
        }
        assert es[..i + 1][..i] == es[..i] && ms[..i + 1][..i] == ms[..i];
      }
      assert es[..|es|] == es && ms[..|es|] == ms;
    }

    /**
     * `audio_process`: for each node in order, fetches what its stream has
     * produced since `from`, queues it, and adds the oldest queued samples
     * into the front of `buffer`, as `ProcessAll` says; a panicking stream
     * panics the call.
     */
    method AudioProcess(buffer: array<real>) returns (r: Outcome<()>)
      requires Valid()
      modifies this, buffer
      ensures r.Panic? <==> old(ProcessAll(audios, buffer[..])).Panic?
      ensures r.Ok? ==> Valid() && pending == old(pending)
      ensures r.Ok? ==> audios == old(ProcessAll(audios, buffer[..])).value.0
      ensures r.Ok? ==> buffer[..] == old(ProcessAll(audios, buffer[..])).value.1
    {
      var es := audios;
      ghost var buf0 := buffer[..];
      var out := [];
      for i := 0 to |es|
        invariant audios == es && pending == old(pending)
        invariant old(ProcessAll(es[..i], buf0)).Ok?
        invariant out == old(ProcessAll(es[..i], buf0)).value.0 && buffer[..] == old(ProcessAll(es[..i], buf0)).value.1
      {
        assert es[..i + 1][..i] == es[..i];
        var e := ProcessOne(es[i], buffer);
        if e.Panic? {
          assert old(ProcessAll(es[..i + 1], buf0)).Panic?;
          assert old(PanicPersists(es, buf0, i + 1); ProcessAll(es, buf0)).Panic?;
          return Panic;
        }
        out := out + [e.value];
      }
      assert es[..|es|] == es;
      audios := out;
      r := Ok(());
      assert old(ProcessAllKeepsManaged(es, buf0); forall i :: 0 <= i < |es| ==> ProcessAll(es, buf0).value.0[i].drop == es[i].drop);
      SameDropsManaged(es, out, pending);
    }
  }

  /**
   * `audio_process`'s work on one node: fetch, queue, then take the oldest
   * samples into the front of `buffer`.
   */
  method ProcessOne(e: AudioEntry, buffer: array<real>) returns (r: Outcome<AudioEntry>)
    modifies buffer
    ensures r.Panic? <==> old(Step(e, buffer.Length)).Panic?
    ensures r.Ok? ==> r.value == old(Step(e, buffer.Length)).value.0
    ensures r.Ok? ==> buffer[..] == Mix(old(buffer[..]), old(Step(e, buffer.Length)).value.1)
  {
    var got := e.stream.AudioBuffer(e.from);
    if got.Panic? {
      return Panic;
    }
    var queue := e.queue;
    var from := e.from;
    if got.value.Some? {
      queue := queue + got.value.value;
      from := e.stream.Current();
    }
    var n := if buffer.Length < |queue| then buffer.Length else |queue|;
    var tmp := queue[..n];
    queue := queue[n..];
    ghost var before := buffer[..];
    for k := 0 to |tmp|
      invariant buffer[..] == Mix(before, tmp[..k])
    {
      buffer[k] := buffer[k] + tmp[k];
    }
    assert tmp[..|tmp|] == tmp;
    r := Ok(e.(queue := queue, from := from));
  }

  /** Once a prefix of the nodes panics, so does the whole list. */
  lemma {:induction false} PanicPersists(es: seq<AudioEntry>, buf: seq<real>, i: nat)
    requires 0 < i <= |es| && ProcessAll(es[..i], buf).Panic?
    ensures ProcessAll(es, buf).Panic?
    decreases |es| - i
  {
    if i < |es| {
      assert es[..i + 1][..i] == es[..i];
      PanicPersists(es, buf, i + 1);
    } else {
      assert es[..i] == es;
    }
  }

  /** Processing changes only queues and `from`, so drop slots stay as they were. */
  lemma {:induction false} ProcessAllKeepsManaged(es: seq<AudioEntry>, buf: seq<real>)
    requires ProcessAll(es, buf).Ok?
    ensures forall i :: 0 <= i < |es| ==> ProcessAll(es, buf).value.0[i].drop == es[i].drop
  {
    forall i | 0 <= i < |es|
      ensures ProcessAll(es, buf).value.0[i].drop == es[i].drop
    {
      ProcessAllPerNode(es, buf, i);
    }
  }
}
