/**
 * The engine (src/engine.rs): it owns the scenes, the node managers, the
 * inbox every scene sends into, the reply slots of the scenes waiting for
 * the next frame, and the frame's audio buffer. Between two frames `run`
 * releases the previous frame's waiters, then serves the inbox one message
 * at a time until every scene still running is waiting for the next frame.
 *
 * The scenes themselves run as tokio tasks the model does not contain: a
 * scene is its id, the messages it sent are the inbox's contents, and which
 * scenes have finished by each turn of the loop is a parameter.
 */
module Engine {
  import opened Common
  import opened Channel
  import opened Node
  import opened EngineMessage
  import opened Scene
  import Rect
  import Video
  import Audio

  /** `EngineScene`: a running scene's id (its join handle is the scheduler's business). */
  datatype EngineScene = EngineScene(id: nat)

  /** The ids of `ss`, in order, strictly increase. */
  predicate Increasing(ss: seq<EngineScene>)
  {
    forall i, j :: 0 <= i < j < |ss| ==> ss[i].id < ss[j].id
  }

  /** The ids of `ss` strictly increase and stay below `counter`, the next id to hand out. */
  predicate Numbered(ss: seq<EngineScene>, counter: nat)
  {
    Increasing(ss) && forall i :: 0 <= i < |ss| ==> ss[i].id < counter
  }

  /**
   * `retain` on the scenes, given the ids `done` of those whose task has
   * finished: the others, in their order.
   */
  function Running(ss: seq<EngineScene>, done: set<nat>): (rs: seq<EngineScene>)
    ensures |rs| <= |ss|
  {
    if ss == [] then []
    else
      var n := |ss| - 1;
      Running(ss[..n], done) + (if ss[n].id in done then [] else [ss[n]])
  }

  /** A scene survives `retain` exactly when it was there and has not finished. */
  lemma {:induction false} RunningSpec(ss: seq<EngineScene>, done: set<nat>)
    ensures forall s :: s in Running(ss, done) <==> s in ss && s.id !in done
  {
    if ss != [] {
      var n := |ss| - 1;
      RunningSpec(ss[..n], done);
      assert ss == ss[..n] + [ss[n]];
    }
  }

  /** `retain` keeps the scenes' order, so their ids still increase. */
  lemma {:induction false} RunningIncreasing(ss: seq<EngineScene>, done: set<nat>)
    requires Increasing(ss)
    ensures Increasing(Running(ss, done))
  {
    if ss != [] {
      var n := |ss| - 1;
      RunningIncreasing(ss[..n], done);
      RunningSpec(ss[..n], done);
      var rs := Running(ss[..n], done);
      forall k | 0 <= k < |rs| ensures rs[k].id < ss[n].id {
        assert rs[k] in rs;
        var j :| 0 <= j < n && ss[..n][j] == rs[k];
      }
    }
  }

  /**
   * The audio buffer's length for one frame: `samples · channels / fps`
   * rounded to the nearest whole number, halves away from zero; so it
   * holds a frame's worth of samples to within half a sample.
   */
  function BufferLen(samples: nat, channels: nat, fps: real): (n: nat)
    requires fps > 0.0
    ensures (samples * channels) as real / fps - 0.5 < n as real <= (samples * channels) as real / fps + 0.5
  {
    ((samples * channels) as real / fps + 0.5).Floor
  }

  /** The reply slot a message carries, as a set of at most one object. */
  function Slot(m: Msg): set<object>
  {
    match m
    case CreateRef(_, reply) => {reply}
    case WaitNextFrame(frame) => {frame}
    case _ => {}
  }

  /** The sender of the message's reply slot is still unused. */
  ghost predicate Unsent(m: Msg)
    reads Slot(m)
  {
    match m
    case CreateRef(_, reply) => !reply.senderDropped
    case WaitNextFrame(frame) => !frame.senderDropped
    case _ => true
  }

  /** The reply slots of the queued messages `q`. */
  ghost function SlotsOf(q: seq<(nat, Msg)>): set<object>
  {
    set k, o | 0 <= k < |q| && o in Slot(q[k].1) :: o
  }

  /** The reply slots of queued messages already exist. */
  lemma SlotsAllocated(q: seq<(nat, Msg)>)
    ensures forall o :: o in SlotsOf(q) ==> allocated(o)
  {
    forall o | o in SlotsOf(q)
      ensures allocated(o)
    {
      var k :| 0 <= k < |q| && o in Slot(q[k].1);
      assert allocated(q[k]);
    }
  }

  /**
   * The index of the first manager of kind `k`, or `|ms|` when there is
   * none: the manager the engine's search loops pick.
   */
  function KindIndex(ms: seq<Manager>, k: Kind): (i: nat)
    ensures i <= |ms| && (i < |ms| ==> ms[i].TyId() == k)
    ensures forall j :: 0 <= j < i ==> ms[j].TyId() != k
  {
    if ms == [] then 0
    else if ms[0].TyId() == k then 0
    else
      var i := 1 + KindIndex(ms[1..], k);
      assert forall j :: 1 <= j < i ==> ms[j] == ms[1..][j - 1];
      i
  }

  /** The manager objects of `ms`. */
  ghost function ObjsOf(ms: seq<Manager>): set<object>
  {
    set i | 0 <= i < |ms| :: ms[i].Obj()
  }

  /** The manager objects of `ms`, in order. */
  ghost function ObjSeq(ms: seq<Manager>): (os: seq<object>)
    ensures |os| == |ms| && forall i :: 0 <= i < |ms| ==> os[i] == ms[i].Obj()
  {
    seq(|ms|, i requires 0 <= i < |ms| => ms[i].Obj())
  }

  /** The receivers each manager of `ms` owns, in order. */
  ghost function ChansSeq(ms: seq<Manager>): (cs: seq<set<object>>)
    reads ObjsOf(ms)
    ensures |cs| == |ms| && forall i :: 0 <= i < |ms| ==> cs[i] == ms[i].Chans()
  {
    seq(|ms|, i requires 0 <= i < |ms| reads ObjsOf(ms) => ms[i].Chans())
  }

  /** All the objects of `cs`. */
  ghost function Union(cs: seq<set<object>>): (u: set<object>)
    ensures forall i :: 0 <= i < |cs| ==> cs[i] <= u
    ensures forall o :: o in u ==> exists i :: 0 <= i < |cs| && o in cs[i]
  {
    set i, o | 0 <= i < |cs| && o in cs[i] :: o
  }

  /** The slots of the waiters `ws`. */
  ghost function SlotSet(ws: seq<OneShot<()>>): set<object>
  {
    set k | 0 <= k < |ws| :: ws[k] as object
  }

  /**
   * Managers with objects `os` and receivers `cs` share nothing with each
   * other nor with the objects `outside` (the engine, its inbox, its audio
   * buffer and the waiters' slots).
   */
  ghost predicate Disjoint(outside: set<object>, os: seq<object>, cs: seq<set<object>>)
  {
    |os| == |cs| &&
    (forall i :: 0 <= i < |os| ==> os[i] !in outside) &&
    (forall i, o :: 0 <= i < |cs| && o in cs[i] ==> o !in outside) &&
    (forall i, j :: 0 <= i < |os| && 0 <= j < |os| && i != j ==> os[i] != os[j] && os[i] !in cs[j]) &&
    (forall i, j, o :: 0 <= i < |cs| && 0 <= j < |cs| && i != j && o in cs[i] ==> o !in cs[j])
  }

  /** The managers `ms` are valid and `Disjoint` from each other and from `outside`. */
  ghost predicate ManagersOk(outside: set<object>, ms: seq<Manager>)
    reads ObjsOf(ms)
  {
    (forall i :: 0 <= i < |ms| ==> ms[i].Valid()) && Disjoint(outside, ObjSeq(ms), ChansSeq(ms))
  }

  /** Separation survives a smaller outside and managers that only lose receivers. */
  lemma DisjointShrink(outside: set<object>, outside': set<object>, os: seq<object>, cs: seq<set<object>>, cs': seq<set<object>>)
    requires Disjoint(outside, os, cs) && outside' <= outside
    requires |cs'| == |cs| && forall i :: 0 <= i < |cs| ==> cs'[i] <= cs[i]
    ensures Disjoint(outside', os, cs')
  {
  }

  /** A new object that none of the managers owns can join `outside`. */
  lemma DisjointOutside(outside: set<object>, os: seq<object>, cs: seq<set<object>>, x: object)
    requires Disjoint(outside, os, cs) && x !in os && x !in Union(cs)
    ensures Disjoint(outside + {x}, os, cs)
  {
  }

  /** A manager object owning nothing, known to nobody, can join the managers. */
  lemma DisjointAppend(outside: set<object>, os: seq<object>, cs: seq<set<object>>, x: object)
    requires Disjoint(outside, os, cs) && x !in outside && x !in os && x !in Union(cs)
    ensures Disjoint(outside, os + [x], cs + [{}])
  {
    var os', cs' := os + [x], cs + [{}];
    assert forall i :: 0 <= i < |os| ==> os'[i] == os[i] && cs'[i] == cs[i];
  }

  /** Manager `i` may gain receivers that nothing else holds. */
  lemma DisjointGrow(outside: set<object>, os: seq<object>, cs: seq<set<object>>, i: nat, extra: set<object>)
    requires Disjoint(outside, os, cs) && i < |cs|
    requires forall o :: o in extra ==> o !in outside && o !in os && o !in Union(cs)
    ensures Disjoint(outside, os, cs[i := cs[i] + extra])
  {
  }

  /** Replacing one manager's receivers by old or newly made ones keeps the managers separate. */
  lemma DisjointRenew(outside: set<object>, os: seq<object>, cs: seq<set<object>>, i: nat, c: set<object>, fp: set<object>)
    requires Disjoint(outside, os, cs) && i < |cs|
    requires forall j :: 0 <= j < |cs| ==> cs[j] <= fp
    requires forall o :: o in c ==> o in cs[i] || (o !in fp && o !in outside && o !in os)
    ensures Disjoint(outside, os, cs[i := c])
  {
  }

  /** Each waiter is a distinct slot whose sender is unused. */
  ghost predicate WaitersOk(ws: seq<OneShot<()>>)
    reads SlotSet(ws)
  {
    (forall k :: 0 <= k < |ws| ==> !ws[k].senderDropped) &&
    (forall k, l :: 0 <= k < l < |ws| ==> ws[k] != ws[l])
  }

  lemma SlotSetAppend(ws: seq<OneShot<()>>, w: OneShot<()>)
    ensures SlotSet(ws + [w]) == SlotSet(ws) + {w}
  {
    var ws' := ws + [w];
    assert ws'[|ws|] == w;
    assert forall k :: 0 <= k < |ws| ==> ws'[k] == ws[k];
  }

  /** The message's reply slot, if any, is outside the engine and belongs to no manager. */
  ghost predicate Clear(m: Msg, outside: set<object>, os: seq<object>, cs: seq<set<object>>)
  {
    forall o :: o in Slot(m) ==> o !in outside && o !in os && o !in Union(cs)
  }

  /**
   * What Rust's moves guarantee of a message in or taken from the inbox:
   * its reply slot's sender is unused, and the slot is `Clear`.
   */
  ghost predicate Free(m: Msg, outside: set<object>, os: seq<object>, cs: seq<set<object>>)
    reads Slot(m)
  {
    Unsent(m) && Clear(m, outside, os, cs)
  }

  /** Every queued message is `Clear`, and no two share a reply slot. */
  ghost predicate Owned(q: seq<(nat, Msg)>, outside: set<object>, os: seq<object>, cs: seq<set<object>>)
  {
    (forall k :: 0 <= k < |q| ==> Clear(q[k].1, outside, os, cs)) &&
    (forall k, l :: 0 <= k < l < |q| ==> Slot(q[k].1) !! Slot(q[l].1))
  }

  /** No queued message's reply slot has been used. */
  ghost predicate AllUnsent(q: seq<(nat, Msg)>)
    reads SlotsOf(q)
  {
    forall k :: 0 <= k < |q| ==> Unsent(q[k].1)
  }

  /** `T::default()` for the manager type of kind `k`: no node, nothing pending. */
  method NewManager(k: Kind, ghost taken: set<object>) returns (m: Manager)
    ensures fresh(m.Obj()) && m.Obj() !in taken && m.Valid() && m.TyId() == k
    ensures m.Chans() == {} && m.Handle().None? && m.Count() == 0
  {
    match k {
      case RectKind =>
        var x := new Rect.RectNodeManager();
        m := RectManager(x);
      case VideoKind =>
        var x := new Video.VideoNodeManager();
        m := VideoManager(x);
      case AudioKind =>
        var x := new Audio.AudioNodeManager();
        m := AudioManager(x);
    }
  }

  /**
   * One turn of the `Submit` arm's loop: the `i`th manager updates; the
   * others are untouched, and the managers stay separate.
   */
  method UpdateAt(ghost outside: set<object>, ms: seq<Manager>, i: nat, ghost fp: set<object>)
    requires ManagersOk(outside, ms) && i < |ms|
    requires forall j :: 0 <= j < |ms| ==> ms[j].Chans() <= fp
    modifies ms[i].Obj(), ms[i].Chans()
    ensures ManagersOk(outside, ms)
    ensures forall j :: 0 <= j < |ms| ==> ms[j].Chans() <= fp
    ensures ms[i].Live() == old(ms[i].AfterUpdate()) && ms[i].Chans() <= old(ms[i].Chans())
    ensures forall j :: 0 <= j < |ms| && j != i ==> unchanged(ms[j].Obj()) && unchanged(ms[j].Chans())
  {
    ghost var cs := ChansSeq(ms);
    ms[i].Update();
    assert forall j :: 0 <= j < |ms| && j != i ==> unchanged(ms[j].Obj()) && ms[j].Chans() == old(ms[j].Chans()) && unchanged(ms[j].Chans());
    DisjointShrink(outside, outside, ObjSeq(ms), cs, ChansSeq(ms));
  }

  /**
   * One turn of the `Submit` arm's loop, in the loop's terms: managers
   * before `i` hold their `after` state, the rest are still to update, and
   * every manager's receivers lie within its `chans` at the start.
   */
  method UpdateNext(ghost outside: set<object>, ms: seq<Manager>, i: nat, ghost fp: set<object>, ghost after: seq<Live>, ghost chans: seq<set<object>>)
    requires ManagersOk(outside, ms) && i < |ms| == |after| == |chans|
    requires forall j :: 0 <= j < |ms| ==> ms[j].Chans() <= fp && ms[j].Chans() <= chans[j]
    requires forall j :: 0 <= j < i ==> ms[j].Live() == after[j]
    requires forall j :: i <= j < |ms| ==> ms[j].AfterUpdate() == after[j]
    modifies ms[i].Obj(), ms[i].Chans()
    ensures ManagersOk(outside, ms)
    ensures forall j :: 0 <= j < |ms| ==> ms[j].Chans() <= fp && ms[j].Chans() <= chans[j]
    ensures forall j :: 0 <= j < i + 1 ==> ms[j].Live() == after[j]
    ensures forall j :: i + 1 <= j < |ms| ==> ms[j].AfterUpdate() == after[j]
  {
    UpdateAt(outside, ms, i, fp);
    assert forall j :: 0 <= j < |ms| && j != i ==> ms[j].Live() == old(ms[j].Live()) && ms[j].AfterUpdate() == old(ms[j].AfterUpdate());
    assert forall j :: 0 <= j < |ms| && j != i ==> ms[j].Chans() == old(ms[j].Chans());
  }

  /** The `Submit` arm's loop over the managers `ms`, whose receivers all lie in `fp`. */
  method UpdateEach(ghost outside: set<object>, ms: seq<Manager>, ghost fp: set<object>)
    requires ManagersOk(outside, ms)
    requires forall j :: 0 <= j < |ms| ==> ms[j].Chans() <= fp
    modifies ObjsOf(ms), fp
    ensures ManagersOk(outside, ms)
    ensures forall j :: 0 <= j < |ms| ==> Updated(ms[j]) && ms[j].Chans() <= old(ms[j].Chans())
  {
    ghost var after := seq(|ms|, j requires 0 <= j < |ms| reads ObjsOf(ms), (if 0 <= j < |ms| then ms[j].Chans() else {}) => ms[j].AfterUpdate());
    ghost var chans := ChansSeq(ms);
    for i := 0 to |ms|
      invariant ManagersOk(outside, ms)
      invariant forall j :: 0 <= j < |ms| ==> ms[j].Chans() <= fp && ms[j].Chans() <= chans[j]
      invariant forall j :: 0 <= j < i ==> ms[j].Live() == after[j]
      invariant forall j :: i <= j < |ms| ==> ms[j].AfterUpdate() == after[j]
    {
      assert ms[i].Obj() in ObjsOf(ms);
      UpdateNext(outside, ms, i, fp, after, chans);
    }
  }

  /**
   * The `CreateRef` arm's call on the `i`th manager: it keeps fresh
   * receivers as its pending node and returns the matching handle; the
   * others are untouched and the managers stay separate.
   */
  method NewNodeAt(ghost outside: set<object>, ms: seq<Manager>, i: nat, ghost fp: set<object>) returns (raw: AnyRaw)
    requires ManagersOk(outside, ms) && i < |ms|
    requires forall j :: 0 <= j < |ms| ==> ms[j].Chans() <= fp
    modifies ms[i].Obj(), ms[i].Chans()
    ensures ManagersOk(outside, ms)
    ensures raw.Tag() == ms[i].TyId() && ms[i].Handle() == Some(raw) && ms[i].Count() == old(ms[i].Count())
    ensures Created(ms[i], raw)
    ensures forall o :: o in ms[i].Chans() ==> o in old(ms[i].Chans()) || fresh(o)
    ensures forall j :: 0 <= j < |ms| && j != i ==> unchanged(ms[j].Obj()) && unchanged(ms[j].Chans())
  {
    ghost var os, cs := ObjSeq(ms), ChansSeq(ms);
    raw := ms[i].CreateNode();
    assert forall j :: 0 <= j < |ms| && j != i ==> unchanged(ms[j].Obj()) && ms[j].Chans() == old(ms[j].Chans()) && unchanged(ms[j].Chans());
    assert forall o :: o in ms[i].Chans() ==> o in cs[i] || (o !in fp && o !in outside && o !in os);
    DisjointRenew(outside, os, cs, i, ms[i].Chans(), fp);
    assert ChansSeq(ms) == cs[i := ms[i].Chans()];
  }

  /**
   * The `CreateRef` arm once the `i`th manager is found: it makes a pending
   * node (`NewNodeAt`) and the handle goes back through `reply`, whose dead
   * receiver panics the `unwrap`.
   */
  method ReplyAt(ghost outside: set<object>, ms: seq<Manager>, i: nat, reply: OneShot<AnyRaw>, ghost fp: set<object>) returns (r: Outcome<()>)
    requires ManagersOk(outside, ms) && i < |ms|
    requires forall j :: 0 <= j < |ms| ==> ms[j].Chans() <= fp
    requires reply !in outside && reply !in ObjsOf(ms) && reply !in fp && !reply.senderDropped
    modifies ms[i].Obj(), ms[i].Chans(), reply
    ensures ManagersOk(outside, ms)
    ensures reply.senderDropped && reply.receiverDropped == old(reply.receiverDropped)
    ensures (r.Panic? <==> old(reply.receiverDropped)) && ms[i].Handle().Some? &&
      ms[i].Handle().value.Tag() == ms[i].TyId() && Created(ms[i], ms[i].Handle().value) &&
      ms[i].Count() == old(ms[i].Count()) && (r.Ok? ==> reply.value == ms[i].Handle())
    ensures forall j :: 0 <= j < |ms| && j != i ==> unchanged(ms[j].Obj())
    ensures forall j :: 0 <= j < |ms| ==> forall o :: o in ms[j].Chans() ==> o in old(ms[j].Chans()) || fresh(o)
  {
    var raw := NewNodeAt(outside, ms, i, fp);
    label Sending:
    var ok := reply.Send(raw);
    assert unchanged@Sending(ObjsOf(ms));
    r := if ok then Ok(()) else Panic;
  }

  /**
   * The `CreateRef` arm on the managers `ms`: the first manager of kind
   * `tag`, the `i`th, answers `reply` (`ReplyAt`); with no manager of that
   * kind `reply` is dropped unsent.
   */
  method CreateAt(ghost outside: set<object>, ms: seq<Manager>, tag: Kind, reply: OneShot<AnyRaw>, ghost fp: set<object>) returns (i: nat, r: Outcome<()>)
    requires ManagersOk(outside, ms)
    requires forall j :: 0 <= j < |ms| ==> ms[j].Chans() <= fp
    requires reply !in outside && reply !in ObjsOf(ms) && reply !in fp && !reply.senderDropped
    modifies ObjsOf(ms), fp, reply
    ensures i == KindIndex(ms, tag)
    ensures ManagersOk(outside, ms)
    ensures RefAnswered(ms, tag, reply, r)
    ensures r.Panic? <==> old(Fails(ms, CreateRef(tag, reply)))
    ensures forall j :: 0 <= j < |ms| && j != i ==> unchanged(ms[j].Obj())
    ensures forall j :: 0 <= j < |ms| ==> forall o :: o in ms[j].Chans() ==> o in old(ms[j].Chans()) || fresh(o)
  {
    i := 0;
    while i < |ms| && ms[i].TyId() != tag
      invariant i <= |ms| && forall j :: 0 <= j < i ==> ms[j].TyId() != tag
    {
      i := i + 1;
    }
    r := ReplyFound(outside, ms, tag, i, reply, fp);
  }

  /** `CreateAt` once the search has stopped at `i`, the first manager of kind `tag` or `|ms|`. */
  method ReplyFound(ghost outside: set<object>, ms: seq<Manager>, tag: Kind, i: nat, reply: OneShot<AnyRaw>, ghost fp: set<object>) returns (r: Outcome<()>)
    requires ManagersOk(outside, ms) && i == KindIndex(ms, tag)
    requires forall j :: 0 <= j < |ms| ==> ms[j].Chans() <= fp
    requires reply !in outside && reply !in ObjsOf(ms) && reply !in fp && !reply.senderDropped
    modifies ObjsOf(ms), fp, reply
    ensures ManagersOk(outside, ms)
    ensures RefAnswered(ms, tag, reply, r)
    ensures r.Panic? <==> old(Fails(ms, CreateRef(tag, reply)))
    ensures forall j :: 0 <= j < |ms| && j != i ==> unchanged(ms[j].Obj())
    ensures forall j :: 0 <= j < |ms| ==> forall o :: o in ms[j].Chans() ==> o in old(ms[j].Chans()) || fresh(o)
  {
    if i == |ms| {
      DismissAt(outside, ms, reply);
      return Ok(());
    }
    r := ReplyAt(outside, ms, i, reply, fp);
  }

  /** The `CreateRef` arm with no manager of the tag's kind: `reply` is dropped unsent, nothing else changes. */
  method DismissAt(ghost outside: set<object>, ms: seq<Manager>, reply: OneShot<AnyRaw>)
    requires ManagersOk(outside, ms) && reply !in ObjsOf(ms)
    modifies reply
    ensures ManagersOk(outside, ms) && unchanged(ObjsOf(ms))
    ensures reply.senderDropped && reply.receiverDropped == old(reply.receiverDropped) && reply.value == old(reply.value)
  {
    ghost var cs := ChansSeq(ms);
    assert forall j :: 0 <= j < |ms| ==> ms[j].Obj() != reply by {
      assert forall j :: 0 <= j < |ms| ==> ms[j].Obj() in ObjsOf(ms);
    }
    reply.DropSender();
    assert forall j :: 0 <= j < |ms| ==> unchanged(ms[j].Obj());
    assert ChansSeq(ms) == cs;
  }

  /**
   * The `CreateElement` arm's call on the `i`th manager with the GL buffer
   * name `buffer`; the others are untouched and receivers only go.
   */
  method InitAt(ghost outside: set<object>, ms: seq<Manager>, i: nat, b: AnyBuilder, buffer: nat) returns (r: Outcome<()>)
    requires ManagersOk(outside, ms) && i < |ms|
    modifies ms[i].Obj()
    ensures ManagersOk(outside, ms) && ms[i].Chans() <= old(ms[i].Chans())
    ensures b.Tag() != ms[i].TyId() ==> r.Panic? && unchanged(ms[i].Obj())
    ensures b.Tag() == ms[i].TyId() ==>
      (r.Panic? <==> old(ms[i].Handle()).None?) && ms[i].Handle().None? &&
      ms[i].Count() == (if r.Ok? then old(ms[i].Count()) + 1 else old(ms[i].Count())) &&
      Built(ms[i], b, buffer, r)
    ensures forall j :: 0 <= j < |ms| && j != i ==> unchanged(ms[j].Obj())
  {
    ghost var os, cs := ObjSeq(ms), ChansSeq(ms);
    r := ms[i].InitNode(b, buffer);
    assert forall j :: 0 <= j < |ms| && j != i ==> unchanged(ms[j].Obj()) && ms[j].Chans() == old(ms[j].Chans());
    DisjointShrink(outside, outside, os, cs, ChansSeq(ms));
  }

  /**
   * The `CreateElement` arm on the managers `ms`: the first manager of kind
   * `tag`, the `i`th, builds its pending node from `b` (`InitAt`); with no
   * manager of that kind the builder is dropped and nothing happens.
   */
  method BuildAt(ghost outside: set<object>, ms: seq<Manager>, tag: Kind, b: AnyBuilder, buffer: nat) returns (i: nat, r: Outcome<()>)
    requires ManagersOk(outside, ms)
    modifies ObjsOf(ms)
    ensures i == KindIndex(ms, tag)
    ensures ManagersOk(outside, ms)
    ensures ElementBuilt(ms, tag, b, buffer, r)
    ensures r.Panic? <==> old(Fails(ms, CreateElement(tag, b)))
    ensures forall j :: 0 <= j < |ms| && j != i ==> unchanged(ms[j].Obj())
    ensures forall j :: 0 <= j < |ms| ==> ms[j].Chans() <= old(ms[j].Chans())
  {
    i := 0;
    while i < |ms| && ms[i].TyId() != tag
      invariant i <= |ms| && forall j :: 0 <= j < i ==> ms[j].TyId() != tag
    {
      i := i + 1;
    }
    r := InitFound(outside, ms, tag, i, b, buffer);
  }

  /** `BuildAt` once the search has stopped at `i`, the first manager of kind `tag` or `|ms|`. */
  method InitFound(ghost outside: set<object>, ms: seq<Manager>, tag: Kind, i: nat, b: AnyBuilder, buffer: nat) returns (r: Outcome<()>)
    requires ManagersOk(outside, ms) && i == KindIndex(ms, tag)
    modifies ObjsOf(ms)
    ensures ManagersOk(outside, ms)
    ensures ElementBuilt(ms, tag, b, buffer, r)
    ensures r.Panic? <==> old(Fails(ms, CreateElement(tag, b)))
    ensures forall j :: 0 <= j < |ms| && j != i ==> unchanged(ms[j].Obj())
    ensures forall j :: 0 <= j < |ms| ==> ms[j].Chans() <= old(ms[j].Chans())
  {
    if i == |ms| {
      return Ok(());
    }
    r := InitAt(outside, ms, i, b, buffer);
  }

  /** `retain` distributes over concatenation. */
  lemma {:induction false} RunningAppend(xs: seq<EngineScene>, ys: seq<EngineScene>, done: set<nat>)
    ensures Running(xs + ys, done) == Running(xs, done) + Running(ys, done)
  {
    if ys == [] {
      assert xs + ys == xs;
    } else {
      var n := |ys| - 1;
      RunningAppend(xs, ys[..n], done);
      assert (xs + ys)[..|xs + ys| - 1] == xs + ys[..n];
      assert (xs + ys)[|xs + ys| - 1] == ys[n];
    }
  }

  /** A `retain` with nothing finished keeps every scene. */
  lemma {:induction false} RunningNone(ss: seq<EngineScene>)
    ensures Running(ss, {}) == ss
  {
    if ss != [] {
      RunningNone(ss[..|ss| - 1]);
      assert ss == ss[..|ss| - 1] + [ss[|ss| - 1]];
    }
  }

  /** Two `retain` passes remove the scenes either pass would remove. */
  lemma {:induction false} RunningTwice(ss: seq<EngineScene>, a: set<nat>, b: set<nat>)
    ensures Running(Running(ss, a), b) == Running(ss, a + b)
  {
    if ss != [] {
      var n := |ss| - 1;
      RunningTwice(ss[..n], a, b);
      RunningAppend(Running(ss[..n], a), if ss[n].id in a then [] else [ss[n]], b);
    }
  }

  /**
   * What the world outside the engine does during one turn of `run`'s loop:
   * the ids of the scenes whose task has finished by the `retain`, and the
   * name the GL context's next `create_buffer` gives.
   */
  datatype Tick = Tick(finished: set<nat>, buffer: nat)

  /** The ids of the scenes finished by the end of the turns `ts`. */
  function FinishedBy(ts: seq<Tick>): (d: set<nat>)
    ensures forall k :: 0 <= k < |ts| ==> ts[k].finished <= d
  {
    if ts == [] then {} else FinishedBy(ts[..|ts| - 1]) + ts[|ts| - 1].finished
  }

  /** The slot a `WaitNextFrame` request adds to the waiters; other requests add none. */
  function FrameOf(m: Msg): seq<OneShot<()>>
  {
    match m
    case WaitNextFrame(f) => [f]
    case _ => []
  }

  /** The reply slots of the `WaitNextFrame` requests among `q`, in order. */
  function Frames(q: seq<(nat, Msg)>): (fs: seq<OneShot<()>>)
    ensures |fs| <= |q|
  {
    if q == [] then [] else Frames(q[..|q| - 1]) + FrameOf(q[|q| - 1].1)
  }

  /**
   * Serving `m` on the managers `ms` panics: the `unwrap` of a reply whose
   * receiver is gone, or the `CreateElement` arm's downcast of a builder of
   * another kind or its `take` of a pending node that is not there. A
   * request for a kind no manager has is dropped and never panics.
   */
  ghost predicate Fails(ms: seq<Manager>, m: Msg)
    reads ObjsOf(ms), Slot(m)
  {
    match m
    case CreateRef(tag, reply) => KindIndex(ms, tag) < |ms| && reply.receiverDropped
    case CreateElement(tag, b) =>
      var i := KindIndex(ms, tag);
      i < |ms| && (b.Tag() != tag || ms[i].Handle().None?)
    case _ => false
  }

  /** The slots the first turn adds: that of the oldest request, if it is a `WaitNextFrame`. */
  lemma FramesFirst(q: seq<(nat, Msg)>)
    ensures Frames(q[..Min(1, |q|)]) == if q == [] then [] else FrameOf(q[0].1)
  {
    if q != [] {
      var none: seq<(nat, Msg)> := [];
      assert q[..1][..0] == none;
    }
  }

  function Min(a: nat, b: nat): nat
  {
    if a < b then a else b
  }

  /** The scenes still running after `k` turns of `run`'s loop over `ticks`, from `ss`. */
  function ScenesAfter(ss: seq<EngineScene>, ticks: seq<Tick>, k: nat): seq<EngineScene>
    requires k <= |ticks|
  {
    Running(ss, FinishedBy(ticks[..k]))
  }

  /** The waiters after `k` turns of `run`'s loop, each turn taking one message of `q`, if any. */
  function WaitersAfter(q: seq<(nat, Msg)>, k: nat): seq<OneShot<()>>
  {
    Frames(q[..Min(k, |q|)])
  }

  /** `run`'s exit test after `k` turns: no more scenes running than waiting. */
  predicate SettledAt(ss: seq<EngineScene>, q: seq<(nat, Msg)>, ticks: seq<Tick>, k: nat)
    requires k <= |ticks|
  {
    |ScenesAfter(ss, ticks, k)| <= |WaitersAfter(q, k)|
  }

  /** `run`'s exit test failed after each of the turns `1..k`. */
  predicate NoneSettled(ss: seq<EngineScene>, q: seq<(nat, Msg)>, ticks: seq<Tick>, k: nat)
    requires k <= |ticks|
  {
    forall j :: 1 <= j <= k ==> !SettledAt(ss, q, ticks, j)
  }

  /** A failed test after turn `k + 1` extends `NoneSettled` by one turn. */
  lemma NoneSettledNext(ss: seq<EngineScene>, q: seq<(nat, Msg)>, ticks: seq<Tick>, k: nat)
    requires k < |ticks| && NoneSettled(ss, q, ticks, k) && !SettledAt(ss, q, ticks, k + 1)
    ensures NoneSettled(ss, q, ticks, k + 1)
  {
  }

  /** One more turn finishes the scenes of one more tick. */
  lemma ScenesAfterNext(ss: seq<EngineScene>, ticks: seq<Tick>, k: nat)
    requires k < |ticks|
    ensures ScenesAfter(ss, ticks, k + 1) == Running(ScenesAfter(ss, ticks, k), ticks[k].finished)
  {
    assert ticks[..k + 1][..k] == ticks[..k];
    RunningTwice(ss, FinishedBy(ticks[..k]), ticks[k].finished);
  }

  /** One more turn adds the slot of the message it takes, if that is a `WaitNextFrame`. */
  lemma WaitersAfterNext(q: seq<(nat, Msg)>, k: nat)
    ensures WaitersAfter(q, k + 1) == WaitersAfter(q, k) + Frames(q[Min(k, |q|)..Min(k + 1, |q|)])
  {
    if k < |q| {
      assert q[..k + 1][..k] == q[..k];
      assert q[k..k + 1] == [q[k]];
      var one: seq<(nat, Msg)> := [q[k]];
      assert Frames(one) == FrameOf(q[k].1) by {
        assert one[..0] == [];
      }
    }
  }
  /** One more turn of `run`'s loop, seen from what is left `p` of the requests `q`. */
  lemma AfterNext(ss: seq<EngineScene>, q: seq<(nat, Msg)>, ticks: seq<Tick>, k: nat, p: seq<(nat, Msg)>)
    requires k < |ticks| && p == q[Min(k, |q|)..]
    ensures ScenesAfter(ss, ticks, k + 1) == Running(ScenesAfter(ss, ticks, k), ticks[k].finished)
    ensures WaitersAfter(q, k + 1) == WaitersAfter(q, k) + Frames(p[..Min(1, |p|)])
    ensures p[Min(1, |p|)..] == q[Min(k + 1, |q|)..]
  {
    ScenesAfterNext(ss, ticks, k);
    WaitersAfterNext(q, k);
    assert p[..Min(1, |p|)] == q[Min(k, |q|)..Min(k + 1, |q|)];
  }


  /** Waiters are only ever added: a scene waiting after `j` turns still waits after `k >= j`. */
  lemma {:induction false} WaitersMono(q: seq<(nat, Msg)>, j: nat, k: nat)
    requires j <= k
    ensures |WaitersAfter(q, j)| <= |WaitersAfter(q, k)|
    decreases k - j
  {
    if j < k {
      WaitersMono(q, j + 1, k);
      WaitersAfterNext(q, j);
    }
  }

  /** The count of scenes still running never grows from turn to turn. */
  lemma {:induction false} ScenesMono(ss: seq<EngineScene>, ticks: seq<Tick>, j: nat, k: nat)
    requires j <= k <= |ticks|
    ensures |ScenesAfter(ss, ticks, k)| <= |ScenesAfter(ss, ticks, j)|
    decreases k - j
  {
    if j < k {
      ScenesMono(ss, ticks, j + 1, k);
      ScenesAfterNext(ss, ticks, j);
    }
  }

  /** Once `run`'s exit test holds it keeps holding, so `run` stops at the first turn it holds. */
  lemma SettledStays(ss: seq<EngineScene>, q: seq<(nat, Msg)>, ticks: seq<Tick>, j: nat, k: nat)
    requires j <= k <= |ticks| && SettledAt(ss, q, ticks, j)
    ensures SettledAt(ss, q, ticks, k)
  {
    WaitersMono(q, j, k);
    ScenesMono(ss, ticks, j, k);
  }

  /** Smaller sets have a smaller union. */
  lemma UnionMono(cs: seq<set<object>>, cs': seq<set<object>>)
    requires |cs'| == |cs| && forall j :: 0 <= j < |cs| ==> cs'[j] <= cs[j]
    ensures Union(cs') <= Union(cs)
  {
  }

  /** Requests whose slots lie outside `outside'` and `cs'` stay `Owned` there. */
  lemma OwnedChange(q: seq<(nat, Msg)>, outside: set<object>, os: seq<object>, cs: seq<set<object>>, outside': set<object>, cs': seq<set<object>>)
    requires Owned(q, outside, os, cs)
    requires forall o :: o in SlotsOf(q) ==> o !in outside' && o !in Union(cs')
    ensures Owned(q, outside', os, cs')
  {
    forall k, o | 0 <= k < |q| && o in Slot(q[k].1)
      ensures o in SlotsOf(q)
    {
    }
  }

  /** The oldest owned request is `Clear`, its slot is nobody else's, and the rest stay `Owned`. */
  lemma OwnedTail(q: seq<(nat, Msg)>, outside: set<object>, os: seq<object>, cs: seq<set<object>>)
    requires Owned(q, outside, os, cs) && q != []
    ensures Clear(q[0].1, outside, os, cs) && Owned(q[1..], outside, os, cs)
    ensures Slot(q[0].1) !! SlotsOf(q[1..]) && SlotsOf(q[1..]) <= SlotsOf(q)
  {
    var t := q[1..];
    assert forall k :: 0 <= k < |t| ==> t[k] == q[k + 1];
    forall o | o in SlotsOf(t)
      ensures o in SlotsOf(q) && o !in Slot(q[0].1)
    {
      var k :| 0 <= k < |t| && o in Slot(t[k].1);
      assert o in Slot(q[k + 1].1);
    }
  }

  /**
   * Between two states the `CreateRef` arm served `reply` on `ms`: with no
   * manager of kind `tag` the slot is dropped unanswered and nothing else
   * changes; otherwise the first such manager has a fresh pending node and
   * its handle went back, unless the scene had dropped its receiver, which
   * panics.
   */
  twostate predicate RefAnswered(ms: seq<Manager>, tag: Kind, reply: OneShot<AnyRaw>, new r: Outcome<()>)
    reads ObjsOf(ms), reply
  {
    var i := KindIndex(ms, tag);
    reply.senderDropped && reply.receiverDropped == old(reply.receiverDropped) &&
    (i == |ms| ==>
      r == Ok(()) && reply.value == old(reply.value) &&
      forall j :: 0 <= j < |ms| ==> unchanged(ms[j].Obj())) &&
    (i < |ms| ==>
      (r.Panic? <==> old(reply.receiverDropped)) && ms[i].Handle().Some? &&
      ms[i].Handle().value.Tag() == tag && Created(ms[i], ms[i].Handle().value) &&
      ms[i].Count() == old(ms[i].Count()) && (r.Ok? ==> reply.value == ms[i].Handle()))
  }

  /**
   * Between two states the `CreateElement` arm served builder `b` on `ms`:
   * with no manager of kind `tag` nothing changes; a builder of another
   * kind panics the downcast; otherwise the first such manager turned its
   * pending node into a live one built from `b`, or panicked with nothing
   * pending.
   */
  twostate predicate ElementBuilt(ms: seq<Manager>, tag: Kind, b: AnyBuilder, buffer: nat, new r: Outcome<()>)
    reads ObjsOf(ms)
  {
    var i := KindIndex(ms, tag);
    (i == |ms| ==> r == Ok(()) && forall j :: 0 <= j < |ms| ==> unchanged(ms[j].Obj())) &&
    (i < |ms| && b.Tag() != tag ==> r.Panic?) &&
    (i < |ms| && b.Tag() == tag ==>
      (r.Panic? <==> old(ms[i].Handle()).None?) && ms[i].Handle().None? &&
      ms[i].Count() == (if r.Ok? then old(ms[i].Count()) + 1 else old(ms[i].Count())) &&
      Built(ms[i], b, buffer, r))
  }

  /** Managers that only lose receivers shrink the engine's footprint. */
  twostate lemma FootprintShrinks(e: Engine)
    requires e.managers == old(e.managers)
    requires forall j :: 0 <= j < |e.managers| ==> e.managers[j].Chans() <= old(e.managers[j].Chans())
    ensures e.Footprint() <= old(e.Footprint())
  {
    UnionMono(old(ChansSeq(e.managers)), ChansSeq(e.managers));
  }

  /**
   * The `drain` loop of `run`: each waiter, oldest first, gets `()`. The
   * `unwrap` stops the loop at the first waiter whose receiver is gone.
   */
  method WakeAll(ws: seq<OneShot<()>>) returns (ok: bool)
    requires WaitersOk(ws)
    modifies SlotSet(ws)
    ensures ok <==> forall k :: 0 <= k < |ws| ==> !old(ws[k].receiverDropped)
    ensures ok ==> forall k :: 0 <= k < |ws| ==> ws[k].value == Some(()) && ws[k].senderDropped
  {
    for k := 0 to |ws|
      invariant forall j :: 0 <= j < k ==> ws[j].value == Some(()) && ws[j].senderDropped && !old(ws[j].receiverDropped)
      invariant forall j :: k <= j < |ws| ==> unchanged(ws[j])
    {
      assert ws[k] in SlotSet(ws);
      var sent := ws[k].Send(());
      if !sent {
        return false;
      }
    }
    ok := true;
  }

  /** Managers whose objects are untouched leave the engine's footprint as it was. */
  twostate lemma FootprintSame(e: Engine)
    requires e.managers == old(e.managers)
    requires forall i :: 0 <= i < |e.managers| ==> unchanged(e.managers[i].Obj())
    ensures e.Footprint() == old(e.Footprint())
  {
    assert ChansSeq(e.managers) == old(ChansSeq(e.managers));
  }

  /**
   * An engine none of whose state, managers or queued reply slots changed
   * keeps `Valid`, `InboxOwned` and its footprint.
   */
  twostate lemma EngineKept(e: Engine)
    requires old(e.Valid() && e.InboxOwned())
    requires unchanged(e) && unchanged(e.inbox)
    requires forall k :: 0 <= k < |e.waiting| ==> unchanged(e.waiting[k])
    requires forall i :: 0 <= i < |e.managers| ==> unchanged(e.managers[i].Obj())
    requires forall o :: o in SlotsOf(e.inbox.queue) ==> unchanged(o)
    ensures e.Valid() && e.InboxOwned() && e.Footprint() == old(e.Footprint())
  {
    assert ObjSeq(e.managers) == old(ObjSeq(e.managers));
    assert ChansSeq(e.managers) == old(ChansSeq(e.managers));
    assert e.Outside() == old(e.Outside());
  }

  /** Managers that only gain new receivers grow the engine's footprint by new objects alone. */
  twostate lemma FootprintGrows(e: Engine)
    requires e.managers == old(e.managers) && e.inbox.queue == old(e.inbox.queue)
    requires forall j :: 0 <= j < |e.managers| ==> forall o :: o in e.managers[j].Chans() ==> o in old(e.managers[j].Chans()) || fresh(o)
    requires forall o :: o in SlotsOf(e.inbox.queue) ==> o !in old(Union(ChansSeq(e.managers)))
    ensures forall o :: o in SlotsOf(e.inbox.queue) ==> o !in Union(ChansSeq(e.managers))
    ensures forall o :: o in Union(ChansSeq(e.managers)) ==> o in old(Union(ChansSeq(e.managers))) || fresh(o)
    ensures forall o :: o in e.Footprint() ==> o in old(e.Footprint()) || fresh(o)
  {
    forall o | o in Union(ChansSeq(e.managers))
      ensures o in old(Union(ChansSeq(e.managers))) || fresh(o)
    {
      var j :| 0 <= j < |e.managers| && o in e.managers[j].Chans();
    }
  }

  /** The stream objects the managers `ms` read from when they render: their videos' and audios'. */
  ghost function StreamsIn(ms: seq<Manager>): set<object>
    reads ObjsOf(ms)
  {
    set i, o | 0 <= i < |ms| && o in Streams(ms[i]) :: o
  }

  /** The stream objects manager `m` reads from when it renders. */
  ghost function Streams(m: Manager): set<object>
    reads m.Obj()
  {
    match m
    case RectManager(_) => {}
    case VideoManager(x) => Video.StreamsOf(x.videos)
    case AudioManager(x) => Audio.StreamsOf(x.audios)
  }

  /** An audio stream exists already, and is neither a manager nor the audio buffer. */
  lemma {:induction false} AudioStreamsApart(es: seq<Audio.AudioEntry>, ms: seq<Manager>, buffer: array<real>)
    ensures forall o :: o in Audio.StreamsOf(es) ==> allocated(o) && o !in ObjsOf(ms) && o != buffer
  {
    if es != [] {
      AudioStreamsApart(es[..|es| - 1], ms, buffer);
    }
  }

  /** The same for a video stream. */
  lemma {:induction false} VideoStreamsApart(vs: seq<Video.RVideo>, ms: seq<Manager>, buffer: array<real>)
    ensures forall o :: o in Video.StreamsOf(vs) ==> allocated(o) && o !in ObjsOf(ms) && o != buffer
  {
    if vs != [] {
      VideoStreamsApart(vs[..|vs| - 1], ms, buffer);
    }
  }

  /** The same for every stream the managers `ms` read. */
  lemma StreamsInApart(ms: seq<Manager>, others: seq<Manager>, buffer: array<real>)
    ensures forall o :: o in StreamsIn(ms) ==> allocated(o) && o !in ObjsOf(others) && o != buffer
  {
    forall o | o in StreamsIn(ms)
      ensures allocated(o) && o !in ObjsOf(others) && o != buffer
    {
      var j :| 0 <= j < |ms| && o in Streams(ms[j]);
      match ms[j]
      case RectManager(_) =>
      case VideoManager(x) => VideoStreamsApart(x.videos, others, buffer);
      case AudioManager(x) => AudioStreamsApart(x.audios, others, buffer);
    }
  }

  /**
   * One manager's part of `render` on the samples `buf`: `render` first,
   * which panics for a rectangle or video manager without a shader and for
   * a video whose texture cannot be made; then `audio_process`, which only
   * an audio manager implements.
   */
  ghost function RenderOne(m: Manager, buf: seq<real>): (r: Outcome<seq<real>>)
    reads m.Obj(), Streams(m)
    ensures r.Ok? ==> |r.value| == |buf|
    ensures r.Ok? && !m.AudioManager? ==> r.value == buf
  {
    match m
    case RectManager(x) => if x.shaderReady then Ok(buf) else Panic
    case VideoManager(x) => if !x.shaderReady || Video.RenderedAll(x.videos).Panic? then Panic else Ok(buf)
    case AudioManager(x) =>
      match Audio.ProcessAll(x.audios, buf)
      case Panic => Panic
      case Ok((_, b)) => Ok(b)
  }

  /**
   * `render` on the managers `ms` from the samples `buf`: each manager in
   * order, as `RenderOne` says, until one panics.
   */
  ghost function RenderAll(ms: seq<Manager>, buf: seq<real>): (r: Outcome<seq<real>>)
    reads ObjsOf(ms), StreamsIn(ms)
  {
    if ms == [] then Ok(buf)
    else
      assert ObjsOf(ms[1..]) <= ObjsOf(ms) && StreamsIn(ms[1..]) <= StreamsIn(ms) && ms[0].Obj() in ObjsOf(ms) by {
        assert forall i :: 0 <= i < |ms| - 1 ==> ms[1..][i] == ms[i + 1];
      }
      match RenderOne(ms[0], buf)
      case Panic => Panic
      case Ok(b) => RenderAll(ms[1..], b)
  }

  /**
   * The state one manager's part of `render` on the samples `buf` leaves
   * it in, when it does not panic: a video manager's videos as
   * `RenderedAll` gives them (their textures), an audio manager's nodes as
   * `ProcessAll` gives them (their queues and read positions); everything
   * else as it was.
   */
  ghost function RenderedLive(m: Manager, buf: seq<real>): Live
    reads m.Obj(), Streams(m)
  {
    match m
    case RectManager(x) => RectLive(x.rects, x.pending, x.shaderReady)
    case VideoManager(x) =>
      VideoLive(match Video.RenderedAll(x.videos) case Ok(vs) => vs case Panic => x.videos, x.pending, x.shaderReady)
    case AudioManager(x) =>
      AudioLive(match Audio.ProcessAll(x.audios, buf) case Ok((es, _)) => es case Panic => x.audios, x.pending)
  }

  /**
   * The states `render` leaves the managers `ms` in from the samples
   * `buf`, in order, up to the first manager that panics.
   */
  ghost function RenderedLives(ms: seq<Manager>, buf: seq<real>): seq<Live>
    reads ObjsOf(ms), StreamsIn(ms)
  {
    if ms == [] then []
    else
      assert ObjsOf(ms[1..]) <= ObjsOf(ms) && StreamsIn(ms[1..]) <= StreamsIn(ms) && ms[0].Obj() in ObjsOf(ms) by {
        assert forall i :: 0 <= i < |ms| - 1 ==> ms[1..][i] == ms[i + 1];
      }
      match RenderOne(ms[0], buf)
      case Panic => []
      case Ok(b) => [RenderedLive(ms[0], buf)] + RenderedLives(ms[1..], b)
  }

  /** `RenderedLives` from the `i`th manager on, unfolded once. */
  lemma LivesFrom(ms: seq<Manager>, i: nat, b: seq<real>)
    requires i < |ms|
    ensures var one := RenderOne(ms[i], b);
      RenderedLives(ms[i..], b) == (if one.Panic? then [] else [RenderedLive(ms[i], b)] + RenderedLives(ms[i + 1..], one.value))
  {
    assert ms[i..][0] == ms[i] && ms[i..][1..] == ms[i + 1..];
  }

  /** A suffix that is `x` in front of `tail` has `x` at its start and `tail` after it. */
  lemma SuffixCons<T>(s: seq<T>, i: nat, x: T, tail: seq<T>)
    requires i <= |s| && s[i..] == [x] + tail
    ensures i < |s| && s[i] == x && s[i + 1..] == tail
  {
    assert s[i..][0] == x;
    assert s[i + 1..] == s[i..][1..];
  }

  /** The managers `ms` are in the states `lives`. */
  ghost predicate Holding(ms: seq<Manager>, lives: seq<Live>)
    reads ObjsOf(ms)
  {
    |lives| == |ms| && forall j :: 0 <= j < |ms| ==> ms[j].Live() == lives[j]
  }

  /**
   * A `render` that does not panic gives every manager a state, and leaves
   * each rectangle manager as it was: only videos and audio nodes change.
   */
  lemma {:induction false} RenderedLivesRectsStay(ms: seq<Manager>, buf: seq<real>)
    requires RenderAll(ms, buf).Ok?
    ensures |RenderedLives(ms, buf)| == |ms|
    ensures forall j :: 0 <= j < |ms| && ms[j].RectManager? ==> RenderedLives(ms, buf)[j] == ms[j].Live()
    decreases |ms|
  {
    if ms != [] {
      var b := RenderOne(ms[0], buf).value;
      assert forall j :: 0 <= j < |ms| - 1 ==> ms[1..][j] == ms[j + 1];
      RenderedLivesRectsStay(ms[1..], b);
    }
  }

  /** `render` keeps the number of samples in the buffer. */
  lemma {:induction false} RenderAllKeepsLength(ms: seq<Manager>, buf: seq<real>)
    ensures RenderAll(ms, buf).Ok? ==> |RenderAll(ms, buf).value| == |buf|
    decreases |ms|
  {
    if ms != [] {
      var one := RenderOne(ms[0], buf);
      if one.Ok? {
        RenderAllKeepsLength(ms[1..], one.value);
      }
    }
  }

  /** Only audio managers write samples: without one, `render` leaves the buffer as it was. */
  lemma {:induction false} RenderAllSilentWithoutAudio(ms: seq<Manager>, buf: seq<real>)
    requires forall j :: 0 <= j < |ms| ==> !ms[j].AudioManager?
    ensures RenderAll(ms, buf).Ok? ==> RenderAll(ms, buf).value == buf
    decreases |ms|
  {
    if ms != [] {
      assert forall j :: 0 <= j < |ms| - 1 ==> ms[1..][j] == ms[j + 1];
      RenderAllSilentWithoutAudio(ms[1..], buf);
    }
  }

  /**
   * The loop body of `render` for the `i`th manager: its `render`, then
   * its `audio_process` on `buffer`, as `RenderOne` says.
   */
  method RenderAt(m: Manager, buffer: array<real>) returns (r: Outcome<()>)
    requires m.Valid()
    modifies m.Obj(), buffer
    ensures r.Panic? <==> old(RenderOne(m, buffer[..])).Panic?
    ensures r.Ok? ==> buffer[..] == old(RenderOne(m, buffer[..])).value
    ensures r.Ok? ==> m.Valid() && m.Chans() == old(m.Chans())
    ensures r.Ok? ==> m.Live() == old(RenderedLive(m, buffer[..]))
  {
    match m {
      case RectManager(_) =>
        r := m.Render();
      case VideoManager(_) =>
        r := RenderVideoAt(m, buffer);
      case AudioManager(_) =>
        r := RenderAudioAt(m, buffer);
    }
  }

  /** `RenderAt` for a video manager, which only draws. */
  method RenderVideoAt(m: Manager, buffer: array<real>) returns (r: Outcome<()>)
    requires m.VideoManager? && m.Valid()
    modifies m.Obj()
    ensures r.Panic? <==> old(RenderOne(m, buffer[..])).Panic?
    ensures r.Ok? ==> buffer[..] == old(RenderOne(m, buffer[..])).value
    ensures r.Ok? ==> m.Valid() && m.Chans() == old(m.Chans())
    ensures r.Ok? ==> m.Live() == old(RenderedLive(m, buffer[..]))
  {
    r := m.Render();
  }

  /** `RenderAt` for an audio manager, whose drawing does nothing. */
  method RenderAudioAt(m: Manager, buffer: array<real>) returns (r: Outcome<()>)
    requires m.AudioManager? && m.Valid()
    modifies m.Obj(), buffer
    ensures r.Panic? <==> old(RenderOne(m, buffer[..])).Panic?
    ensures r.Ok? ==> buffer[..] == old(RenderOne(m, buffer[..])).value
    ensures r.Ok? ==> m.Valid() && m.Chans() == old(m.Chans())
    ensures r.Ok? ==> m.Live() == old(RenderedLive(m, buffer[..]))
  {
    AudioStreamsApart(m.audio.audios, [m], buffer);
    assert [m][0] == m;
    assert m.Obj() in ObjsOf([m]);
    ghost var want := Audio.ProcessAll(m.audio.audios, buffer[..]);
    r := m.Render();
    assert unchanged(m.audio) && buffer[..] == old(buffer[..]);
    assert forall o :: o in Audio.StreamsOf(m.audio.audios) ==> unchanged(o);
    assert Audio.ProcessAll(m.audio.audios, buffer[..]) == want;
    r := m.AudioProcess(buffer);
  }

  /** The managers `ms` are valid and hold the receivers `cs`. */
  ghost predicate Intact(ms: seq<Manager>, cs: seq<set<object>>)
    reads ObjsOf(ms)
  {
    |cs| == |ms| && forall j :: 0 <= j < |ms| ==> ms[j].Valid() && ms[j].Chans() == cs[j]
  }

  /**
   * `render`'s loop at the `i`th of the managers `ms`, which are separate
   * objects: `RenderAt`, after which what is left of `RenderAll` is the
   * same from the samples `buffer` now holds.
   */
  method RenderNext(ms: seq<Manager>, i: nat, buffer: array<real>, ghost cs: seq<set<object>>) returns (r: Outcome<()>)
    requires i < |ms| && Intact(ms, cs) && buffer !in ObjsOf(ms)
    requires forall j :: 0 <= j < |ms| ==> ms[j].Obj() != buffer
    requires forall j :: 0 <= j < |ms| && j != i ==> ms[j].Obj() != ms[i].Obj()
    modifies ms[i].Obj(), buffer
    ensures r.Panic? ==> old(RenderAll(ms[i..], buffer[..])).Panic?
    ensures r.Ok? ==> old(RenderAll(ms[i..], buffer[..])) == RenderAll(ms[i + 1..], buffer[..])
    ensures r.Panic? <==> old(RenderOne(ms[i], buffer[..])).Panic?
    ensures r.Ok? ==> buffer[..] == old(RenderOne(ms[i], buffer[..])).value
    ensures r.Ok? ==> ms[i].Live() == old(RenderedLive(ms[i], buffer[..]))
    ensures r.Ok? ==> Intact(ms, cs)
    ensures forall j :: 0 <= j < |ms| && j != i ==> unchanged(ms[j].Obj())
  {
    var m := ms[i];
    ghost var rest, b := ms[i + 1..], buffer[..];
    assert ms[i..][0] == m && ms[i..][1..] == rest;
    assert m.Obj() !in ObjsOf(rest) && buffer !in ObjsOf(rest) by {
      assert forall j :: 0 <= j < |rest| ==> rest[j] == ms[i + 1 + j];
    }
    assert [m][0] == m;
    assert m.Obj() in ObjsOf([m]);
    StreamsInApart(rest, [m], buffer);
    ghost var one := RenderOne(m, b);
    assert RenderAll(ms[i..], b) == if one.Panic? then Panic else RenderAll(rest, one.value);
    ghost var next := RenderAll(rest, if one.Panic? then b else one.value);
    r := RenderOnly(ms, i, buffer, cs);
    if r.Ok? {
      assert forall o :: o in StreamsIn(rest) ==> unchanged(o);
      assert forall j :: 0 <= j < |rest| ==> unchanged(rest[j].Obj());
      assert RenderAll(rest, buffer[..]) == next;
    }
  }

  /**
   * `RenderNext`, with what is left of `RenderedLives` also the same from
   * the samples `buffer` now holds, behind the `i`th manager's new state.
   */
  method RenderStep(ms: seq<Manager>, i: nat, buffer: array<real>, ghost cs: seq<set<object>>) returns (r: Outcome<()>)
    requires i < |ms| && Intact(ms, cs) && buffer !in ObjsOf(ms)
    requires forall j :: 0 <= j < |ms| ==> ms[j].Obj() != buffer
    requires forall j :: 0 <= j < |ms| && j != i ==> ms[j].Obj() != ms[i].Obj()
    modifies ms[i].Obj(), buffer
    ensures r.Panic? ==> old(RenderAll(ms[i..], buffer[..])).Panic?
    ensures r.Ok? ==> old(RenderAll(ms[i..], buffer[..])) == RenderAll(ms[i + 1..], buffer[..])
    ensures r.Ok? ==> old(RenderedLives(ms[i..], buffer[..])) == [ms[i].Live()] + RenderedLives(ms[i + 1..], buffer[..])
    ensures r.Ok? ==> Intact(ms, cs)
    ensures forall j :: 0 <= j < |ms| && j != i ==> unchanged(ms[j].Obj())
  {
    ghost var rest, b := ms[i + 1..], buffer[..];
    assert ms[i].Obj() !in ObjsOf(rest) && buffer !in ObjsOf(rest) by {
      assert forall j :: 0 <= j < |rest| ==> rest[j] == ms[i + 1 + j];
    }
    assert [ms[i]][0] == ms[i];
    assert ms[i].Obj() in ObjsOf([ms[i]]);
    StreamsInApart(rest, [ms[i]], buffer);
    ghost var one := RenderOne(ms[i], b);
    LivesFrom(ms, i, b);
    ghost var here := RenderedLive(ms[i], b);
    ghost var nextLives := RenderedLives(rest, if one.Panic? then b else one.value);
    ghost var lives := RenderedLives(ms[i..], b);
    assert one.Ok? ==> lives == [here] + nextLives;
    r := RenderNext(ms, i, buffer, cs);
    if r.Ok? {
      assert ms[i].Live() == here;
      assert forall o :: o in StreamsIn(rest) ==> unchanged(o);
      assert forall j :: 0 <= j < |rest| ==> unchanged(rest[j].Obj());
      assert RenderedLives(rest, buffer[..]) == nextLives;
    }
  }

  /** `RenderAt` on the `i`th of the separate managers `ms`, which leaves the others `Intact`. */
  method RenderOnly(ms: seq<Manager>, i: nat, buffer: array<real>, ghost cs: seq<set<object>>) returns (r: Outcome<()>)
    requires i < |ms| && Intact(ms, cs)
    requires forall j :: 0 <= j < |ms| ==> ms[j].Obj() != buffer
    requires forall j :: 0 <= j < |ms| && j != i ==> ms[j].Obj() != ms[i].Obj()
    modifies ms[i].Obj(), buffer
    ensures r.Panic? <==> old(RenderOne(ms[i], buffer[..])).Panic?
    ensures r.Ok? ==> buffer[..] == old(RenderOne(ms[i], buffer[..])).value
    ensures r.Ok? ==> Intact(ms, cs)
    ensures r.Ok? ==> ms[i].Live() == old(RenderedLive(ms[i], buffer[..]))
    ensures forall j :: 0 <= j < |ms| && j != i ==> unchanged(ms[j].Obj())
  {
    r := RenderAt(ms[i], buffer);
    assert forall j :: 0 <= j < |ms| && j != i ==> unchanged(ms[j].Obj());
  }

  /**
   * `render`'s loop over the managers `ms` on the samples in `buffer`:
   * the samples end as `RenderAll` says unless a manager panics, and the
   * managers stay valid, with the same receivers.
   */
  method RenderEach(ms: seq<Manager>, buffer: array<real>, ghost cs: seq<set<object>>) returns (r: Outcome<()>)
    requires Intact(ms, cs)
    requires forall j, k :: 0 <= j < |ms| && 0 <= k < |ms| && j != k ==> ms[j].Obj() != ms[k].Obj()
    requires buffer !in ObjsOf(ms) && forall j :: 0 <= j < |ms| ==> ms[j].Obj() != buffer
    modifies ObjsOf(ms), buffer
    ensures r.Panic? <==> old(RenderAll(ms, buffer[..])).Panic?
    ensures r.Ok? ==> buffer[..] == old(RenderAll(ms, buffer[..])).value
    ensures r.Ok? ==> Intact(ms, cs) && Holding(ms, old(RenderedLives(ms, buffer[..])))
  {
    ghost var lives := RenderedLives(ms, buffer[..]);
    assert ms[0..] == ms;
    for i := 0 to |ms|
      invariant Intact(ms, cs)
      invariant old(RenderAll(ms, buffer[..])) == RenderAll(ms[i..], buffer[..])
      invariant i <= |lives| && lives[i..] == RenderedLives(ms[i..], buffer[..])
      invariant forall j :: 0 <= j < i ==> ms[j].Live() == lives[j]
    {
      assert ms[i].Obj() in ObjsOf(ms);
      label before:
      r := RenderStep(ms, i, buffer, cs);
      if r.Panic? {
        assert old@before(RenderAll(ms[i..], buffer[..])).Panic?;
        return;
      }
      SuffixCons(lives, i, ms[i].Live(), RenderedLives(ms[i + 1..], buffer[..]));
    }
    assert ms[|ms|..] == [];
    assert RenderAll(ms[|ms|..], buffer[..]) == Ok(buffer[..]);
    assert |lives| == |ms|;
    r := Ok(());
  }

  /** Silence in `buffer`, from which `RenderAll` of the untouched managers `ms` is what it was on silence. */
  method Silenced(ms: seq<Manager>, buffer: array<real>)
    requires buffer !in ObjsOf(ms)
    modifies buffer
    ensures buffer[..] == Silence(buffer.Length)
    ensures RenderAll(ms, buffer[..]) == old(RenderAll(ms, Silence(buffer.Length)))
    ensures RenderedLives(ms, buffer[..]) == old(RenderedLives(ms, Silence(buffer.Length)))
  {
    StreamsInApart(ms, ms, buffer);
    ghost var want := RenderAll(ms, Silence(buffer.Length));
    ghost var lives := RenderedLives(ms, Silence(buffer.Length));
    Zero(buffer);
    assert buffer[..] == Silence(buffer.Length);
    assert forall o :: o in StreamsIn(ms) ==> unchanged(o);
    assert forall o :: o in ObjsOf(ms) ==> unchanged(o);
    assert RenderAll(ms, buffer[..]) == want;
    assert RenderedLives(ms, buffer[..]) == lives;
  }

  /** Managers that stay valid with the receivers `cs` they had stay `ManagersOk`. */
  lemma ManagersKept(outside: set<object>, ms: seq<Manager>, cs: seq<set<object>>)
    requires |cs| == |ms| && Disjoint(outside, ObjSeq(ms), cs)
    requires forall j :: 0 <= j < |ms| ==> ms[j].Valid() && ms[j].Chans() == cs[j]
    ensures ManagersOk(outside, ms) && ChansSeq(ms) == cs
  {
  }

  /**
   * `render` on the managers `ms`, separate from each other and from
   * `outside`, with the sample buffer `buffer` in `outside`: silence, then
   * `RenderEach`. The managers stay `ManagersOk` with the same receivers.
   */
  method RenderFrame(ghost outside: set<object>, ms: seq<Manager>, buffer: array<real>) returns (r: Outcome<()>)
    requires ManagersOk(outside, ms) && buffer in outside
    modifies ObjsOf(ms), buffer
    ensures r.Panic? <==> old(RenderAll(ms, Silence(buffer.Length))).Panic?
    ensures r.Ok? ==> buffer[..] == old(RenderAll(ms, Silence(buffer.Length))).value
    ensures r.Ok? ==> ManagersOk(outside, ms) && ChansSeq(ms) == old(ChansSeq(ms))
    ensures r.Ok? ==> Holding(ms, old(RenderedLives(ms, Silence(buffer.Length))))
  {
    ghost var cs := ChansSeq(ms);
    ghost var lives := RenderedLives(ms, Silence(buffer.Length));
    assert buffer !in ObjsOf(ms);
    assert forall j :: 0 <= j < |ms| ==> ObjSeq(ms)[j] == ms[j].Obj() && ms[j].Obj() != buffer;
    Silenced(ms, buffer);
    assert RenderedLives(ms, buffer[..]) == lives;
    assert forall j :: 0 <= j < |ms| ==> unchanged(ms[j].Obj());
    assert Intact(ms, cs);
    r := RenderEach(ms, buffer, cs);
    if r.Ok? {
      ManagersKept(outside, ms, cs);
    }
  }


  /** `n` samples of silence. */
  function Silence(n: nat): (s: seq<real>)
    ensures |s| == n && forall k :: 0 <= k < n ==> s[k] == 0.0
  {
    seq(n, _ => 0.0)
  }

  /** `render`'s first loop: every sample of `a` becomes silence. */
  method Zero(a: array<real>)
    modifies a
    ensures a[..] == Silence(a.Length)
  {
    for k := 0 to a.Length
      invariant forall j :: 0 <= j < k ==> a[j] == 0.0
    {
      a[k] := 0.0;
    }
  }

  class Engine {
    /** The running scenes, oldest first. */
    var scenes: seq<EngineScene>
    /** The id the next scene gets. */
    var counter: nat
    const inbox: Chan<(nat, Msg)>
    /** The reply slots of the scenes waiting for the next frame. */
    var waiting: seq<OneShot<()>>
    const info: InfoCell
    var managers: seq<Manager>
    const audioBuffer: array<real>

    /** The manager objects and the receivers they own. */
    ghost function Footprint(): set<object>
      reads this, ObjsOf(managers)
    {
      ObjsOf(managers) + Union(ChansSeq(managers))
    }

    /** What no manager may own: the engine, its inbox, its audio buffer and the waiters' slots. */
    ghost function Outside(): set<object>
      reads this
    {
      {this, inbox, audioBuffer} + SlotSet(waiting)
    }

    /** Scene ids strictly increase and stay below the counter. */
    ghost predicate Tasks()
      reads this
    {
      Numbered(scenes, counter)
    }

    ghost predicate Valid()
      reads this, inbox, SlotSet(waiting), ObjsOf(managers)
    {
      inbox.Valid() && inbox.capacity == INBOX_CAPACITY && Tasks() &&
      WaitersOk(waiting) && ManagersOk(Outside(), managers)
    }

    /** The messages in the inbox are `Owned` and their slots unused. */
    ghost predicate InboxOwned()
      reads this, inbox, SlotsOf(inbox.queue), ObjsOf(managers)
    {
      Owned(inbox.queue, Outside(), ObjSeq(managers), ChansSeq(managers)) && AllUnsent(inbox.queue)
    }

    /**
     * `Engine::new`: `delta` is one frame at `fps`, the inbox is
     * `channel(8)`, and the audio buffer holds one frame of silence.
     */
    constructor (fps: real, width: nat, height: nat, samples: nat, channels: nat)
      requires fps > 0.0 && width > 0 && height > 0
      ensures Valid() && fresh(inbox) && fresh(info) && fresh(audioBuffer)
      ensures info.info == Info(1.0 / fps, width, height)
      ensures audioBuffer.Length == BufferLen(samples, channels, fps)
      ensures forall k :: 0 <= k < audioBuffer.Length ==> audioBuffer[k] == 0.0
      ensures scenes == [] && counter == 0 && waiting == [] && managers == [] && inbox.queue == [] && inbox.receiverAlive
    {
      scenes := [];
      counter := 0;
      inbox := new Chan<(nat, Msg)>(INBOX_CAPACITY);
      waiting := [];
      info := new InfoCell(Info(1.0 / fps, width, height));
      managers := [];
      audioBuffer := new real[BufferLen(samples, channels, fps)](_ => 0.0);
    }

    /** `finished`: no scene is left running. */
    predicate Finished()
      reads this
    {
      scenes == []
    }

    /**
     * `create_scene`: the new scene gets the counter as its id, the counter
     * moves on, and the scene goes last; its task holds a sender tagged with
     * that id and the shared `Info`. Ids stay distinct and increasing.
     */
    method CreateScene() returns (task: SceneTask)
      requires Valid()
      modifies this
      ensures Valid() && fresh(task)
      ensures task.sender == EngineSender(old(counter), inbox) && task.info == info && task.Valid()
      ensures scenes == old(scenes) + [EngineScene(old(counter))] && counter == old(counter) + 1
      ensures waiting == old(waiting) && managers == old(managers)
    {
      assert this !in ObjSeq(managers);
      var id := counter;
      counter := counter + 1;
      task := new SceneTask(EngineSender(id, inbox), info);
      scenes := scenes + [EngineScene(id)];
      assert forall i :: 0 <= i < |managers| ==> unchanged(managers[i].Obj());
      assert forall k :: 0 <= k < |waiting| ==> unchanged(waiting[k]);
    }

    /** `register_node`: a fresh default manager of kind `k`, registered last. */
    method RegisterNode(k: Kind)
      requires Valid()
      modifies this
      ensures Valid() && |managers| == |old(managers)| + 1 && managers[..|old(managers)|] == old(managers)
      ensures managers[|old(managers)|].TyId() == k && fresh(managers[|old(managers)|].Obj())
      ensures managers[|old(managers)|].Chans() == {} && managers[|old(managers)|].Count() == 0
      ensures scenes == old(scenes) && counter == old(counter) && waiting == old(waiting)
    {
      var m := NewManager(k, Footprint() + Outside());
      assert forall i :: 0 <= i < |managers| ==> unchanged(managers[i].Obj());
      assert forall w :: w in waiting ==> unchanged(w);
      AddManager(m);
    }

    /** Registers `m`, which shares nothing with the engine, last. */
    method AddManager(m: Manager)
      requires Valid() && m.Valid() && m.Chans() == {}
      requires m.Obj() !in Footprint() + Outside()
      modifies this
      ensures Valid() && managers == old(managers) + [m]
      ensures scenes == old(scenes) && counter == old(counter) && waiting == old(waiting)
    {
      ghost var os, cs := ObjSeq(managers), ChansSeq(managers);
      DisjointAppend(Outside(), os, cs, m.Obj());
      managers := managers + [m];
      assert ObjSeq(managers) == os + [m.Obj()];
      assert ChansSeq(managers) == cs + [{}];
    }

    /**
     * `run`'s first step: every scene waiting for the next frame is woken,
     * oldest first, and the list is emptied. A waiter whose receiver is gone
     * panics the `unwrap`, so the whole step panics exactly when one of them
     * had dropped its receiver.
     */
    method Drain() returns (r: Outcome<()>)
      requires Valid() && InboxOwned()
      modifies this, SlotSet(waiting)
      ensures r.Panic? <==> exists k :: 0 <= k < |old(waiting)| && old(waiting[k].receiverDropped)
      ensures r.Ok? ==> Valid() && InboxOwned() && waiting == []
      ensures r.Ok? ==> forall k :: 0 <= k < |old(waiting)| ==> old(waiting)[k].value == Some(()) && old(waiting)[k].senderDropped
      ensures scenes == old(scenes) && counter == old(counter) && managers == old(managers)
      ensures Footprint() == old(Footprint())
    {
      var ws := TakeWaiters();
      r := WakeTaken(ws);
    }

    /** `Drain`'s second half: the waiters `ws` taken out of the engine are woken. */
    method WakeTaken(ws: seq<OneShot<()>>) returns (r: Outcome<()>)
      requires Valid() && InboxOwned() && waiting == [] && WaitersOk(ws)
      requires forall i :: 0 <= i < |managers| ==> managers[i].Obj() !in SlotSet(ws)
      requires this !in SlotSet(ws) && inbox !in SlotSet(ws)
      requires forall o :: o in SlotsOf(inbox.queue) ==> o !in SlotSet(ws)
      modifies SlotSet(ws)
      ensures r.Panic? <==> exists k :: 0 <= k < |ws| && old(ws[k].receiverDropped)
      ensures r.Ok? ==> Valid() && InboxOwned()
      ensures r.Ok? ==> forall k :: 0 <= k < |ws| ==> ws[k].value == Some(()) && ws[k].senderDropped
      ensures Footprint() == old(Footprint())
    {
      var ok := WakeAll(ws);
      assert forall i :: 0 <= i < |managers| ==> unchanged(managers[i].Obj());
      assert forall o :: o in SlotsOf(inbox.queue) ==> unchanged(o);
      EngineKept(this);
      r := if ok then Ok(()) else Panic;
    }

    /** `Drain`'s first half: the waiters leave the engine, which stays `Valid` without them. */
    method TakeWaiters() returns (ws: seq<OneShot<()>>)
      requires Valid() && InboxOwned()
      modifies this
      ensures ws == old(waiting) && waiting == [] && WaitersOk(ws)
      ensures Valid() && InboxOwned() && unchanged(inbox)
      ensures scenes == old(scenes) && counter == old(counter) && managers == old(managers)
      ensures Footprint() == old(Footprint())
      ensures forall i :: 0 <= i < |managers| ==> unchanged(managers[i].Obj()) && managers[i].Obj() !in SlotSet(ws)
      ensures this !in SlotSet(ws) && inbox !in SlotSet(ws)
      ensures forall o :: o in SlotsOf(inbox.queue) ==> o !in SlotSet(ws)
    {
      ghost var os, cs := ObjSeq(managers), ChansSeq(managers);
      ghost var outside := Outside();
      ghost var q := inbox.queue;
      assert SlotsOf(q) !! SlotSet(waiting);
      assert forall i :: 0 <= i < |managers| ==> managers[i].Obj() in ObjSeq(managers);
      ws := waiting;
      waiting := [];
      DisjointShrink(outside, Outside(), os, cs, cs);
      assert forall i :: 0 <= i < |managers| ==> unchanged(managers[i].Obj());
      assert ChansSeq(managers) == cs;
      OwnedChange(q, outside, os, cs, Outside(), cs);
    }

    /**
     * The `Submit` arm: every manager, in order, applies its nodes' mail and
     * drops the nodes asked to go, as `Updated` says; receivers only go.
     */
    method UpdateAll()
      requires Valid() && InboxOwned()
      modifies Footprint()
      ensures Valid() && InboxOwned()
      ensures forall i :: 0 <= i < |managers| ==> Updated(managers[i]) && managers[i].Chans() <= old(managers[i].Chans())
    {
      ghost var q, outside, os, cs := inbox.queue, Outside(), ObjSeq(managers), ChansSeq(managers);
      assert Outside() !! Footprint();
      assert SlotsOf(q) !! Footprint();
      UpdateEach(Outside(), managers, Footprint());
      assert unchanged(inbox) && forall k :: 0 <= k < |waiting| ==> unchanged(waiting[k]);
      assert Union(ChansSeq(managers)) <= Union(cs);
      OwnedChange(q, outside, os, cs, Outside(), ChansSeq(managers));
    }

    /** The `Submit` arm, which never panics. */
    method ServeSubmit() returns (r: Outcome<()>)
      requires Valid() && InboxOwned()
      modifies Footprint()
      ensures r == Ok(()) && Valid() && InboxOwned() && unchanged(this)
      ensures forall i :: 0 <= i < |managers| ==> Updated(managers[i])
      ensures Footprint() <= old(Footprint())
    {
      assert Outside() !! Footprint();
      assert this !in Footprint();
      UpdateAll();
      FootprintShrinks(this);
      r := Ok(());
    }

    /** The `WaitNextFrame` arm: the scene's slot joins the waiters, last. */
    method WaitFor(frame: OneShot<()>)
      requires Valid() && Free(WaitNextFrame(frame), Outside(), ObjSeq(managers), ChansSeq(managers))
      requires InboxOwned() && frame !in SlotsOf(inbox.queue)
      modifies this
      ensures Valid() && InboxOwned() && waiting == old(waiting) + [frame]
      ensures scenes == old(scenes) && counter == old(counter) && managers == old(managers)
      ensures Footprint() == old(Footprint())
    {
      ghost var os, cs := ObjSeq(managers), ChansSeq(managers);
      ghost var outside := Outside();
      OwnedChange(inbox.queue, outside, os, cs, outside + {frame}, cs);
      DisjointOutside(outside, os, cs, frame);
      SlotSetAppend(waiting, frame);
      assert Numbered(scenes, counter);
      waiting := waiting + [frame];
      assert Tasks();
      assert forall i :: 0 <= i < |managers| ==> unchanged(managers[i].Obj());
      assert ObjSeq(managers) == os && ChansSeq(managers) == cs;
      assert Outside() == outside + {frame};
      assert WaitersOk(waiting);
      assert ManagersOk(Outside(), managers);
    }

    /** The `CreateRef` arm: `CreateAt` on the managers. */
    method AnswerRef(tag: Kind, reply: OneShot<AnyRaw>) returns (r: Outcome<()>)
      requires Valid() && Free(CreateRef(tag, reply), Outside(), ObjSeq(managers), ChansSeq(managers))
      modifies Footprint(), reply
      ensures Valid() && RefAnswered(managers, tag, reply, r)
      ensures r.Panic? <==> old(Fails(managers, CreateRef(tag, reply)))
      ensures unchanged(this)
      ensures forall j :: 0 <= j < |managers| ==> forall o :: o in managers[j].Chans() ==> o in old(managers[j].Chans()) || fresh(o)
    {
      assert Outside() !! Footprint();
      assert inbox !in Footprint() && forall k :: 0 <= k < |waiting| ==> waiting[k] !in Footprint();
      ghost var outside := Outside();
      var i;
      i, r := CreateAt(outside, managers, tag, reply, Footprint());
      assert inbox.Valid() && inbox.capacity == INBOX_CAPACITY;
      assert Tasks();
      assert WaitersOk(waiting);
      assert Outside() == outside;
      assert ManagersOk(Outside(), managers);
    }

    /**
     * The `CreateRef` arm with the rest of the inbox in view: the requests
     * still queued keep their slots to themselves.
     */
    method ServeRef(tag: Kind, reply: OneShot<AnyRaw>) returns (r: Outcome<()>)
      requires Valid() && Free(CreateRef(tag, reply), Outside(), ObjSeq(managers), ChansSeq(managers))
      requires InboxOwned() && reply !in SlotsOf(inbox.queue)
      modifies Footprint(), reply
      ensures Valid() && InboxOwned() && RefAnswered(managers, tag, reply, r)
      ensures r.Panic? <==> old(Fails(managers, CreateRef(tag, reply)))
      ensures unchanged(this)
      ensures forall o :: o in Footprint() ==> o in old(Footprint()) || fresh(o)
    {
      ghost var q, outside, os, cs := inbox.queue, Outside(), ObjSeq(managers), ChansSeq(managers);
      assert Outside() !! Footprint();
      assert SlotsOf(q) !! Footprint();
      SlotsAllocated(q);
      r := AnswerRef(tag, reply);
      assert forall o :: o in SlotsOf(q) ==> unchanged(o);
      assert AllUnsent(q);
      FootprintGrows(this);
      OwnedChange(q, outside, os, cs, outside, ChansSeq(managers));
    }

    /**
     * The `CreateElement` arm: `BuildAt` on the managers, `buffer` being the
     * name the GL context's next `create_buffer` gives.
     */
    method BuildElement(tag: Kind, b: AnyBuilder, buffer: nat) returns (r: Outcome<()>)
      requires Valid()
      modifies Footprint()
      ensures Valid() && ElementBuilt(managers, tag, b, buffer, r)
      ensures r.Panic? <==> old(Fails(managers, CreateElement(tag, b)))
      ensures unchanged(this)
      ensures forall j :: 0 <= j < |managers| ==> managers[j].Chans() <= old(managers[j].Chans())
    {
      assert Outside() !! Footprint();
      assert inbox !in Footprint() && forall k :: 0 <= k < |waiting| ==> waiting[k] !in Footprint();
      ghost var outside := Outside();
      var i;
      i, r := BuildAt(outside, managers, tag, b, buffer);
      assert unchanged(this) && unchanged(inbox);
      assert forall k :: 0 <= k < |waiting| ==> unchanged(waiting[k]);
      assert WaitersOk(waiting);
      assert Outside() == outside;
    }

    /** The `CreateElement` arm with the rest of the inbox in view. */
    method ServeElement(tag: Kind, b: AnyBuilder, buffer: nat) returns (r: Outcome<()>)
      requires Valid() && InboxOwned()
      modifies Footprint()
      ensures Valid() && InboxOwned() && ElementBuilt(managers, tag, b, buffer, r)
      ensures r.Panic? <==> old(Fails(managers, CreateElement(tag, b)))
      ensures unchanged(this)
      ensures Footprint() <= old(Footprint())
    {
      ghost var q, outside, os, cs := inbox.queue, Outside(), ObjSeq(managers), ChansSeq(managers);
      assert Outside() !! Footprint();
      assert this !in Footprint();
      assert SlotsOf(q) !! Footprint();
      SlotsAllocated(q);
      r := BuildElement(tag, b, buffer);
      assert forall o :: o in SlotsOf(q) ==> unchanged(o);
      assert AllUnsent(q);
      UnionMono(cs, ChansSeq(managers));
      OwnedChange(q, outside, os, cs, Outside(), ChansSeq(managers));
      FootprintShrinks(this);
    }
  
    /**
     * One served request: the arm of `run`'s `match` for `m`, with the
     * requests still queued keeping their slots to themselves. It panics
     * exactly when `Fails` says so.
     */
    method Serve(m: Msg, buffer: nat) returns (r: Outcome<()>)
      requires Valid() && Free(m, Outside(), ObjSeq(managers), ChansSeq(managers))
      requires InboxOwned() && Slot(m) !! SlotsOf(inbox.queue)
      modifies this, Footprint(), Slot(m)
      ensures r.Panic? <==> old(Fails(managers, m))
      ensures r.Ok? ==> Valid() && InboxOwned()
      ensures scenes == old(scenes) && counter == old(counter) && managers == old(managers)
      ensures waiting == old(waiting) + FrameOf(m)
      ensures m.Submit? ==> forall i :: 0 <= i < |managers| ==> Updated(managers[i])
      ensures m.CreateRef? ==> RefAnswered(managers, m.tag, m.reply, r)
      ensures m.CreateElement? ==> ElementBuilt(managers, m.tag, m.builder, buffer, r)
      ensures forall o :: o in Footprint() ==> o in old(Footprint()) || fresh(o)
    {
      match m {
        case WaitNextFrame(frame) =>
          WaitFor(frame);
          r := Ok(());
        case Submit =>
          r := ServeSubmit();
        case CreateRef(tag, reply) =>
          r := ServeRef(tag, reply);
        case CreateElement(tag, b) =>
          r := ServeElement(tag, b, buffer);
      }
    }

    /** `retain` on the scenes: those whose task finished, by id, go. */
    method Prune(done: set<nat>)
      requires Valid() && InboxOwned()
      modifies this
      ensures Valid() && InboxOwned() && scenes == Running(old(scenes), done)
      ensures counter == old(counter) && waiting == old(waiting) && managers == old(managers)
      ensures Footprint() == old(Footprint())
    {
      assert forall i :: 0 <= i < |managers| ==> managers[i].Obj() != this;
      ghost var outside, cs := Outside(), ChansSeq(managers);
      RunningIncreasing(scenes, done);
      RunningSpec(scenes, done);
      scenes := Running(scenes, done);
      assert forall i :: 0 <= i < |managers| ==> unchanged(managers[i].Obj());
      assert Outside() == outside && ChansSeq(managers) == cs;
    }

    /**
     * `try_recv` on the inbox: the oldest request, if any, leaves it; it
     * is `Free`, and its slot is none of the remaining requests'.
     */
    method Take() returns (got: Option<(nat, Msg)>)
      requires Valid() && InboxOwned()
      modifies inbox
      ensures got.None? <==> old(inbox.queue) == []
      ensures got.Some? ==> got.value == old(inbox.queue)[0]
      ensures inbox.queue == old(inbox.queue)[Min(1, |old(inbox.queue)|)..]
      ensures Valid() && InboxOwned() && Footprint() == old(Footprint()) && Outside() == old(Outside())
      ensures got.Some? ==> Free(got.value.1, Outside(), ObjSeq(managers), ChansSeq(managers))
      ensures got.Some? ==> Slot(got.value.1) !! SlotsOf(inbox.queue) && Slot(got.value.1) <= old(SlotsOf(inbox.queue))
      ensures SlotsOf(inbox.queue) <= old(SlotsOf(inbox.queue))
      ensures got.Some? ==> Fails(managers, got.value.1) == old(Fails(managers, inbox.queue[0].1))
    {
      ghost var q, outside, os, cs := inbox.queue, Outside(), ObjSeq(managers), ChansSeq(managers);
      assert inbox !in ObjsOf(managers) && inbox !in Union(cs);
      got := inbox.TryRecv();
      assert forall i :: 0 <= i < |managers| ==> unchanged(managers[i].Obj());
      assert ChansSeq(managers) == cs;
      if got.Some? {
        OwnedTail(q, outside, os, cs);
        assert q[0].1 == got.value.1 && Unsent(q[0].1);
        assert Slot(q[0].1) <= SlotsOf(q);
        assert forall k :: 0 <= k < |inbox.queue| ==> inbox.queue[k] == q[k + 1];
      }
    }

    /**
     * One turn of `run`'s loop: take the oldest request, if any, and serve
     * it; then drop the scenes finished by then, as `t` says. The turn
     * panics exactly when the request it took `Fails`.
     */
    method Step(t: Tick) returns (r: Outcome<()>)
      requires Valid() && InboxOwned()
      modifies this, inbox, Footprint(), SlotsOf(inbox.queue)
      ensures inbox.queue == old(inbox.queue)[Min(1, |old(inbox.queue)|)..]
      ensures SlotsOf(inbox.queue) <= old(SlotsOf(inbox.queue))
      ensures counter == old(counter) && managers == old(managers)
      ensures r.Panic? <==> old(inbox.queue) != [] && old(Fails(managers, inbox.queue[0].1))
      ensures r.Ok? ==> Valid() && InboxOwned() && scenes == Running(old(scenes), t.finished)
      ensures r.Ok? ==> waiting == old(waiting) + Frames(old(inbox.queue)[..Min(1, |old(inbox.queue)|)])
      ensures forall o :: o in Footprint() ==> o in old(Footprint()) || fresh(o)
    {
      FramesFirst(inbox.queue);
      assert Outside() !! Footprint();
      var got := Take();
      r := Ok(());
      if got.Some? {
        r := Serve(got.value.1, t.buffer);
      }
      if r.Ok? {
        Prune(t.finished);
      }
    }

    /**
     * The engine as `run`'s loop leaves it after `k` turns over `ticks`,
     * starting from the scenes `ss` and the queued requests `q`.
     */
    ghost predicate After(ss: seq<EngineScene>, q: seq<(nat, Msg)>, ticks: seq<Tick>, k: nat)
      reads this, inbox
    {
      k <= |ticks| && scenes == ScenesAfter(ss, ticks, k) && waiting == WaitersAfter(q, k) &&
      inbox.queue == q[Min(k, |q|)..] && SlotsOf(inbox.queue) <= SlotsOf(q)
    }

    /** Turn `k + 1` of `run`'s loop: a `Step` on `ticks[k]` moves `After` on by one. */
    method Turn(ghost ss: seq<EngineScene>, ghost q: seq<(nat, Msg)>, ticks: seq<Tick>, k: nat) returns (s: Outcome<()>)
      requires k < |ticks| && Valid() && InboxOwned() && After(ss, q, ticks, k)
      modifies this, inbox, Footprint(), SlotsOf(inbox.queue)
      ensures managers == old(managers) && counter == old(counter)
      ensures s.Ok? ==> Valid() && InboxOwned() && After(ss, q, ticks, k + 1)
      ensures s.Panic? ==> k < |q|
      ensures forall o :: o in Footprint() ==> o in old(Footprint()) || fresh(o)
    {
      ghost var p := inbox.queue;
      AfterNext(ss, q, ticks, k, p);
      s := Step(ticks[k]);
    }

    /**
     * `run`: release the previous frame's waiters, then turn the loop, one
     * `Step` per tick, until no more scenes are running than waiting. The
     * inbox holds the requests the scenes sent before `run` began; the
     * result is the number of turns, or `Pending` if `ticks` ran out
     * first. A waiter whose receiver is gone panics the first part; unless
     * `run` panics, every waiter of the previous frame has been sent `()`.
     */
    method Run(ticks: seq<Tick>) returns (r: Poll<nat>)
      requires Valid() && InboxOwned()
      modifies this, inbox, Footprint(), SlotSet(waiting), SlotsOf(inbox.queue)
      ensures managers == old(managers) && counter == old(counter)
      ensures (exists k :: 0 <= k < |old(waiting)| && old(waiting[k].receiverDropped)) ==> r.Panicked?
      ensures !r.Panicked? ==> forall k :: 0 <= k < |old(waiting)| ==> old(waiting)[k].value == Some(()) && old(waiting)[k].senderDropped
      ensures r.Ready? ==>
        1 <= r.value <= |ticks| && SettledAt(old(scenes), old(inbox.queue), ticks, r.value) &&
        NoneSettled(old(scenes), old(inbox.queue), ticks, r.value - 1)
      ensures r.Pending? ==> NoneSettled(old(scenes), old(inbox.queue), ticks, |ticks|)
      ensures r.Panicked? ==> (exists k :: 0 <= k < |old(waiting)| && old(waiting[k].receiverDropped)) || old(inbox.queue) != []
      ensures !r.Panicked? ==>
        Valid() && InboxOwned() && After(old(scenes), old(inbox.queue), ticks, if r.Ready? then r.value else |ticks|)
    {
      ghost var w0 := waiting;
      assert Outside() !! Footprint();
      assert SlotsOf(inbox.queue) !! SlotSet(w0);
      var d := Drain();
      if d.Panic? {
        return Panicked;
      }
      r := Loop(ticks);
    }

    /**
     * `run`'s loop, after the waiters are released: one `Step` per tick
     * until no more scenes are running than waiting, or until `ticks` run
     * out (`Pending`). The waiters' slots taken out before are not touched.
     */
    method Loop(ticks: seq<Tick>) returns (r: Poll<nat>)
      requires Valid() && InboxOwned() && waiting == []
      modifies this, inbox, Footprint(), SlotsOf(inbox.queue)
      ensures managers == old(managers) && counter == old(counter)
      ensures r.Ready? ==>
        1 <= r.value <= |ticks| && SettledAt(old(scenes), old(inbox.queue), ticks, r.value) &&
        NoneSettled(old(scenes), old(inbox.queue), ticks, r.value - 1)
      ensures r.Pending? ==> NoneSettled(old(scenes), old(inbox.queue), ticks, |ticks|)
      ensures r.Panicked? ==> old(inbox.queue) != []
      ensures !r.Panicked? ==>
        Valid() && InboxOwned() && After(old(scenes), old(inbox.queue), ticks, if r.Ready? then r.value else |ticks|)
    {
      ghost var ss, q := scenes, inbox.queue;
      assert After(ss, q, ticks, 0) by {
        RunningNone(ss);
        assert ticks[..0] == [];
      }
      var k := 0;
      while k < |ticks|
        invariant Valid() && InboxOwned() && After(ss, q, ticks, k)
        invariant managers == old(managers) && counter == old(counter)
        invariant NoneSettled(ss, q, ticks, k)
        invariant forall o :: o in Footprint() ==> o in old(Footprint()) || fresh(o)
      {
        var s := Turn(ss, q, ticks, k);
        if s.Panic? {
          return Panicked;
        }
        assert |scenes| <= |waiting| <==> SettledAt(ss, q, ticks, k + 1);
        if |scenes| <= |waiting| {
          return Ready(k + 1);
        }
        NoneSettledNext(ss, q, ticks, k);
        k := k + 1;
      }
      r := Pending;
    }

    /**
     * `render`: the audio buffer becomes silence, then each manager in
     * order draws and runs `audio_process` on it, so the buffer ends as
     * `RenderAll` from silence says, unless a manager panics. The managers'
     * receivers stay as they were.
     */
    method Render() returns (r: Outcome<()>)
      requires Valid()
      modifies audioBuffer, ObjsOf(managers)
      ensures r.Panic? <==> old(RenderAll(managers, Silence(audioBuffer.Length))).Panic?
      ensures r.Ok? ==> Valid() && audioBuffer[..] == old(RenderAll(managers, Silence(audioBuffer.Length))).value
      ensures r.Ok? ==> Footprint() == old(Footprint())
      ensures r.Ok? ==> Holding(managers, old(RenderedLives(managers, Silence(audioBuffer.Length))))
    {
      assert this !in ObjsOf(managers) && audioBuffer !in ObjsOf(managers);
      r := RenderFrame(Outside(), managers, audioBuffer);
      assert unchanged(this) && unchanged(inbox);
    }
  }
}
