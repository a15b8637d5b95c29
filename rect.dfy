/**
 * Rectangles (src/rect.rs): the builder a scene describes a rectangle with,
 * the four-vertex mesh drawn for it, and the engine-side node manager that
 * keeps one entry per live rectangle and applies the values the scene sends
 * through its signals once per frame.
 */
module Rect {
  import opened Common
  import opened Channel
  import opened VertexArray
  import opened Color

  /** What a rectangle looks like: half-extents, fill colour, centre. */
  datatype RectBuilder = RectBuilder(size: Vec2, color: Color, position: Vec2)

  /** `RectBuilder::new`: a rectangle centred on the origin. */
  function NewRectBuilder(size: Vec2, color: Color): (b: RectBuilder)
    ensures b.size == size && b.color == color && b.position == (0.0, 0.0)
  {
    RectBuilder(size, color, (0.0, 0.0))
  }

  /** `RectBuilder::with_position`: moves the centre, keeps the rest. */
  function WithPosition(b: RectBuilder, position: Vec2): (r: RectBuilder)
    ensures r.position == position && r.size == b.size && r.color == b.color
  {
    b.(position := position)
  }

  /** One vertex as laid out in the GPU buffer. */
  datatype RectVertex = RectVertex(position: Vec2, color: Color)

  /** `RectVertex::fields`: a 2-float position, then an RGBA colour. */
  const RECT_VERTEX_FIELDS: seq<Field> := [NewField("position", ArrayType(2)), NewField("color", COLOR_TYPE)]

  /**
   * The attribute calls a rectangle's vertex array makes: position at byte 0,
   * colour at byte 8, both with the 24-byte vertex as stride.
   */
  const RECT_LAYOUT: seq<AttribCall> :=
    [AttribCall(0, 2, GL_FLOAT, false, 24, 0), AttribCall(1, 4, GL_FLOAT, false, 24, 8)]

  /**
   * `create_vertex_array::<RectVertex>(buffer).build(gcx)`: the automatic
   * layout of `RectVertex` over the given buffer; it never hits the
   * zero-stride panic.
   */
  method RectVertexArray(buffer: Buffer) returns (va: VertexArrayObject)
    ensures va == VertexArrayObject(buffer, RECT_LAYOUT)
  {
    var b := new VertexArrayBuilder(RECT_VERTEX_FIELDS, buffer);
    assert TotalSize(RECT_VERTEX_FIELDS[..1]) == 8;
    assert RECT_VERTEX_FIELDS[..2] == RECT_VERTEX_FIELDS;
    var r := b.Build();
    if r.Panic? {
      assert false;
    }
    va := r.value;
  }

  /**
   * `build_mesh`: the four corners of the rectangle, walked around its
   * outline, all in the builder's colour. Opposite corners are centred on
   * the position and span twice the size; consecutive corners share one
   * coordinate, so the fan of the four is the filled rectangle.
   */
  function BuildMesh(b: RectBuilder): (m: seq<RectVertex>)
    ensures |m| == 4
    ensures forall i :: 0 <= i < 4 ==> m[i].color == b.color
    ensures (m[0].position.0 + m[2].position.0) / 2.0 == b.position.0
    ensures (m[0].position.1 + m[2].position.1) / 2.0 == b.position.1
    ensures (m[1].position.0 + m[3].position.0) / 2.0 == b.position.0
    ensures (m[1].position.1 + m[3].position.1) / 2.0 == b.position.1
    ensures m[2].position.0 - m[0].position.0 == 2.0 * b.size.0
    ensures m[2].position.1 - m[0].position.1 == 2.0 * b.size.1
    ensures m[0].position.0 == m[1].position.0 && m[2].position.0 == m[3].position.0
    ensures m[1].position.1 == m[2].position.1 && m[3].position.1 == m[0].position.1
  {
    var (sx, sy) := b.size;
    var (px, py) := b.position;
    [ RectVertex((-sx + px, -sy + py), b.color),
      RectVertex((-sx + px, sy + py), b.color),
      RectVertex((sx + px, sy + py), b.color),
      RectVertex((sx + px, -sy + py), b.color) ]
  }

  /** The manager's ends of a rectangle's four signals. */
  datatype NRectInner = NRectInner(drop: NSignal<()>, position: NSignal<Vec2>, size: NSignal<Vec2>, color: NSignal<Color>)
  {
    /** The receivers this rectangle owns. */
    function Chans(): set<object>
    {
      {drop.receiver, position.receiver, size.receiver, color.receiver}
    }

    /** Four separate capacity-1 slots. */
    predicate Valid()
    {
      drop.Valid() && position.Valid() && size.Valid() && color.Valid() &&
      position.receiver != size.receiver
    }

    /** The values `update` will find in the four slots. */
    ghost function Mail(): RectMail
      reads Chans()
    {
      RectMail(position.receiver.Oldest(), size.receiver.Oldest(), color.receiver.Oldest(), drop.receiver.Oldest())
    }

    /** The senders that share these receivers' channels. */
    function Senders(): (raw: RawRect)
      ensures raw.drop.sender == drop.receiver && raw.position.sender == position.receiver
      ensures raw.size.sender == size.receiver && raw.color.sender == color.receiver
    {
      RawRect(SignalInner(drop.receiver), SignalInner(position.receiver), SignalInner(size.receiver), SignalInner(color.receiver))
    }
  }

  /** The scene's ends of a rectangle's four signals. */
  datatype RawRect = RawRect(drop: SignalInner<()>, position: SignalInner<Vec2>, size: SignalInner<Vec2>, color: SignalInner<Color>)

  /** What one frame's `update` receives for a rectangle. */
  datatype RectMail = RectMail(position: Option<Vec2>, size: Option<Vec2>, color: Option<Color>, drop: Option<()>)

  /**
   * A live rectangle: its vertex array, its current description, its signal
   * receivers, the vertices in its GPU buffer, and how often that buffer
   * has been written.
   */
  datatype NRect = NRect(va: VertexArrayObject, builder: RectBuilder, inner: NRectInner, mesh: seq<RectVertex>, uploads: nat)
  {
    predicate Valid()
    {
      inner.Valid() && va.calls == RECT_LAYOUT && mesh == BuildMesh(builder)
    }
  }

  /**
   * The closure `update` hands to `retain_mut`: every delivered value
   * replaces its field; a drop request removes the rectangle; otherwise the
   * buffer is rewritten with the new mesh when anything arrived.
   */
  function UpdateRect(r: NRect, m: RectMail): (o: Option<NRect>)
    ensures o.None? <==> m.drop.Some?
    ensures o.Some? ==> o.value.inner == r.inner && o.value.va == r.va
    ensures o.Some? ==> o.value.builder == RectBuilder(ValueOr(m.size, r.builder.size), ValueOr(m.color, r.builder.color), ValueOr(m.position, r.builder.position))
    ensures o.Some? ==> (o.value.uploads == r.uploads + 1 <==> m.position.Some? || m.size.Some? || m.color.Some?)
    ensures o.Some? ==> o.value.uploads <= r.uploads + 1
    ensures o.Some? && r.Valid() ==> o.value.Valid()
  {
    var b := RectBuilder(ValueOr(m.size, r.builder.size), ValueOr(m.color, r.builder.color), ValueOr(m.position, r.builder.position));
    var rebuild := m.position.Some? || m.size.Some? || m.color.Some?;
    if m.drop.Some? then None
    else if rebuild then Some(r.(builder := b, mesh := BuildMesh(b), uploads := r.uploads + 1))
    else Some(r.(builder := b))
  }

  /** The receivers of every rectangle in `rs`. */
  ghost function ChansOf(rs: seq<NRect>): set<object>
  {
    if rs == [] then {} else ChansOf(rs[..|rs| - 1]) + rs[|rs| - 1].inner.Chans()
  }

  lemma {:induction false} ChansOfAt(rs: seq<NRect>, i: nat)
    requires i < |rs|
    ensures rs[i].inner.Chans() <= ChansOf(rs)
  {
    if i < |rs| - 1 {
      ChansOfAt(rs[..|rs| - 1], i);
    }
  }

  /** Between two states, none of `n`'s receivers changed. */
  twostate predicate Untouched(n: NRectInner)
    reads n.Chans()
  {
    n.drop.receiver.queue == old(n.drop.receiver.queue) &&
    n.drop.receiver.receiverAlive == old(n.drop.receiver.receiverAlive) &&
    n.position.receiver.queue == old(n.position.receiver.queue) &&
    n.position.receiver.receiverAlive == old(n.position.receiver.receiverAlive) &&
    n.size.receiver.queue == old(n.size.receiver.queue) &&
    n.size.receiver.receiverAlive == old(n.size.receiver.receiverAlive) &&
    n.color.receiver.queue == old(n.color.receiver.queue) &&
    n.color.receiver.receiverAlive == old(n.color.receiver.receiverAlive)
  }

  /** Untouched receivers still hold the same mail. */
  twostate lemma UntouchedMail(n: NRectInner)
    requires Untouched(n)
    ensures n.Mail() == old(n.Mail())
  {
  }

  /** Between two states, each of `n`'s slots gave up its value, if any. */
  twostate predicate Consumed(n: NRectInner)
    reads n.Chans()
  {
    Received(n.drop.receiver) && Received(n.position.receiver) &&
    Received(n.size.receiver) && Received(n.color.receiver)
  }

  /** Between two states, `n`'s receivers were closed if its drop slot held a request. */
  twostate predicate ClosedIfDropped(n: NRectInner)
    reads n.Chans()
  {
    old(n.drop.receiver.Oldest()).Some? ==>
      !n.drop.receiver.receiverAlive && !n.position.receiver.receiverAlive &&
      !n.size.receiver.receiverAlive && !n.color.receiver.receiverAlive
  }

  lemma {:induction false} ManagerNotInChans(rs: seq<NRect>, m: RectNodeManager)
    ensures m !in ChansOf(rs)
  {
    if rs != [] {
      ManagerNotInChans(rs[..|rs| - 1], m);
    }
  }

  /** Every receiver in `ChansOf(rs)` belongs to one of the rectangles. */
  lemma {:induction false} ChansOfIn(rs: seq<NRect>, o: object)
    requires o in ChansOf(rs)
    ensures exists i :: 0 <= i < |rs| && o in rs[i].inner.Chans()
  {
    var n := |rs| - 1;
    if o !in rs[n].inner.Chans() {
      ChansOfIn(rs[..n], o);
      var i :| 0 <= i < n && o in rs[..n][i].inner.Chans();
      assert rs[..n][i] == rs[i];
    }
  }

  /** Fewer receiver bundles own fewer receivers. */
  lemma ChansOfMono(rs: seq<NRect>, ss: seq<NRect>)
    requires Inners(rs) <= Inners(ss)
    ensures ChansOf(rs) <= ChansOf(ss)
  {
    forall o | o in ChansOf(rs)
      ensures o in ChansOf(ss)
    {
      ChansOfIn(rs, o);
      var i :| 0 <= i < |rs| && o in rs[i].inner.Chans();
      var j :| 0 <= j < |ss| && ss[j].inner == rs[i].inner;
      ChansOfAt(ss, j);
    }
  }

  /** Between two states, `update` consumed `n`'s mail and honoured its drop request. */
  twostate predicate Handled(n: NRectInner)
    reads n.Chans()
  {
    Consumed(n) && ClosedIfDropped(n)
  }

  /** The mail of every rectangle in `rs`, in order. */
  ghost function Mails(rs: seq<NRect>): (ms: seq<RectMail>)
    reads ChansOf(rs)
    ensures |ms| == |rs|
    ensures forall i :: 0 <= i < |rs| ==> ms[i] == rs[i].inner.Mail()
  {
    if rs == [] then []
    else
      var n := |rs| - 1;
      Mails(rs[..n]) + [rs[n].inner.Mail()]
  }

  /** Two rectangles share no receiver. */
  predicate Apart(a: NRectInner, b: NRectInner)
  {
    a.drop.receiver != b.drop.receiver && a.color.receiver != b.color.receiver &&
    a.position.receiver != b.position.receiver && a.size.receiver != b.size.receiver &&
    a.position.receiver != b.size.receiver && a.size.receiver != b.position.receiver
  }

  /** Every rectangle is well formed and no two share a receiver. */
  predicate Managed(rs: seq<NRect>)
  {
    (forall i :: 0 <= i < |rs| ==> rs[i].Valid()) &&
    (forall i, j :: 0 <= i < j < |rs| ==> Apart(rs[i].inner, rs[j].inner))
  }

  /** The receiver bundles of `rs`. */
  function Inners(rs: seq<NRect>): (s: set<NRectInner>)
    ensures forall i :: 0 <= i < |rs| ==> rs[i].inner in s
  {
    set i | 0 <= i < |rs| :: rs[i].inner
  }

  /**
   * A frame's `update` keeps the manager well formed, and every rectangle
   * it keeps is one it had, with the same receivers.
   */
  lemma {:induction false} UpdateKeepsManaged(rs: seq<NRect>, ms: seq<RectMail>)
    requires |rs| == |ms| && Managed(rs)
    ensures Managed(RetainMut(rs, ms, UpdateRect))
    ensures Inners(RetainMut(rs, ms, UpdateRect)) <= Inners(rs)
  {
    var r, ks := RetainMut(rs, ms, UpdateRect), KeptIndices(rs, ms, UpdateRect);
    RetainMutSpec(rs, ms, UpdateRect);
    forall j | 0 <= j < |r|
      ensures r[j].Valid() && r[j].inner == rs[ks[j]].inner
    {
      assert UpdateRect(rs[ks[j]], ms[ks[j]]) == Some(r[j]);
    }
    forall j, k | 0 <= j < k < |r|
      ensures Apart(r[j].inner, r[k].inner)
    {
      assert ks[j] < ks[k];
    }
  }

  class RectNodeManager {
    var rects: seq<NRect>
    /** The receivers made by `create_node`, waiting for `init_node`. */
    var pending: Option<NRectInner>
    /** Whether `init` has compiled the shader. */
    var shaderReady: bool

    ghost predicate Valid()
      reads this
    {
      Managed(rects) &&
      (pending.Some? ==> pending.value.Valid() && forall n :: n in Inners(rects) ==> Apart(n, pending.value))
    }

    /** `RectNodeManager::default()`. */
    constructor ()
      ensures Valid() && rects == [] && pending == None && !shaderReady
    {
      rects := [];
      pending := None;
      shaderReady := false;
    }

    /** `init`: compiles the flat-colour shader. */
    method Init()
      modifies this
      ensures shaderReady && rects == old(rects) && pending == old(pending)
    {
      shaderReady := true;
    }

    /**
     * `render`: without a shader it panics; otherwise it draws one triangle
     * fan per live rectangle, in order, and changes nothing.
     */
    method Render() returns (r: Outcome<seq<VertexArrayObject>>)
      ensures r.Panic? <==> !shaderReady
      ensures r.Ok? ==> |r.value| == |rects| && forall i :: 0 <= i < |rects| ==> r.value[i] == rects[i].va
    {
      if !shaderReady {
        return Panic;
      }
      var drawn := [];
      for i := 0 to |rects|
        invariant |drawn| == i && forall k :: 0 <= k < i ==> drawn[k] == rects[k].va
      {
        drawn := drawn + [rects[i].va];
      }
      r := Ok(drawn);
    }

    /**
     * `create_node`: four fresh signals; the manager keeps the receivers
     * until `init_node`, the scene gets the senders. A previous pending
     * entry is dropped, which closes its receivers.
     */
    method CreateNode() returns (raw: RawRect)
      requires Valid()
      modifies this, if pending.Some? then pending.value.Chans() else {}
      ensures Valid() && rects == old(rects) && pending.Some? && shaderReady == old(shaderReady)
      ensures forall o :: o in pending.value.Chans() ==> fresh(o)
      ensures raw == pending.value.Senders()
      ensures raw.drop.sender.queue == [] && raw.position.sender.queue == [] &&
        raw.size.sender.queue == [] && raw.color.sender.queue == []
      ensures raw.drop.sender.receiverAlive && raw.position.sender.receiverAlive &&
        raw.size.sender.receiverAlive && raw.color.sender.receiverAlive
      ensures old(pending).Some? ==> var q := old(pending).value;
        !q.drop.receiver.receiverAlive && !q.position.receiver.receiverAlive &&
        !q.size.receiver.receiverAlive && !q.color.receiver.receiverAlive
    {
      var nposition, position := CreateSignal<Vec2>();
      var nsize, size := CreateSignal<Vec2>();
      var ncolor, color := CreateSignal<Color>();
      var ndrop, drop := CreateSignal<()>();
      if pending.Some? {
        var q := pending.value;
        q.drop.receiver.CloseReceiver();
        q.position.receiver.CloseReceiver();
        q.size.receiver.CloseReceiver();
        q.color.receiver.CloseReceiver();
      }
      pending := Some(NRectInner(drop, position, size, color));
      raw := RawRect(ndrop, nposition, nsize, ncolor);
    }

    /**
     * `init_node`: builds the mesh into a new buffer (named `buffer` by the
     * GL context), lays out its vertex array and adds the rectangle with the
     * pending receivers; with nothing pending the `unwrap` panics.
     */
    method InitNode(builder: RectBuilder, buffer: nat) returns (r: Outcome<()>)
      requires Valid()
      modifies this
      ensures Valid()
      ensures r.Panic? <==> old(pending).None?
      ensures shaderReady == old(shaderReady)
      ensures r.Panic? ==> rects == old(rects) && pending == None
      ensures r.Ok? ==> pending == None
      ensures r.Ok? ==> rects == old(rects) + [NRect(VertexArrayObject(Buffer(buffer, ArrayBuffer), RECT_LAYOUT), builder, old(pending).value, BuildMesh(builder), 1)]
    {
      var mesh := BuildMesh(builder);
      var va := RectVertexArray(Buffer(buffer, ArrayBuffer));
      if pending.None? {
        return Panic;
      }
      rects := rects + [NRect(va, builder, pending.value, mesh, 1)];
      pending := None;
      r := Ok(());
    }

    /**
     * `update`: applies every rectangle's mail as `UpdateRect` says, in
     * order, drops the rectangles asked to go (closing their receivers) and
     * leaves every slot it read empty.
     */
    method Update()
      requires Valid()
      modifies this, ChansOf(rects)
      ensures Valid() && pending == old(pending) && shaderReady == old(shaderReady)
      ensures rects == RetainMut(old(rects), old(Mails(rects)), UpdateRect)
    {
      ghost var ms := Mails(rects);
      UpdateKeepsManaged(rects, ms);
      forall i | 0 <= i < |rects| ensures rects[i].inner.Chans() <= ChansOf(rects) {
        ChansOfAt(rects, i);
      }
      ManagerNotInChans(rects, this);
      rects := StepAll(rects, ms, ChansOf(rects));
    }

    /** The `retain_mut` loop of `update`, over the rectangles `rs` whose mail is `ms`. */
    static method StepAll(rs: seq<NRect>, ghost ms: seq<RectMail>, ghost chans: set<object>) returns (kept: seq<NRect>)
      requires |rs| == |ms|
      requires forall i :: 0 <= i < |rs| ==> rs[i].inner.Valid() && rs[i].inner.Mail() == ms[i]
      requires forall i :: 0 <= i < |rs| ==> rs[i].inner.Chans() <= chans
      requires forall i, j :: 0 <= i < j < |rs| ==> Apart(rs[i].inner, rs[j].inner)
      modifies chans
      ensures kept == RetainMut(rs, ms, UpdateRect)
    {
      kept := [];
      var i := 0;
      while i < |rs|
        invariant 0 <= i <= |rs|
        invariant kept == RetainMut(rs[..i], ms[..i], UpdateRect)
        invariant forall j :: i <= j < |rs| ==> Untouched(rs[j].inner)
      {
        UntouchedMail(rs[i].inner);
        var o := StepAt(rs, i);
        assert rs[..i + 1][..i] == rs[..i] && ms[..i + 1][..i] == ms[..i];
        kept := kept + (match o case Some(y) => [y] case None => []);
        i := i + 1;
      }
      assert rs[..i] == rs && ms[..i] == ms;
    }

    /** `StepRect` on the `i`-th of `rs`, which touches no other rectangle's receivers. */
    static method StepAt(rs: seq<NRect>, i: nat) returns (o: Option<NRect>)
      requires i < |rs| && rs[i].inner.Valid()
      requires forall j, k :: 0 <= j < k < |rs| ==> Apart(rs[j].inner, rs[k].inner)
      modifies rs[i].inner.Chans()
      ensures o == UpdateRect(rs[i], old(rs[i].inner.Mail()))
      ensures Handled(rs[i].inner)
      ensures forall j :: 0 <= j < |rs| && j != i ==> Untouched(rs[j].inner)
    {
      o := StepRect(rs[i]);
      forall j | 0 <= j < |rs| && j != i
        ensures Untouched(rs[j].inner)
      {
        if j < i {
          assert Apart(rs[j].inner, rs[i].inner);
        } else {
          assert Apart(rs[i].inner, rs[j].inner);
        }
      }
    }

    /** One run of the `retain_mut` closure on one rectangle. */
    static method StepRect(r: NRect) returns (o: Option<NRect>)
      requires r.inner.Valid()
      modifies r.inner.Chans()
      ensures o == UpdateRect(r, old(r.inner.Mail()))
      ensures Handled(r.inner)
    {
      var n := r.inner;
      var b := r.builder;
      var rebuild := false;
      var position := n.position.Get();
      if position.Some? {
        b := b.(position := position.value);
        rebuild := true;
      }
      var size := n.size.Get();
      if size.Some? {
        b := b.(size := size.value);
        rebuild := true;
      }
      var color := n.color.Get();
      if color.Some? {
        b := b.(color := color.value);
        rebuild := true;
      }
      var drop := n.drop.Get();
      if drop.Some? {
        n.drop.receiver.CloseReceiver();
        n.position.receiver.CloseReceiver();
        n.size.receiver.CloseReceiver();
        n.color.receiver.CloseReceiver();
        return None;
      }
      if rebuild {
        o := Some(r.(builder := b, mesh := BuildMesh(b), uploads := r.uploads + 1));
      } else {
        o := Some(r.(builder := b));
      }
    }
  }
}
