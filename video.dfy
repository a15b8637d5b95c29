/**
 * Video nodes (the `video` module of src/main.rs): a textured quad showing
 * the frame under a stream's cursor. The node manager keeps one entry per
 * live video, applies the position and size the scene sends, and at render
 * time uploads the current frame into the video's texture, creating the
 * texture, with the stream's frame size, the first time there is a frame.
 */
module Video {
  import opened Common
  import opened Channel
  import opened VertexArray
  import opened Media

  /** What a video looks like: its stream, half-extents and centre. */
  datatype VideoBuilder = VideoBuilder(stream: StreamRef, size: Vec2, pos: Vec2)

  /** `VideoBuilder::new`: a video filling the whole viewport. */
  function NewVideoBuilder(stream: StreamRef): (b: VideoBuilder)
    ensures b.stream == stream && b.size == (1.0, 1.0) && b.pos == (0.0, 0.0)
  {
    VideoBuilder(stream, (1.0, 1.0), (0.0, 0.0))
  }

  /** One vertex as laid out in the GPU buffer: position and texture coordinate. */
  datatype Vertex = Vertex(position: Vec2, uv: Vec2)

  /** `Vertex::fields`: a 2-float position, then a 2-float texture coordinate. */
  const VERTEX_FIELDS: seq<Field> := [NewField("position", ArrayType(2)), NewField("uv", ArrayType(2))]

  /** Position at byte 0, texture coordinate at byte 8, 16-byte stride. */
  const VIDEO_LAYOUT: seq<AttribCall> :=
    [AttribCall(0, 2, GL_FLOAT, false, 16, 0), AttribCall(1, 2, GL_FLOAT, false, 16, 8)]

  /** `create_vertex_array::<Vertex>(buffer).build(gcx)`. */
  method VideoVertexArray(buffer: Buffer) returns (va: VertexArrayObject)
    ensures va == VertexArrayObject(buffer, VIDEO_LAYOUT)
  {
    var b := new VertexArrayBuilder(VERTEX_FIELDS, buffer);
    assert TotalSize(VERTEX_FIELDS[..1]) == 8;
    assert VERTEX_FIELDS[..2] == VERTEX_FIELDS;
    var r := b.Build();
    if r.Panic? {
      assert false;
    }
    va := r.value;
  }

  /**
   * `create_mesh`: the corners of the quad walked around its outline, each
   * carrying the texture coordinate of the matching image corner, with the
   * image's first row at the top (v = 0 on the upper edge).
   */
  function CreateMesh(b: VideoBuilder): (m: seq<Vertex>)
    ensures |m| == 4
    ensures (m[0].position.0 + m[2].position.0) / 2.0 == b.pos.0
    ensures (m[0].position.1 + m[2].position.1) / 2.0 == b.pos.1
    ensures m[2].position.0 - m[0].position.0 == 2.0 * b.size.0
    ensures m[2].position.1 - m[0].position.1 == 2.0 * b.size.1
    ensures m[0].position.0 == m[1].position.0 && m[2].position.0 == m[3].position.0
    ensures m[1].position.1 == m[2].position.1 && m[3].position.1 == m[0].position.1
    ensures m[0].uv == (0.0, 1.0) && m[1].uv == (0.0, 0.0) && m[2].uv == (1.0, 0.0) && m[3].uv == (1.0, 1.0)
  {
    var (sx, sy) := b.size;
    var (px, py) := b.pos;
    [ Vertex((-sx + px, -sy + py), (0.0, 1.0)),
      Vertex((-sx + px, sy + py), (0.0, 0.0)),
      Vertex((sx + px, sy + py), (1.0, 0.0)),
      Vertex((sx + px, -sy + py), (1.0, 1.0)) ]
  }

  /**
   * With a positive size the texture is upright: a corner with the larger
   * `y` samples the smaller `v`, and one with the larger `x` the larger `u`.
   */
  lemma {:induction false} MeshUpright(b: VideoBuilder, i: nat, j: nat)
    requires b.size.0 > 0.0 && b.size.1 > 0.0 && i < 4 && j < 4
    ensures var m := CreateMesh(b);
      (m[i].position.1 > m[j].position.1 <==> m[i].uv.1 < m[j].uv.1) &&
      (m[i].position.0 > m[j].position.0 <==> m[i].uv.0 > m[j].uv.0)
  {
    var m := CreateMesh(b);
    var (sx, sy) := b.size;
    var (px, py) := b.pos;
    assert m[0].position == (-sx + px, -sy + py) && m[1].position == (-sx + px, sy + py);
    assert m[2].position == (sx + px, sy + py) && m[3].position == (sx + px, -sy + py);
  }

  /** The manager's ends of a video's three signals. */
  datatype RVideoInner = RVideoInner(position: NSignal<Vec2>, size: NSignal<Vec2>, drop: NSignal<()>)
  {
    function Chans(): set<object>
    {
      {position.receiver, size.receiver, drop.receiver}
    }

    predicate Valid()
    {
      position.Valid() && size.Valid() && drop.Valid() && position.receiver != size.receiver
    }

    /** The values `update` will find in the three slots. */
    ghost function Mail(): VideoMail
      reads Chans()
    {
      VideoMail(position.receiver.Oldest(), size.receiver.Oldest(), drop.receiver.Oldest())
    }

    /** The senders that share these receivers' channels. */
    function Senders(): (raw: RawVideo)
      ensures raw.position.sender == position.receiver && raw.size.sender == size.receiver && raw.drop.sender == drop.receiver
    {
      RawVideo(SignalInner(position.receiver), SignalInner(size.receiver), SignalInner(drop.receiver))
    }
  }

  /** The scene's ends of a video's three signals. */
  datatype RawVideo = RawVideo(position: SignalInner<Vec2>, size: SignalInner<Vec2>, drop: SignalInner<()>)

  /** What one frame's `update` receives for a video. */
  datatype VideoMail = VideoMail(position: Option<Vec2>, size: Option<Vec2>, drop: Option<()>)

  /** A GPU texture: its size, fixed when it is created, and its pixels. */
  datatype Texture = Texture(width: nat, height: nat, data: seq<bv8>)

  /**
   * A live video: vertex array, description (whose stream is the one the
   * video shows), texture if one was created, receivers, buffer contents and
   * how often the buffer was written.
   */
  datatype RVideo = RVideo(va: VertexArrayObject, builder: VideoBuilder, texture: Option<Texture>,
                           inner: RVideoInner, mesh: seq<Vertex>, uploads: nat)
  {
    predicate Valid()
    {
      inner.Valid() && va.calls == VIDEO_LAYOUT && mesh == CreateMesh(builder)
    }
  }

  /** The closure `update` hands to `retain_mut`. */
  function UpdateVideo(v: RVideo, m: VideoMail): (o: Option<RVideo>)
    ensures o.None? <==> m.drop.Some?
    ensures o.Some? ==> o.value.inner == v.inner && o.value.va == v.va && o.value.texture == v.texture
    ensures o.Some? ==> o.value.builder == VideoBuilder(v.builder.stream, ValueOr(m.size, v.builder.size), ValueOr(m.position, v.builder.pos))
    ensures o.Some? ==> (o.value.uploads == v.uploads + 1 <==> m.position.Some? || m.size.Some?)
    ensures o.Some? ==> o.value.uploads <= v.uploads + 1
    ensures o.Some? && v.Valid() ==> o.value.Valid()
  {
    var b := VideoBuilder(v.builder.stream, ValueOr(m.size, v.builder.size), ValueOr(m.position, v.builder.pos));
    if m.drop.Some? then None
    else if m.position.Some? || m.size.Some? then Some(v.(builder := b, mesh := CreateMesh(b), uploads := v.uploads + 1))
    else Some(v.(builder := b))
  }

  /** What `render` reads from a video's stream: the first plane, width and height. */
  datatype Shot = Shot(data: Outcome<Option<seq<bv8>>>, width: Outcome<Option<nat>>, height: Outcome<Option<nat>>)

  ghost function ShotOf(s: StreamRef): (sh: Shot)
    reads if s.VideoRef? then s.video else s.audio
  {
    Shot(s.Data(0), s.Width(), s.Height())
  }

  /** An `unwrap` that succeeds. */
  predicate Present<T>(o: Outcome<Option<T>>)
  {
    o.Ok? && o.value.Some?
  }

  /**
   * `render` for one video: with a frame, the existing texture takes the new
   * pixels, or a texture of the stream's size is created (unwrapping width
   * and height); a video is drawn iff it then has a texture. Reading the
   * frame, or a missing size at creation, panics.
   */
  function RenderVideo(t: Option<Texture>, s: Shot): (r: Outcome<Option<Texture>>)
    ensures r.Panic? <==> s.data.Panic? || (Present(s.data) && t.None? && !(Present(s.width) && Present(s.height)))
    ensures r.Ok? && s.data == Ok(None) ==> r.value == t
    ensures r.Ok? && Present(s.data) ==> r.value.Some? && r.value.value.data == s.data.value.value
    ensures r.Ok? && t.Some? ==> r.value.Some? && r.value.value.width == t.value.width && r.value.value.height == t.value.height
    ensures r.Ok? && t.None? && Present(s.data) ==> r.value.value.width == s.width.value.value && r.value.value.height == s.height.value.value
  {
    match s.data
    case Panic => Panic
    case Ok(None) => Ok(t)
    case Ok(Some(d)) =>
      match t
      case Some(tex) => Ok(Some(tex.(data := d)))
      case None =>
        if !Present(s.width) || !Present(s.height) then Panic
        else Ok(Some(Texture(s.width.value.value, s.height.value.value, d)))
  }

  /**
   * A video node over an audio stream (any `Box<dyn Stream>` is accepted)
   * panics at the first render that finds audio data: the audio stream has
   * no width to unwrap.
   */
  lemma AudioStreamCannotRender(a: AudioStream, t: Option<Texture>)
    requires t.None? && Present(a.Data(0))
    ensures RenderVideo(t, ShotOf(AudioRef(a))).Panic?
  {
  }

  /** Once a video has a texture, rendering never panics for want of a size and never loses it. */
  lemma {:induction false} TextureSticks(t: Texture, s: Shot)
    requires s.data.Ok?
    ensures RenderVideo(Some(t), s).Ok? && RenderVideo(Some(t), s).value.Some?
    ensures var u := RenderVideo(Some(t), s).value.value; u.width == t.width && u.height == t.height
  {
    if s.data.value.Some? {
      assert Present(s.data);
    }
  }

  /** A video after `render`, or the panic rendering it raises. */
  ghost function Rendered(v: RVideo): (r: Outcome<RVideo>)
    reads if v.builder.stream.VideoRef? then v.builder.stream.video else v.builder.stream.audio
  {
    match RenderVideo(v.texture, ShotOf(v.builder.stream))
    case Ok(t) => Ok(v.(texture := t))
    case Panic => Panic
  }

  /** The stream objects the videos `vs` read. */
  ghost function StreamsOf(vs: seq<RVideo>): set<object>
  {
    if vs == [] then {}
    else
      var s := vs[|vs| - 1].builder.stream;
      StreamsOf(vs[..|vs| - 1]) + {if s.VideoRef? then s.video else s.audio}
  }

  /** The videos after `render`'s loop over them in order, or the panic of the first that fails. */
  ghost function RenderedAll(vs: seq<RVideo>): Outcome<seq<RVideo>>
    reads StreamsOf(vs)
  {
    if vs == [] then Ok([])
    else
      var n := |vs| - 1;
      match RenderedAll(vs[..n])
      case Panic => Panic
      case Ok(ws) =>
        match Rendered(vs[n])
        case Panic => Panic
        case Ok(w) => Ok(ws + [w])
  }

  /**
   * Rendering all videos panics iff rendering one of them does; otherwise
   * each video is rendered on its own, and only its texture changes.
   */
  lemma {:induction false} RenderedAllSpec(vs: seq<RVideo>)
    ensures RenderedAll(vs).Panic? <==> exists i :: 0 <= i < |vs| && Rendered(vs[i]).Panic?
    ensures RenderedAll(vs).Ok? ==> |RenderedAll(vs).value| == |vs|
    ensures RenderedAll(vs).Ok? ==> forall i :: 0 <= i < |vs| ==> RenderedAll(vs).value[i] == Rendered(vs[i]).value
    ensures RenderedAll(vs).Ok? ==> forall i :: 0 <= i < |vs| ==> RenderedAll(vs).value[i] == vs[i].(texture := RenderedAll(vs).value[i].texture)
  {
    if vs != [] {
      var n := |vs| - 1;
      RenderedAllSpec(vs[..n]);
      if Rendered(vs[n]).Panic? {
        assert RenderedAll(vs).Panic?;
      } else if RenderedAll(vs[..n]).Panic? {
        var i :| 0 <= i < n && Rendered(vs[..n][i]).Panic?;
        assert vs[i] == vs[..n][i];
      } else {
        forall i | 0 <= i < |vs| ensures Rendered(vs[i]).Ok? {
          if i < n {
            assert vs[i] == vs[..n][i];
          }
        }
      }
    }
  }

  /** Replacing textures keeps the manager well formed. */
  lemma RetextureKeepsManaged(vs: seq<RVideo>, ws: seq<RVideo>)
    requires Managed(vs) && |ws| == |vs|
    requires forall i :: 0 <= i < |vs| ==> ws[i] == vs[i].(texture := ws[i].texture)
    ensures Managed(ws) && Inners(ws) == Inners(vs)
  {
    assert forall i :: 0 <= i < |ws| ==> ws[i].inner == vs[i].inner && ws[i].Valid();
    assert Inners(ws) <= Inners(vs) by {
      forall n | n in Inners(ws) ensures n in Inners(vs) {
        var i :| 0 <= i < |ws| && ws[i].inner == n;
      }
    }
    assert Inners(vs) <= Inners(ws) by {
      forall n | n in Inners(vs) ensures n in Inners(ws) {
        var i :| 0 <= i < |vs| && vs[i].inner == n;
      }
    }
  }

  /** Replacing textures keeps the manager valid with its pending receivers. */
  lemma RetextureKeepsValid(vs: seq<RVideo>, ws: seq<RVideo>, p: Option<RVideoInner>)
    requires Managed(vs) && |ws| == |vs|
    requires p.Some? ==> p.value.Valid() && forall n :: n in Inners(vs) ==> Apart(n, p.value)
    requires forall i :: 0 <= i < |vs| ==> ws[i] == vs[i].(texture := ws[i].texture)
    ensures Managed(ws) && Inners(ws) == Inners(vs)
    ensures p.Some? ==> forall n :: n in Inners(ws) ==> Apart(n, p.value)
  {
    RetextureKeepsManaged(vs, ws);
  }

  ghost function ChansOf(vs: seq<RVideo>): set<object>
  {
    if vs == [] then {} else ChansOf(vs[..|vs| - 1]) + vs[|vs| - 1].inner.Chans()
  }

  lemma {:induction false} ChansOfAt(vs: seq<RVideo>, i: nat)
    requires i < |vs|
    ensures vs[i].inner.Chans() <= ChansOf(vs)
  {
    if i < |vs| - 1 {
      ChansOfAt(vs[..|vs| - 1], i);
    }
  }

  /** Every receiver in `ChansOf(vs)` belongs to one of the videos. */
  lemma {:induction false} ChansOfIn(vs: seq<RVideo>, o: object)
    requires o in ChansOf(vs)
    ensures exists i :: 0 <= i < |vs| && o in vs[i].inner.Chans()
  {
    var n := |vs| - 1;
    if o !in vs[n].inner.Chans() {
      ChansOfIn(vs[..n], o);
      var i :| 0 <= i < n && o in vs[..n][i].inner.Chans();
      assert vs[..n][i] == vs[i];
    }
  }

  /** Fewer receiver bundles own fewer receivers. */
  lemma ChansOfMono(vs: seq<RVideo>, ws: seq<RVideo>)
    requires Inners(vs) <= Inners(ws)
    ensures ChansOf(vs) <= ChansOf(ws)
  {
    forall o | o in ChansOf(vs)
      ensures o in ChansOf(ws)
    {
      ChansOfIn(vs, o);
      var i :| 0 <= i < |vs| && o in vs[i].inner.Chans();
      var j :| 0 <= j < |ws| && ws[j].inner == vs[i].inner;
      ChansOfAt(ws, j);
    }
  }

  lemma {:induction false} ManagerNotInChans(vs: seq<RVideo>, m: VideoNodeManager)
    ensures m !in ChansOf(vs)
  {
    if vs != [] {
      ManagerNotInChans(vs[..|vs| - 1], m);
    }
  }

  /** Between two states, none of `n`'s receivers changed. */
  twostate predicate Untouched(n: RVideoInner)
    reads n.Chans()
  {
    n.drop.receiver.queue == old(n.drop.receiver.queue) &&
    n.drop.receiver.receiverAlive == old(n.drop.receiver.receiverAlive) &&
    n.position.receiver.queue == old(n.position.receiver.queue) &&
    n.position.receiver.receiverAlive == old(n.position.receiver.receiverAlive) &&
    n.size.receiver.queue == old(n.size.receiver.queue) &&
    n.size.receiver.receiverAlive == old(n.size.receiver.receiverAlive)
  }

  /** Between two states, `update` consumed `n`'s mail and honoured its drop request. */
  twostate predicate Handled(n: RVideoInner)
    reads n.Chans()
  {
    Received(n.drop.receiver) && Received(n.position.receiver) && Received(n.size.receiver) &&
    (old(n.drop.receiver.Oldest()).Some? ==>
      !n.drop.receiver.receiverAlive && !n.position.receiver.receiverAlive && !n.size.receiver.receiverAlive)
  }

  /** The mail of every video in `vs`, in order. */
  ghost function Mails(vs: seq<RVideo>): (ms: seq<VideoMail>)
    reads ChansOf(vs)
    ensures |ms| == |vs|
    ensures forall i :: 0 <= i < |vs| ==> ms[i] == vs[i].inner.Mail()
  {
    if vs == [] then []
    else
      var n := |vs| - 1;
      Mails(vs[..n]) + [vs[n].inner.Mail()]
  }

  /** Two videos share no receiver. */
  predicate Apart(a: RVideoInner, b: RVideoInner)
  {
    a.drop.receiver != b.drop.receiver &&
    a.position.receiver != b.position.receiver && a.size.receiver != b.size.receiver &&
    a.position.receiver != b.size.receiver && a.size.receiver != b.position.receiver
  }

  /** Every video is well formed and no two share a receiver. */
  predicate Managed(vs: seq<RVideo>)
  {
    (forall i :: 0 <= i < |vs| ==> vs[i].Valid()) &&
    (forall i, j :: 0 <= i < j < |vs| ==> Apart(vs[i].inner, vs[j].inner))
  }

  function Inners(vs: seq<RVideo>): (s: set<RVideoInner>)
    ensures forall i :: 0 <= i < |vs| ==> vs[i].inner in s
  {
    set i | 0 <= i < |vs| :: vs[i].inner
  }

  /** A frame's `update` keeps the manager well formed, with the receivers it had. */
  lemma {:induction false} UpdateKeepsManaged(vs: seq<RVideo>, ms: seq<VideoMail>)
    requires |vs| == |ms| && Managed(vs)
    ensures Managed(RetainMut(vs, ms, UpdateVideo))
    ensures Inners(RetainMut(vs, ms, UpdateVideo)) <= Inners(vs)
  {
    var r, ks := RetainMut(vs, ms, UpdateVideo), KeptIndices(vs, ms, UpdateVideo);
    RetainMutSpec(vs, ms, UpdateVideo);
    forall j | 0 <= j < |r|
      ensures r[j].Valid() && r[j].inner == vs[ks[j]].inner
    {
      assert UpdateVideo(vs[ks[j]], ms[ks[j]]) == Some(r[j]);
    }
    forall j, k | 0 <= j < k < |r|
      ensures Apart(r[j].inner, r[k].inner)
    {
      assert ks[j] < ks[k];
    }
  }

  class VideoNodeManager {
    var videos: seq<RVideo>
    var pending: Option<RVideoInner>
    var shaderReady: bool

    ghost predicate Valid()
      reads this
    {
      Managed(videos) &&
      (pending.Some? ==> pending.value.Valid() && forall n :: n in Inners(videos) ==> Apart(n, pending.value))
    }

    constructor ()
      ensures Valid() && videos == [] && pending == None && !shaderReady
    {
      videos := [];
      pending := None;
      shaderReady := false;
    }

    /** `init`: compiles the texture shader. */
    method Init()
      modifies this
      ensures shaderReady && videos == old(videos) && pending == old(pending)
    {
      shaderReady := true;
    }

    /** `create_node`: three fresh signals; a previous pending entry is dropped. */
    method CreateNode() returns (raw: RawVideo)
      requires Valid()
      modifies this, if pending.Some? then pending.value.Chans() else {}
      ensures Valid() && videos == old(videos) && pending.Some? && shaderReady == old(shaderReady)
      ensures raw == pending.value.Senders()
      ensures forall o :: o in pending.value.Chans() ==> fresh(o)
      ensures raw.position.sender.queue == [] && raw.size.sender.queue == [] && raw.drop.sender.queue == []
      ensures raw.position.sender.receiverAlive && raw.size.sender.receiverAlive && raw.drop.sender.receiverAlive
      ensures old(pending).Some? ==> var q := old(pending).value;
        !q.drop.receiver.receiverAlive && !q.position.receiver.receiverAlive && !q.size.receiver.receiverAlive
    {
      var sposition, position := CreateSignal<Vec2>();
      var ssize, size := CreateSignal<Vec2>();
      var sdrop, drop := CreateSignal<()>();
      if pending.Some? {
        var q := pending.value;
        q.drop.receiver.CloseReceiver();
        q.position.receiver.CloseReceiver();
        q.size.receiver.CloseReceiver();
      }
      pending := Some(RVideoInner(position, size, drop));
      raw := RawVideo(sposition, ssize, sdrop);
    }

    /**
     * `init_node`: the mesh goes into a new buffer (named `buffer` by the GL
     * context), the video starts without a texture; with nothing pending the
     * `unwrap` panics.
     */
    method InitNode(builder: VideoBuilder, buffer: nat) returns (r: Outcome<()>)
      requires Valid()
      modifies this
      ensures Valid() && shaderReady == old(shaderReady)
      ensures r.Panic? <==> old(pending).None?
      ensures r.Panic? ==> videos == old(videos) && pending == None
      ensures r.Ok? ==> pending == None
      ensures r.Ok? ==>
        videos == old(videos) + [RVideo(VertexArrayObject(Buffer(buffer, ArrayBuffer), VIDEO_LAYOUT), builder, None, old(pending).value, CreateMesh(builder), 1)]
    {
      var mesh := CreateMesh(builder);
      var va := VideoVertexArray(Buffer(buffer, ArrayBuffer));
      if pending.None? {
        return Panic;
      }
      videos := videos + [RVideo(va, builder, None, pending.value, mesh, 1)];
      pending := None;
      r := Ok(());
    }

    /** `update`: applies every video's mail as `UpdateVideo` says, in order. */
    method Update()
      requires Valid()
      modifies this, ChansOf(videos)
      ensures Valid() && pending == old(pending) && shaderReady == old(shaderReady)
      ensures videos == RetainMut(old(videos), old(Mails(videos)), UpdateVideo)
    {
      ghost var ms := Mails(videos);
      UpdateKeepsManaged(videos, ms);
      forall i | 0 <= i < |videos| ensures videos[i].inner.Chans() <= ChansOf(videos) {
        ChansOfAt(videos, i);
      }
      ManagerNotInChans(videos, this);
      videos := StepAll(videos, ms, ChansOf(videos));
    }

    /** The `retain_mut` loop of `update`. */
    static method StepAll(vs: seq<RVideo>, ghost ms: seq<VideoMail>, ghost chans: set<object>) returns (kept: seq<RVideo>)
      requires |vs| == |ms|
      requires forall i :: 0 <= i < |vs| ==> vs[i].inner.Valid() && vs[i].inner.Mail() == ms[i]
      requires forall i :: 0 <= i < |vs| ==> vs[i].inner.Chans() <= chans
      requires forall i, j :: 0 <= i < j < |vs| ==> Apart(vs[i].inner, vs[j].inner)
      modifies chans
      ensures kept == RetainMut(vs, ms, UpdateVideo)
    {
      kept := [];
      var i := 0;
      while i < |vs|
        invariant 0 <= i <= |vs|
        invariant kept == RetainMut(vs[..i], ms[..i], UpdateVideo)
        invariant forall j :: i <= j < |vs| ==> Untouched(vs[j].inner)
      {
        var o := StepAt(vs, i);
        assert vs[..i + 1][..i] == vs[..i] && ms[..i + 1][..i] == ms[..i];
        kept := kept + (match o case Some(y) => [y] case None => []);
        i := i + 1;
      }
      assert vs[..i] == vs && ms[..i] == ms;
    }

    /** `StepVideo` on the `i`-th of `vs`, which touches no other video's receivers. */
    static method StepAt(vs: seq<RVideo>, i: nat) returns (o: Option<RVideo>)
      requires i < |vs| && vs[i].inner.Valid()
      requires forall j, k :: 0 <= j < k < |vs| ==> Apart(vs[j].inner, vs[k].inner)
      modifies vs[i].inner.Chans()
      ensures o == UpdateVideo(vs[i], old(vs[i].inner.Mail()))
      ensures Handled(vs[i].inner)
      ensures forall j :: 0 <= j < |vs| && j != i ==> Untouched(vs[j].inner)
    {
      o := StepVideo(vs[i]);
      forall j | 0 <= j < |vs| && j != i
        ensures Untouched(vs[j].inner)
      {
        if j < i {
          assert Apart(vs[j].inner, vs[i].inner);
        } else {
          assert Apart(vs[i].inner, vs[j].inner);
        }
      }
    }

    /** One run of the `retain_mut` closure on one video. */
    static method StepVideo(v: RVideo) returns (o: Option<RVideo>)
      requires v.inner.Valid()
      modifies v.inner.Chans()
      ensures o == UpdateVideo(v, old(v.inner.Mail()))
      ensures Handled(v.inner)
    {
      var n := v.inner;
      var b := v.builder;
      var rebuild := false;
      var position := n.position.Get();
      if position.Some? {
        b := b.(pos := position.value);
        rebuild := true;
      }
      var size := n.size.Get();
      if size.Some? {
        b := b.(size := size.value);
        rebuild := true;
      }
      var drop := n.drop.Get();
      if drop.Some? {
        n.drop.receiver.CloseReceiver();
        n.position.receiver.CloseReceiver();
        n.size.receiver.CloseReceiver();
        return None;
      }
      if rebuild {
        o := Some(v.(builder := b, mesh := CreateMesh(b), uploads := v.uploads + 1));
      } else {
        o := Some(v.(builder := b));
      }
    }

    /**
     * `render`: panics without a shader; otherwise renders every video as
     * `RenderVideo` says, in order, and reports which ones were drawn. A
     * panic part-way is reported with the textures left as they were.
     */
    method Render() returns (r: Outcome<seq<bool>>)
      requires Valid()
      modifies this
      ensures Valid() && pending == old(pending) && shaderReady == old(shaderReady)
      ensures r.Panic? <==> !shaderReady || old(RenderedAll(videos)).Panic?
      ensures r.Panic? ==> videos == old(videos)
      ensures r.Ok? ==> videos == old(RenderedAll(videos)).value && |r.value| == |videos|
      ensures r.Ok? ==> forall i :: 0 <= i < |videos| ==> (r.value[i] <==> videos[i].texture.Some?)
      ensures r.Ok? ==> |videos| == |old(videos)| && forall i :: 0 <= i < |videos| ==> videos[i] == old(videos)[i].(texture := videos[i].texture)
    {
      if !shaderReady {
        return Panic;
      }
      var vs := videos;
      var o := RenderEach(vs);
      if o.Panic? {
        return Panic;
      }
      RetextureKeepsValid(vs, o.value.0, pending);
      videos := o.value.0;
      r := Ok(o.value.1);
    }

    /** `render`'s loop over the videos, in order; the first video that panics stops it. */
    static method RenderEach(vs: seq<RVideo>) returns (r: Outcome<(seq<RVideo>, seq<bool>)>)
      ensures r.Panic? <==> old(RenderedAll(vs)).Panic?
      ensures r.Ok? ==> r.value.0 == old(RenderedAll(vs)).value && |r.value.0| == |r.value.1| == |vs|
      ensures r.Ok? ==> forall i :: 0 <= i < |vs| ==>
        (r.value.1[i] <==> r.value.0[i].texture.Some?) && r.value.0[i] == vs[i].(texture := r.value.0[i].texture)
    {
      var out: seq<RVideo> := [];
      var drawn: seq<bool> := [];
      for i := 0 to |vs|
        invariant |drawn| == i && |out| == i && RenderedAll(vs[..i]) == Ok(out)
        invariant forall k :: 0 <= k < i ==> (drawn[k] <==> out[k].texture.Some?)
      {
        var v := RenderOne(vs[i]);
        if v.Panic? {
          RenderedAllSpec(vs);
          return Panic;
        }
        assert vs[..i + 1][..i] == vs[..i];
        out := out + [v.value];
        drawn := drawn + [v.value.texture.Some?];
      }
      assert vs[..|vs|] == vs;
      RenderedAllSpec(vs);
      r := Ok((out, drawn));
    }

    /** `render`'s work on one video: upload the current frame, creating the texture if need be. */
    static function RenderOne(v: RVideo): (r: Outcome<RVideo>)
      reads if v.builder.stream.VideoRef? then v.builder.stream.video else v.builder.stream.audio
      ensures r == Rendered(v)
    {
      var s := v.builder.stream;
      match s.Data(0)
      case Panic => Panic
      case Ok(None) => Ok(v)
      case Ok(Some(d)) =>
        if v.texture.Some? then Ok(v.(texture := Some(v.texture.value.(data := d))))
        else
          var w, h := s.Width(), s.Height();
          if !Present(w) || !Present(h) then Panic
          else Ok(v.(texture := Some(Texture(w.value.value, h.value.value, d))))
    }
  }
}
