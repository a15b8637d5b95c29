/**
 * The type-erased node managers (src/node.rs). The engine keeps its managers
 * as `Box<dyn AbstractNodeManager>`, finds them by `TypeId`, and receives
 * builders and hands out raw node handles as `Box<dyn Any>`. The program has
 * three managers, so the model closes these open types over them: a `Kind`
 * stands for the `TypeId` of a manager type, `AnyBuilder` and `AnyRaw` for
 * the boxed values, and `Manager` for the boxed manager. Each operation of
 * `Manager` is the blanket `AbstractNodeManager` impl: it forwards to the
 * concrete manager, or does nothing where the manager keeps the trait's
 * default.
 */
module Node {
  import opened Common
  import opened Channel
  import opened VertexArray
  import Rect
  import Video
  import Audio

  /** `TypeId::of::<M>()` for the three manager types. */
  datatype Kind = RectKind | VideoKind | AudioKind

  /** A boxed element builder. */
  datatype AnyBuilder = BuildRect(rect: Rect.RectBuilder) | BuildVideo(video: Video.VideoBuilder) | BuildAudio(audio: Audio.AudioBuilder)
  {
    /** The `TypeId` of the builder's own manager type, which `node_id` reports. */
    function Tag(): Kind
    {
      match this
      case BuildRect(_) => RectKind
      case BuildVideo(_) => VideoKind
      case BuildAudio(_) => AudioKind
    }
  }

  /** A boxed raw node handle, as `create_node` returns it. */
  datatype AnyRaw = RectRaw(rect: Rect.RawRect) | VideoRaw(video: Video.RawVideo) | AudioRaw(audio: Audio.RawAudio)
  {
    /** The `TypeId` of the manager that made the handle. */
    function Tag(): Kind
    {
      match this
      case RectRaw(_) => RectKind
      case VideoRaw(_) => VideoKind
      case AudioRaw(_) => AudioKind
    }
  }

  /** What a manager holds: its live nodes, its pending node and, for drawing managers, the shader flag. */
  datatype Live =
    | RectLive(rects: seq<Rect.NRect>, rectPending: Option<Rect.NRectInner>, rectShader: bool)
    | VideoLive(videos: seq<Video.RVideo>, videoPending: Option<Video.RVideoInner>, videoShader: bool)
    | AudioLive(audios: seq<Audio.AudioEntry>, audioPending: Option<NSignal<()>>)

  /** A `Box<dyn AbstractNodeManager>`. */
  datatype Manager = RectManager(rect: Rect.RectNodeManager) | VideoManager(video: Video.VideoNodeManager) | AudioManager(audio: Audio.AudioNodeManager)
  {
    /**
     * `ty_id`: the manager type's `TypeId`. It depends on the variant alone,
     * not on any state, so every call gives the same value.
     */
    function TyId(): (k: Kind)
      ensures k == RectKind <==> RectManager?
      ensures k == VideoKind <==> VideoManager?
      ensures k == AudioKind <==> AudioManager?
    {
      match this
      case RectManager(_) => RectKind
      case VideoManager(_) => VideoKind
      case AudioManager(_) => AudioKind
    }

    /** The manager object behind the box. */
    function Obj(): object
    {
      match this
      case RectManager(m) => m
      case VideoManager(m) => m
      case AudioManager(m) => m
    }

    ghost predicate Valid()
      reads Obj()
    {
      match this
      case RectManager(m) => m.Valid()
      case VideoManager(m) => m.Valid()
      case AudioManager(m) => m.Valid()
    }

    /** The receivers the manager owns: its live nodes' and its pending node's. */
    ghost function Chans(): set<object>
      reads Obj()
    {
      match this
      case RectManager(m) => Rect.ChansOf(m.rects) + (if m.pending.Some? then m.pending.value.Chans() else {})
      case VideoManager(m) => Video.ChansOf(m.videos) + (if m.pending.Some? then m.pending.value.Chans() else {})
      case AudioManager(m) => Audio.ChansOf(m.audios) + (if m.pending.Some? then {m.pending.value.receiver} else {})
    }

    /** The handle `create_node` gave out for the pending node, if one is pending. */
    ghost function Handle(): Option<AnyRaw>
      reads Obj()
    {
      match this
      case RectManager(m) => if m.pending.Some? then Some(RectRaw(m.pending.value.Senders())) else None
      case VideoManager(m) => if m.pending.Some? then Some(VideoRaw(m.pending.value.Senders())) else None
      case AudioManager(m) => if m.pending.Some? then Some(AudioRaw(Audio.RawAudio(SignalInner(m.pending.value.receiver)))) else None
    }

    /** The manager's state. */
    ghost function Live(): Live
      reads Obj()
    {
      match this
      case RectManager(m) => RectLive(m.rects, m.pending, m.shaderReady)
      case VideoManager(m) => VideoLive(m.videos, m.pending, m.shaderReady)
      case AudioManager(m) => AudioLive(m.audios, m.pending)
    }

    /**
     * The state `update` leaves: the live nodes kept by `RetainMut` under
     * the update closure and the mail each node holds now; the rest as is.
     */
    ghost function AfterUpdate(): Live
      reads Obj(), Chans()
    {
      match this
      case RectManager(m) => RectLive(RetainMut(m.rects, Rect.Mails(m.rects), Rect.UpdateRect), m.pending, m.shaderReady)
      case VideoManager(m) => VideoLive(RetainMut(m.videos, Video.Mails(m.videos), Video.UpdateVideo), m.pending, m.shaderReady)
      case AudioManager(m) => AudioLive(RetainMut(m.audios, Audio.Mails(m.audios), Audio.UpdateAudio), m.pending)
    }

    /** The number of live nodes. */
    ghost function Count(): nat
      reads Obj()
    {
      match this
      case RectManager(m) => |m.rects|
      case VideoManager(m) => |m.videos|
      case AudioManager(m) => |m.audios|
    }

    /** `init`: the rectangle and video managers compile their shaders; the audio manager keeps the default, which does nothing. */
    method Init()
      requires Valid()
      modifies Obj()
      ensures Valid() && Chans() == old(Chans())
      ensures RectManager? ==> rect.shaderReady && rect.rects == old(rect.rects) && rect.pending == old(rect.pending)
      ensures VideoManager? ==> video.shaderReady && video.videos == old(video.videos) && video.pending == old(video.pending)
      ensures AudioManager? ==> audio.audios == old(audio.audios) && audio.pending == old(audio.pending)
    {
      match this
      case RectManager(m) => m.Init();
      case VideoManager(m) => m.Init();
      case AudioManager(m) =>
    }

    /**
     * `create_node`, forwarded: the manager keeps fresh receivers as its
     * pending node, in place of the previous ones, and the handle returned
     * holds the matching senders.
     */
    method CreateNode() returns (raw: AnyRaw)
      requires Valid()
      modifies Obj(), Chans()
      ensures Valid() && raw.Tag() == TyId() && Handle() == Some(raw) && Count() == old(Count())
      ensures forall o :: o in Chans() ==> o in old(Chans()) || fresh(o)
      ensures Created(this, raw)
    {
      match this
      case RectManager(m) =>
        var r := m.CreateNode();
        raw := RectRaw(r);
      case VideoManager(m) =>
        var r := m.CreateNode();
        raw := VideoRaw(r);
      case AudioManager(m) =>
        var r := m.CreateNode();
        raw := AudioRaw(r);
    }

    /**
     * `init_node`: the boxed builder is downcast to the manager's own builder
     * type, and a builder of another type panics the `unwrap` before
     * anything changes; otherwise it is forwarded, with `buffer` the GL
     * buffer name a rectangle or video gets.
     */
    method InitNode(b: AnyBuilder, buffer: nat) returns (r: Outcome<()>)
      requires Valid()
      modifies Obj()
      ensures Valid() && Chans() <= old(Chans())
      ensures b.Tag() != TyId() ==> r.Panic? && unchanged(Obj())
      ensures b.Tag() == TyId() ==>
        (r.Panic? <==> old(Handle()).None?) && Handle().None? &&
        Count() == if r.Ok? then old(Count()) + 1 else old(Count())
      ensures Built(this, b, buffer, r)
    {
      match this
      case RectManager(m) =>
        if !b.BuildRect? {
          return Panic;
        }
        ghost var rs, p := m.rects, m.pending;
        r := m.InitNode(b.rect, buffer);
        if r.Ok? {
          assert (m.rects)[..|rs|] == rs;
        }
      case VideoManager(m) =>
        if !b.BuildVideo? {
          return Panic;
        }
        ghost var vs, p := m.videos, m.pending;
        r := m.InitNode(b.video, buffer);
        if r.Ok? {
          assert (m.videos)[..|vs|] == vs;
        }
      case AudioManager(m) =>
        if !b.BuildAudio? {
          return Panic;
        }
        ghost var es, p := m.audios, m.pending;
        r := m.InitNode(b.audio);
        if r.Ok? {
          assert (m.audios)[..|es|] == es;
        }
    }

    /**
     * `update`, forwarded: the manager applies the mail of each live node
     * and keeps the nodes not asked to go, as `Updated` says.
     */
    method Update()
      requires Valid()
      modifies Obj(), Chans()
      ensures Valid() && Updated(this) && Chans() <= old(Chans())
    {
      match this
      case RectManager(m) =>
        ghost var rs, ms := m.rects, Rect.Mails(m.rects);
        m.Update();
        Rect.UpdateKeepsManaged(rs, ms);
        Rect.ChansOfMono(m.rects, rs);
      case VideoManager(m) =>
        ghost var vs, ms := m.videos, Video.Mails(m.videos);
        m.Update();
        Video.UpdateKeepsManaged(vs, ms);
        Video.ChansOfMono(m.videos, vs);
      case AudioManager(m) =>
        ghost var es, ms := m.audios, Audio.Mails(m.audios);
        m.Update();
        Audio.UpdateKeepsManaged(es, ms);
        forall d | d in Audio.Drops(m.audios) ensures d in Audio.Drops(es) {
          var i :| 0 <= i < |m.audios| && m.audios[i].drop == d;
          assert m.audios[i] in m.audios;
        }
        Audio.ChansOfMono(m.audios, es);
    }

    /**
     * `render`: the rectangle and video managers draw (and panic without a
     * shader); the audio manager keeps the default, which does nothing.
     */
    method Render() returns (r: Outcome<()>)
      requires Valid()
      modifies Obj()
      ensures Valid() && Chans() == old(Chans())
      ensures RectManager? ==> (r.Panic? <==> !rect.shaderReady) && unchanged(rect)
      ensures VideoManager? ==>
        video.pending == old(video.pending) && video.shaderReady == old(video.shaderReady) &&
        (r.Panic? <==> !video.shaderReady || old(Video.RenderedAll(video.videos)).Panic?) &&
        (r.Panic? ==> video.videos == old(video.videos)) &&
        (r.Ok? ==> video.videos == old(Video.RenderedAll(video.videos)).value)
      ensures AudioManager? ==> r == Ok(()) && unchanged(audio)
    {
      match this
      case RectManager(m) =>
        var d := m.Render();
        r := if d.Panic? then Panic else Ok(());
      case VideoManager(m) =>
        ghost var vs := m.videos;
        var d := m.Render();
        r := if d.Panic? then Panic else Ok(());
        if r.Ok? {
          Video.RetextureKeepsManaged(vs, m.videos);
          Video.ChansOfMono(m.videos, vs);
          Video.ChansOfMono(vs, m.videos);
        }
      case AudioManager(m) =>
        r := Ok(());
    }

    /**
     * `audio_process`: the audio manager mixes its nodes into `buffer`; the
     * rectangle and video managers keep the default, which leaves it alone.
     */
    method AudioProcess(buffer: array<real>) returns (r: Outcome<()>)
      requires Valid()
      modifies Obj(), buffer
      ensures r.Ok? ==> Valid() && Chans() == old(Chans())
      ensures !AudioManager? ==> r == Ok(()) && unchanged(Obj(), buffer)
      ensures AudioManager? ==>
        (r.Panic? <==> old(Audio.ProcessAll(audio.audios, buffer[..])).Panic?) &&
        (r.Ok? ==> audio.audios == old(Audio.ProcessAll(audio.audios, buffer[..])).value.0 &&
                   audio.pending == old(audio.pending) &&
                   buffer[..] == old(Audio.ProcessAll(audio.audios, buffer[..])).value.1)
    {
      match this
      case RectManager(_) =>
        r := Ok(());
      case VideoManager(_) =>
        r := Ok(());
      case AudioManager(m) =>
        ghost var es := m.audios;
        r := m.AudioProcess(buffer);
        if r.Ok? {
          assert old(Audio.ProcessAllKeepsManaged(es, buffer[..]); true);
          assert Audio.Drops(m.audios) == Audio.Drops(es) by {
            forall i | 0 <= i < |es| ensures m.audios[i].drop == es[i].drop {
              assert old(Audio.ProcessAll(es, buffer[..])).value.0[i].drop == es[i].drop;
            }
          }
          Audio.ChansOfMono(m.audios, es);
          Audio.ChansOfMono(es, m.audios);
        }
    }
  }

  /**
   * Between two states, `m` was updated: its live nodes are `RetainMut` of
   * the old ones under the manager's update closure and the mail they held,
   * and nothing else of the manager changed.
   */
  twostate predicate Updated(m: Manager)
    reads m.Obj()
  {
    m.Live() == old(m.AfterUpdate())
  }

  /**
   * What `create_node` did to `m`: the node lists stay, fresh receivers are
   * pending, and `raw` holds their senders.
   */
  twostate predicate Created(m: Manager, new raw: AnyRaw)
    reads m.Obj()
  {
    (m.RectManager? ==>
      m.rect.rects == old(m.rect.rects) && m.rect.shaderReady == old(m.rect.shaderReady) &&
      m.rect.pending.Some? && raw == RectRaw(m.rect.pending.value.Senders()) &&
      fresh(m.rect.pending.value.Chans())) &&
    (m.VideoManager? ==>
      m.video.videos == old(m.video.videos) && m.video.shaderReady == old(m.video.shaderReady) &&
      m.video.pending.Some? && raw == VideoRaw(m.video.pending.value.Senders()) &&
      fresh(m.video.pending.value.Chans())) &&
    (m.AudioManager? ==>
      m.audio.audios == old(m.audio.audios) && m.audio.pending.Some? &&
      raw == AudioRaw(Audio.RawAudio(SignalInner(m.audio.pending.value.receiver))) &&
      fresh(m.audio.pending.value.receiver))
  }

  /**
   * What `init_node` did to `m` with a builder of its own type: the pending
   * receivers and a node built from `b` with GL buffer `buffer` joined the
   * list, last, or it panicked with nothing pending.
   */
  twostate predicate Built(m: Manager, b: AnyBuilder, buffer: nat, r: Outcome<()>)
    reads m.Obj()
  {
    (m.RectManager? && b.BuildRect? ==>
      (r.Panic? <==> old(m.rect.pending).None?) && m.rect.pending == None &&
      m.rect.shaderReady == old(m.rect.shaderReady) &&
      (r.Panic? ==> m.rect.rects == old(m.rect.rects)) &&
      (r.Ok? ==> m.rect.rects == old(m.rect.rects) + [Rect.NRect(VertexArrayObject(Buffer(buffer, ArrayBuffer), Rect.RECT_LAYOUT), b.rect, old(m.rect.pending).value, Rect.BuildMesh(b.rect), 1)])) &&
    (m.VideoManager? && b.BuildVideo? ==>
      (r.Panic? <==> old(m.video.pending).None?) && m.video.pending == None &&
      m.video.shaderReady == old(m.video.shaderReady) &&
      (r.Panic? ==> m.video.videos == old(m.video.videos)) &&
      (r.Ok? ==> m.video.videos == old(m.video.videos) + [Video.RVideo(VertexArrayObject(Buffer(buffer, ArrayBuffer), Video.VIDEO_LAYOUT), b.video, None, old(m.video.pending).value, Video.CreateMesh(b.video), 1)])) &&
    (m.AudioManager? && b.BuildAudio? ==>
      (r.Panic? <==> old(m.audio.pending).None?) && m.audio.pending == None &&
      (r.Panic? ==> m.audio.audios == old(m.audio.audios)) &&
      (r.Ok? ==> m.audio.audios == old(m.audio.audios) + [Audio.AudioEntry(old(m.audio.pending).value, b.audio.stream, [], 0)]))
  }
}
