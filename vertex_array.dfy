/**
 * Vertex-attribute layout (src/gcx/vertex_array.rs): the per-type component
 * descriptions, the fields a vertex type declares, and the attribute table a
 * vertex-array builder hands to OpenGL.
 */
module VertexArray {
  import opened Common

  /** The component type of an attribute; its only variant is `GL::FLOAT`. */
  datatype DataType = F32

  /** The OpenGL enumerant `GL_FLOAT`, the discriminant of `DataType::F32`. */
  const GL_FLOAT: nat := 0x1406

  /** `attrib.ty as u32`. */
  function GlEnum(t: DataType): (e: nat)
    ensures t == F32 ==> e == GL_FLOAT
  {
    match t
    case F32 => GL_FLOAT
  }

  /**
   * What a vertex component type contributes to a field: its size in bytes
   * (`size_of::<T>()`) and its `GLType` impl (component count and base type).
   */
  datatype GLType = GLType(bytes: nat, components: int, base: DataType)

  /** `impl GLType for f32`. */
  const F32_TYPE: GLType := GLType(4, 1, F32)

  /** `impl GLType for [f32; n]`. */
  function ArrayType(n: nat): (t: GLType)
    ensures t.bytes == n * F32_TYPE.bytes && t.base == F32
  {
    GLType(4 * n, n, F32)
  }

  /** One named component of a vertex type. */
  datatype Field = Field(name: string, size: nat, glSize: int, base: DataType)

  /** `Field::new::<T>(name)`. */
  function NewField(name: string, t: GLType): (f: Field)
    ensures f.name == name && f.size == t.bytes && f.glSize == t.components && f.base == t.base
  {
    Field(name, t.bytes, t.components, t.base)
  }

  /** `<() as Fields>::fields()`: a vertex type with nothing in it. */
  const UNIT_FIELDS: seq<Field> := []

  /** `<[f32; n] as Fields>::fields()`: the whole vertex is one position. */
  function ArrayFields(n: nat): (fs: seq<Field>)
    ensures |fs| == 1 && fs[0].name == "position"
  {
    [NewField("position", ArrayType(n))]
  }

  /** A position of `n` floats is one field of `4 n` bytes and `n` components. */
  lemma ArrayFieldShape(n: nat)
    ensures ArrayFields(n) == [Field("position", 4 * n, n, F32)]
    ensures TotalSize(ArrayFields(n)) == 4 * n
  {
    assert ArrayFields(n)[..0] == [];
  }

  /** The description of one vertex attribute as given to `glVertexAttribPointer`. */
  datatype AttribPointer = AttribPointer(ty: DataType, size: int, normalized: bool, stride: int, offset: int)

  /** The arguments of one `glVertexAttribPointer` call, made right after enabling `location`. */
  datatype AttribCall = AttribCall(location: nat, size: int, ty: nat, normalized: bool, stride: int, offset: int)

  datatype BufferType = ArrayBuffer | ElementArrayBuffer | UniformBuffer | ShaderStorage

  /** A GL buffer object, known by its name and its binding target. */
  datatype Buffer = Buffer(name: nat, ty: BufferType)

  /** A configured vertex array: its array buffer and the attribute calls made on it, in order. */
  datatype VertexArrayObject = VertexArrayObject(arrayBuffer: Buffer, calls: seq<AttribCall>)

  /** Sum of the byte sizes of `fields`. */
  function TotalSize(fields: seq<Field>): nat
  {
    if fields == [] then 0 else TotalSize(fields[..|fields| - 1]) + fields[|fields| - 1].size
  }

  /**
   * The attributes the first loop of `build` pushes for `fields`: one per
   * field, stride still 0, offset the running byte count.
   */
  function Pushed(fields: seq<Field>): (r: seq<AttribPointer>)
    ensures |r| == |fields|
  {
    if fields == [] then []
    else
      var init, f := fields[..|fields| - 1], fields[|fields| - 1];
      Pushed(init) + [AttribPointer(f.base, f.glSize, false, 0, TotalSize(init))]
  }

  /** The attribute for field `k` sits after all the fields before it. */
  lemma {:induction false} PushedAt(fields: seq<Field>, k: nat)
    requires k < |fields|
    ensures Pushed(fields)[k] == AttribPointer(fields[k].base, fields[k].glSize, false, 0, TotalSize(fields[..k]))
  {
    var n := |fields|;
    if k < n - 1 {
      var init := fields[..n - 1];
      PushedAt(init, k);
      assert init[..k] == fields[..k];
    } else {
      assert fields[..k] == fields[..n - 1];
    }
  }

  /**
   * The automatic layout tiles the vertex: each field starts where the
   * previous one ends, and the last one ends at the stride.
   */
  lemma {:induction false} LayoutTiles(fields: seq<Field>, k: nat)
    requires k < |fields|
    ensures TotalSize(fields[..k + 1]) == TotalSize(fields[..k]) + fields[k].size
    ensures k == |fields| - 1 ==> TotalSize(fields[..k]) + fields[k].size == TotalSize(fields)
  {
    assert fields[..k + 1][..k] == fields[..k];
    assert fields[..|fields|] == fields;
  }

  /** A builder for a vertex array of a vertex type with the given fields. */
  class VertexArrayBuilder {
    /** `T::fields()` of the vertex type the array is built for. */
    const fields: seq<Field>
    var arrayBuffer: Buffer
    var attribs: seq<AttribPointer>

    /** `create_vertex_array::<T>(buffer)`: no explicit attributes yet. */
    constructor (fields: seq<Field>, buffer: Buffer)
      ensures this.fields == fields && arrayBuffer == buffer && attribs == []
    {
      this.fields := fields;
      arrayBuffer := buffer;
      attribs := [];
    }

    /** `add_buffer`: an array buffer replaces the current one; every other kind is `todo!()`. */
    method AddBuffer(buffer: Buffer) returns (r: Outcome<()>)
      modifies this
      ensures r.Ok? <==> buffer.ty == ArrayBuffer
      ensures arrayBuffer == if r.Ok? then buffer else old(arrayBuffer)
      ensures attribs == old(attribs)
    {
      match buffer.ty {
        case ArrayBuffer =>
          arrayBuffer := buffer;
          r := Ok(());
        case ElementArrayBuffer => r := Panic;
        case UniformBuffer => r := Panic;
        case ShaderStorage => r := Panic;
      }
    }

    /** `add_attrib`: explicit attributes are kept in insertion order. */
    method AddAttrib(attrib: AttribPointer)
      modifies this
      ensures attribs == old(attribs) + [attrib] && arrayBuffer == old(arrayBuffer)
    {
      attribs := attribs + [attrib];
    }

    /**
     * `build`. Explicit attributes are used as given; without them there is
     * one attribute per field, in field order, at the field's byte offset,
     * with the total byte size as stride, which must not be 0. Attribute `i`
     * is enabled and configured at location `i`.
     */
    method Build() returns (r: Outcome<VertexArrayObject>)
      ensures r.Panic? <==> attribs == [] && TotalSize(fields) == 0
      ensures r.Ok? ==> r.value.arrayBuffer == arrayBuffer
      ensures r.Ok? && attribs != [] ==>
        |r.value.calls| == |attribs| &&
        forall i :: 0 <= i < |attribs| ==>
          var a := attribs[i];
          r.value.calls[i] == AttribCall(i, a.size, GlEnum(a.ty), a.normalized, a.stride, a.offset)
      ensures r.Ok? && attribs == [] ==>
        |r.value.calls| == |fields| &&
        forall i :: 0 <= i < |fields| ==>
          r.value.calls[i] == AttribCall(i, fields[i].glSize, GL_FLOAT, false, TotalSize(fields), TotalSize(fields[..i]))
    {
      var list := attribs;
      if list == [] {
        var stride := 0;
        var i := 0;
        while i < |fields|
          invariant 0 <= i <= |fields|
          invariant list == Pushed(fields[..i]) && stride == TotalSize(fields[..i])
        {
          var f := fields[i];
          list := list + [AttribPointer(f.base, f.glSize, false, 0, stride)];
          stride := stride + f.size;
          assert fields[..i + 1][..i] == fields[..i];
          i := i + 1;
        }
        assert fields[..i] == fields;
        var j := 0;
        while j < |list|
          invariant 0 <= j <= |list| == |fields|
          invariant forall k :: 0 <= k < j ==> list[k] == Pushed(fields)[k].(stride := stride)
          invariant forall k :: j <= k < |list| ==> list[k] == Pushed(fields)[k]
        {
          list := list[j := list[j].(stride := stride)];
          j := j + 1;
        }
        if stride == 0 {
          return Panic;
        }
        forall k | 0 <= k < |fields|
          ensures list[k] == AttribPointer(fields[k].base, fields[k].glSize, false, stride, TotalSize(fields[..k]))
        {
          PushedAt(fields, k);
        }
      }
      var calls := [];
      var i := 0;
      while i < |list|
        invariant 0 <= i <= |list|
        invariant |calls| == i
        invariant forall k :: 0 <= k < i ==>
          calls[k] == AttribCall(k, list[k].size, GlEnum(list[k].ty), list[k].normalized, list[k].stride, list[k].offset)
      {
        var a := list[i];
        calls := calls + [AttribCall(i, a.size, GlEnum(a.ty), a.normalized, a.stride, a.offset)];
        i := i + 1;
      }
      r := Ok(VertexArrayObject(arrayBuffer, calls));
    }
  }
}
