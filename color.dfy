/**
 * RGBA colours (src/color.rs): four channels, the named constants, and the
 * conversions from a packed `i32` and from tuples.
 */
module Color {
  import opened Common
  import opened VertexArray

  /** A colour; channels are `f32` in the source and reals here. */
  datatype Color = Color(r: real, g: real, b: real, a: real)

  const RED: Color := Color(1.0, 0.0, 0.0, 1.0)
  const GREEN: Color := Color(0.0, 1.0, 0.0, 1.0)
  const BLUE: Color := Color(0.0, 0.0, 1.0, 1.0)
  /** Opaque black. */
  const ALPHA: Color := Color(0.0, 0.0, 0.0, 1.0)

  /** `impl GLType for Color`: four `f32` components, 16 bytes in `repr(C)` layout. */
  const COLOR_TYPE: GLType := GLType(16, 4, F32)

  /**
   * Byte `k` (0 = least significant) of the two's-complement bit pattern of
   * the 32-bit integer `v`: what `v >> 8k & 255` gives in Rust, where the
   * arithmetic shift's sign bits are masked away.
   */
  function ByteOf(v: int, k: nat): (b: nat)
    requires I32_MIN <= v <= I32_MAX && k < 4
    ensures b < 256
  {
    (v % TWO_POW_32) / Pow256(k) % 256
  }

  function Pow256(k: nat): (p: nat)
    ensures p > 0
  {
    if k == 0 then 1 else 256 * Pow256(k - 1)
  }

  /**
   * `From<i32>`: alpha from bits 0-7, red from 8-15, green from 16-23 and
   * blue from 24-31, each byte over 255, so every channel lies in [0, 1].
   */
  function FromI32(v: int): (c: Color)
    requires I32_MIN <= v <= I32_MAX
    ensures 0.0 <= c.r <= 1.0 && 0.0 <= c.g <= 1.0 && 0.0 <= c.b <= 1.0 && 0.0 <= c.a <= 1.0
  {
    Color(ByteOf(v, 1) as real / 255.0, ByteOf(v, 2) as real / 255.0,
          ByteOf(v, 3) as real / 255.0, ByteOf(v, 0) as real / 255.0)
  }

  /** The `i32` whose bytes are, from least significant up, alpha, red, green and blue. */
  function Pack(r: nat, g: nat, b: nat, a: nat): (v: int)
    requires r < 256 && g < 256 && b < 256 && a < 256
    ensures I32_MIN <= v <= I32_MAX
  {
    var u := a + 256 * r + 65536 * g + 16777216 * b;
    if u <= I32_MAX then u else u - TWO_POW_32
  }

  lemma DivMod256(q: nat, d: nat)
    requires d < 256
    ensures (256 * q + d) / 256 == q && (256 * q + d) % 256 == d
  {
  }

  /**
   * `From<i32>` inverts the byte packing: every colour with byte channels,
   * including those whose blue byte makes the `i32` negative.
   */
  lemma {:induction false} FromPacked(r: nat, g: nat, b: nat, a: nat)
    requires r < 256 && g < 256 && b < 256 && a < 256
    ensures FromI32(Pack(r, g, b, a)) ==
      Color(r as real / 255.0, g as real / 255.0, b as real / 255.0, a as real / 255.0)
  {
    var v := Pack(r, g, b, a);
    var u := a + 256 * (r + 256 * (g + 256 * b));
    assert u == a + 256 * r + 65536 * g + 16777216 * b;
    assert 0 <= u < TWO_POW_32;
    assert v % TWO_POW_32 == u;
    assert Pow256(1) == 256 && Pow256(2) == 65536 && Pow256(3) == 16777216;
    DivMod256(r + 256 * (g + 256 * b), a);
    DivMod256(g + 256 * b, r);
    DivMod256(b, g);
    assert u / 65536 == (u / 256) / 256 by { DivDiv(u, 256, 256); }
    assert u / 16777216 == (u / 65536) / 256 by { DivDiv(u, 65536, 256); }
    assert ByteOf(v, 0) == a;
    assert ByteOf(v, 1) == r;
    assert ByteOf(v, 2) == g;
    assert ByteOf(v, 3) == b;
  }

  lemma DivDiv(u: nat, p: nat, q: nat)
    requires p > 0 && q > 0
    ensures u / (p * q) == (u / p) / q
  {
    var x := u / p;
    var y := x / q;
    var m, n := u % p, x % q;
    assert u == p * x + m;
    assert x == q * y + n;
    Regroup(p, q, y, n);
    assert u == (p * q) * y + (p * n + m);
    BelowProduct(p, q, n, m);
    DivUnique(u, p * q, y, p * n + m);
  }

  lemma Regroup(p: int, q: int, y: int, n: int)
    ensures p * (q * y + n) == (p * q) * y + p * n
  {
  }

  lemma BelowProduct(p: nat, q: nat, n: nat, m: nat)
    requires n < q && m < p
    ensures p * n + m < p * q
  {
    assert p * n <= p * (q - 1);
  }

  lemma DivUnique(u: int, d: nat, y: int, rem: int)
    requires d > 0 && u == d * y + rem && 0 <= rem < d
    ensures u / d == y
  {
    var q, m := u / d, u % d;
    assert d * (q - y) == rem - m;
    if q > y {
      MulAtLeast(d, q - y);
    } else if q < y {
      MulAtLeast(d, y - q);
    }
  }

  lemma MulAtLeast(d: nat, k: int)
    requires k >= 1
    ensures d * k >= d
  {
  }

  /** `From<(f32, f32, f32)>`: the three channels unchanged, fully opaque. */
  function FromRgb(t: (real, real, real)): (c: Color)
    ensures c.r == t.0 && c.g == t.1 && c.b == t.2 && c.a == 1.0
  {
    Color(t.0, t.1, t.2, 1.0)
  }

  /** `From<(f32, f32, f32, f32)>`: all four channels unchanged. */
  function FromRgba(t: (real, real, real, real)): (c: Color)
    ensures c.r == t.0 && c.g == t.1 && c.b == t.2 && c.a == t.3
  {
    Color(t.0, t.1, t.2, t.3)
  }

  /** The named constants are all opaque, and ALPHA is opaque black. */
  lemma ConstantsOpaque()
    ensures RED.a == GREEN.a == BLUE.a == ALPHA.a == 1.0
    ensures ALPHA == FromRgb((0.0, 0.0, 0.0))
    ensures RED == FromI32(Pack(255, 0, 0, 255)) && BLUE == FromI32(Pack(0, 0, 255, 255))
  {
    FromPacked(255, 0, 0, 255);
    FromPacked(0, 0, 255, 255);
  }

  /** A colour field is one 16-byte attribute of four floats. */
  lemma ColorField(name: string)
    ensures NewField(name, COLOR_TYPE) == Field(name, 16, 4, F32)
  {
  }
}
