/** The scene entities: colours with their packing into a framebuffer word and their
    scaling by a light intensity, lights, textures, materials and triangles. */
module Entities {
  import opened Vectors
  import opened Wrappers

  /** Rust's `u8` and `u32`. */
  type u8 = x: int | 0 <= x < 256
  type u32 = x: int | 0 <= x < 0x1_0000_0000

  datatype Color = Color(r: u8, g: u8, b: u8)

  const WHITE := Color(255, 255, 255)
  const BLACK := Color(0, 0, 0)

  datatype Light =
    | Ambient(intensity: real)
    | Point(intensity: real, position: Vector3d)
    | Directional(intensity: real, direction: Vector3d)

  /** A decoded image: `width` by `height` colours, row-major. */
  datatype Texture = Texture(width: nat, height: nat, colours: seq<Color>)

  /** The lighting characteristics of a surface, as read from an MTL file: the Ka, Kd and Ks
      colour weights, the Ns specular exponent, the `map_Ka` texture and the optional `bump` map. */
  datatype Material = Material(
    name: string,
    ambientColorCoefficient: Vector3d,
    diffuseColorCoefficient: Vector3d,
    specularColorCoefficient: Vector3d,
    specularWeight: real,
    texture: Texture,
    bumpMap: Option<Texture>)

  /** The textures loaded so far and the materials by name. */
  datatype MaterialMap = MaterialMap(textures: seq<Texture>, materials: map<string, Material>)

  /** A triangle holding every field that some part of the renderer reads: the vertices,
      the per-vertex texture and normal coordinates and the material (the parser and the
      ray tracer), the flat colour (the entity definition) and the texture index and
      specular exponent (the older engine). */
  datatype Triangle = Triangle(
    v1: Vector3d, v2: Vector3d, v3: Vector3d,
    v1TexCoords: Vector3d, v2TexCoords: Vector3d, v3TexCoords: Vector3d,
    v1NormalCoords: Vector3d, v2NormalCoords: Vector3d, v3NormalCoords: Vector3d,
    material: Material,
    color: Color,
    textureIndex: nat,
    specular: real)

  datatype Sphere = Sphere(centre: Vector3d, radius: real, color: Color, specular: real)

  // ---------------------------------------------------------------------------------------
  // Packing a colour into a framebuffer word (`impl Into<u32> for Color`)

  /** 2 to the power `k`, a helper for the shifts below; its contract is only the bound
      the shifts' proofs need. */
  function Pow2(k: nat): (n: nat)
    ensures n >= 1
  {
    if k == 0 then 1 else 2 * Pow2(k - 1)
  }

  /** `x << k` on a `u32`: the bits shifted past bit 31 are lost. */
  function ShiftLeft(x: u32, k: nat): u32
    requires k < 32
  {
    (x * Pow2(k)) % 0x1_0000_0000
  }

  /** A byte shifted left by 8 or 16 bits stays inside 32 bits: nothing is lost. */
  lemma ShiftLeftByte(x: u8, k: nat)
    requires k == 8 || k == 16
    ensures ShiftLeft(x, k) == x * (if k == 8 then 256 else 65536)
  {
    assert Pow2(8) == 256 && Pow2(16) == 65536;
    var n := x * Pow2(k);
    assert 0 <= n < 0x1_0000_0000 by {
      assert n <= 255 * 65536;
    }
  }

  /** `x & 0xFF`: the low eight bits. */
  function LowByte(x: u32): u8 {
    x % 256
  }

  /** `b as u32 + ((g as u32) << 8) + ((r as u32) << 16)`. The result type `u32` makes
      Dafny check that the sum stays below 2^32, where Rust's `+` would panic. */
  function Pack(c: Color): (p: u32)
    ensures p == c.b + 256 * c.g + 65536 * c.r
    ensures p < 0x100_0000
  {
    ShiftLeftByte(c.g, 8);
    ShiftLeftByte(c.r, 16);
    c.b + ShiftLeft(c.g, 8) + ShiftLeft(c.r, 16)
  }

  /** Reads the three channels back: `p >> 16`, `p >> 8` and `p`, each masked with 0xFF. */
  function Unpack(p: u32): Color {
    Color(LowByte(p / 65536), LowByte(p / 256), LowByte(p))
  }

  lemma {:induction false} UnpackPack(c: Color)
    ensures Unpack(Pack(c)) == c
  {
    var p := Pack(c);
    assert p / 65536 == c.r;
    assert p / 256 == c.g + 256 * c.r;
    assert (p / 256) % 256 == c.g;
  }

  /** Packing is injective: distinct colours never share a framebuffer word. */
  lemma PackInjective(c: Color, d: Color)
    requires Pack(c) == Pack(d)
    ensures c == d
  {
    UnpackPack(c);
    UnpackPack(d);
  }

  // ---------------------------------------------------------------------------------------
  // Scaling a colour (`impl Mul<f64> for Color`)

  /** Rust's `f64 as u8`: truncation toward zero, saturating at 0 and 255. */
  function SaturatingU8(x: real): (n: u8)
    ensures 0.0 <= x < 256.0 ==> n as real <= x < n as real + 1.0
    ensures x < 0.0 ==> n == 0
    ensures x >= 256.0 ==> n == 255
  {
    if x < 0.0 then 0 else if x >= 255.0 then 255 else x.Floor
  }

  /** One channel times `rhs`, cast back to `u8`. */
  function ScaleChannel(ch: u8, rhs: real): u8 {
    SaturatingU8(ch as real * rhs)
  }

  /** Each channel becomes the truncation of the channel times `rhs`. */
  function ScaleColor(c: Color, rhs: real): Color {
    Color(ScaleChannel(c.r, rhs), ScaleChannel(c.g, rhs), ScaleChannel(c.b, rhs))
  }

  lemma ScaleByOne(c: Color)
    ensures ScaleColor(c, 1.0) == c
  {
  }

  lemma ScaleByZero(c: Color)
    ensures ScaleColor(c, 0.0) == BLACK
  {
  }

  /** A factor in [0, 1] never brightens a channel. */
  lemma ScaleDarkens(c: Color, rhs: real)
    requires 0.0 <= rhs <= 1.0
    ensures ScaleColor(c, rhs).r <= c.r
    ensures ScaleColor(c, rhs).g <= c.g
    ensures ScaleColor(c, rhs).b <= c.b
  {
    ChannelDarkens(c.r, rhs);
    ChannelDarkens(c.g, rhs);
    ChannelDarkens(c.b, rhs);
  }

  lemma ChannelDarkens(ch: u8, rhs: real)
    requires 0.0 <= rhs <= 1.0
    ensures ScaleChannel(ch, rhs) <= ch
  {
    var x := ch as real * rhs;
    assert ch as real - x == ch as real * (1.0 - rhs);
    assert 0.0 <= x <= ch as real;
    if x >= 255.0 {
      assert ch == 255;
    } else {
      assert x.Floor as real <= x;
    }
  }
}
