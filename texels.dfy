/** Sampling a texture at a hit: barycentric interpolation of per-vertex attributes and the
    reduction of a texture coordinate to a texel index, as both renderers do it. */
module Texturing {
  import opened Wrappers
  import opened Vectors
  import opened Entities
  import opened Text
  import opened Rays

  /** The panics of the shading code. */
  datatype RenderError =
    | TextureIndexOutOfRange  // `textures[triangle.texture_index]` past the end
    | MultiplyOverflow        // a `usize` product above usize::MAX
    | RemainderByZero         // `% tex.width` or `% tex.height` of a zero-sized texture
    | ColourIndexOutOfRange   // `tex.colours[..]` past the end

  /** Rust's `f64 as usize`: truncation toward zero, saturating at 0 and usize::MAX. */
  function SaturatingUsize(x: real): (n: nat)
    ensures n <= USIZE_MAX
    ensures 0.0 <= x < USIZE_MAX as real ==> n as real <= x < n as real + 1.0
    ensures x < 0.0 ==> n == 0
    ensures x >= USIZE_MAX as real ==> n == USIZE_MAX
  {
    if x < 0.0 then 0 else if x >= USIZE_MAX as real then USIZE_MAX else x.Floor
  }

  // ---------------------------------------------------------------------------------------
  // Interpolation

  /** The attribute at barycentric coordinates (u, v): weight u on vertex 2, v on vertex 3
      and 1 - u - v on vertex 1, the weights of the Möller–Trumbore hit. */
  function Interpolate(a1: Vector3d, a2: Vector3d, a3: Vector3d, u: real, v: real): Vector3d {
    var w := 1.0 - u - v;
    Add(Add(Scale(a2, u), Scale(a3, v)), Scale(a1, w))
  }

  lemma InterpolateAtVertex1(a1: Vector3d, a2: Vector3d, a3: Vector3d)
    ensures Interpolate(a1, a2, a3, 0.0, 0.0) == a1
  {
    assert Scale(a2, 0.0) == Zero && Scale(a3, 0.0) == Zero && Scale(a1, 1.0) == a1;
  }

  lemma InterpolateAtVertex2(a1: Vector3d, a2: Vector3d, a3: Vector3d)
    ensures Interpolate(a1, a2, a3, 1.0, 0.0) == a2
  {
  }

  lemma InterpolateAtVertex3(a1: Vector3d, a2: Vector3d, a3: Vector3d)
    ensures Interpolate(a1, a2, a3, 0.0, 1.0) == a3
  {
  }

  /** Each vertex gets its own attribute back: the coordinates (0, 0), (1, 0) and (0, 1)
      are vertices 1, 2 and 3. */
  lemma InterpolateReproducesVertices(a1: Vector3d, a2: Vector3d, a3: Vector3d)
    ensures Interpolate(a1, a2, a3, 0.0, 0.0) == a1
    ensures Interpolate(a1, a2, a3, 1.0, 0.0) == a2
    ensures Interpolate(a1, a2, a3, 0.0, 1.0) == a3
  {
    InterpolateAtVertex1(a1, a2, a3);
    InterpolateAtVertex2(a1, a2, a3);
    InterpolateAtVertex3(a1, a2, a3);
  }

  /** The barycentric form V1 + u (V2 - V1) + v (V3 - V1) is the interpolation of the
      three vertices. */
  lemma BarycentricForm(a1: Vector3d, a2: Vector3d, a3: Vector3d, u: real, v: real)
    ensures Add(a1, Add(Scale(Sub(a2, a1), u), Scale(Sub(a3, a1), v))) == Interpolate(a1, a2, a3, u, v)
  {
  }

  /** The hit point of the Möller–Trumbore test is the interpolation of the triangle's
      vertices with these weights, which is why the same weights carry texture coordinates
      and normals. */
  lemma HitIsInterpolationOfVertices(ray: Ray, tri: Triangle)
    requires IntersectTriangle(ray, tri).Some?
    ensures var hit := IntersectTriangle(ray, tri).value;
      At(ray, hit.t) == Interpolate(tri.v1, tri.v2, tri.v3, hit.u, hit.v)
  {
    var hit := IntersectTriangle(ray, tri).value;
    HitLiesOnTriangle(ray, tri);
    BarycentricForm(tri.v1, tri.v2, tri.v3, hit.u, hit.v);
  }

  /** The interpolation of the engine's `trace_ray_for_triangles` as written: weight u on
      vertex 1, v on vertex 2 and 1 - u - v on vertex 3. */
  function EngineInterpolate(a1: Vector3d, a2: Vector3d, a3: Vector3d, u: real, v: real): Vector3d {
    var w := 1.0 - u - v;
    Add(Add(Scale(a1, u), Scale(a2, v)), Scale(a3, w))
  }

  lemma EngineInterpolateAtVertex2(a1: Vector3d, a2: Vector3d, a3: Vector3d)
    ensures EngineInterpolate(a1, a2, a3, 1.0, 0.0) == a1
  {
  }

  /** At the barycentric coordinates of vertex 2 the engine's weights give vertex 1's
      attribute, so whenever the two attributes differ the engine disagrees with the
      interpolation of the hit. */
  lemma EngineInterpolateRotatesVertices(a1: Vector3d, a2: Vector3d, a3: Vector3d)
    requires a1 != a2
    ensures EngineInterpolate(a1, a2, a3, 1.0, 0.0) != Interpolate(a1, a2, a3, 1.0, 0.0)
  {
    EngineInterpolateAtVertex2(a1, a2, a3);
    InterpolateAtVertex2(a1, a2, a3);
  }

  // ---------------------------------------------------------------------------------------
  // Texel indices

  /** One texel coordinate, `((coord * size as f64) as usize) % size`: a zero size is the
      remainder-by-zero panic; otherwise the index is below `size`. */
  function TexelCoord(coord: real, size: nat): (r: Result<nat, RenderError>)
    ensures size == 0 <==> r == Err(RemainderByZero)
    ensures r.Ok? ==> r.value < size
  {
    if size == 0 then Err(RemainderByZero) else Ok(SaturatingUsize(coord * size as real) % size)
  }

  lemma FractionOfPositive(c: real, s: real)
    requires 0.0 <= c < 1.0 && s > 0.0
    ensures 0.0 <= c * s < s
  {
    assert s - c * s == s * (1.0 - c);
  }

  /** The coordinate scaled to the texture's size, in [0, size). */
  lemma ScaledCoord(coord: real, size: nat) returns (x: real)
    requires 0 < size
    requires 0.0 <= coord < 1.0
    ensures x == coord * (size as real)
    ensures 0.0 <= x < size as real
  {
    x := coord * (size as real);
    FractionOfPositive(coord, size as real);
  }

  /** A natural number below the modulus is its own remainder. */
  lemma SmallModIsItself(n: nat, size: nat)
    requires n < size
    ensures n % size == n
  {
    var q, r := n / size, n % size;
    assert n == q * size + r;
    assert q * size == n - r;
    ProductBelowFactor(q, size);
  }

  lemma FloorBelowSize(x: real, size: nat)
    requires 0.0 <= x < size as real && size < USIZE_MAX
    ensures SaturatingUsize(x) < size
    ensures SaturatingUsize(x) as real <= x < SaturatingUsize(x) as real + 1.0
  {
  }

  /** A coordinate in [0, 1) selects the texel whose cell contains it. */
  lemma TexelCoordLocatesCell(coord: real, size: nat)
    requires 0 < size < USIZE_MAX
    requires 0.0 <= coord < 1.0
    ensures TexelCoord(coord, size).Ok?
    ensures var k := TexelCoord(coord, size).value;
      k as real <= coord * size as real < k as real + 1.0
  {
    var x := ScaledCoord(coord, size);
    FloorBelowSize(x, size);
    var n := SaturatingUsize(x);
    SmallModIsItself(n, size);
    assert TexelCoord(coord, size) == Ok(n);
  }

  /** One texel coordinate of the engine as written, `((coord as usize * size) as usize) % size`:
      the coordinate is truncated before it is scaled. */
  function EngineTexelCoord(coord: real, size: nat): Result<nat, RenderError> {
    var product := SaturatingUsize(coord) * size;
    if product > USIZE_MAX then Err(MultiplyOverflow)
    else if size == 0 then Err(RemainderByZero)
    else Ok(product % size)
  }

  /** An integer strictly between -b and b times b is zero times b. */
  lemma ProductBelowFactor(d: int, b: int)
    requires b > 0 && -b < d * b < b
    ensures d == 0
  {
    if d >= 1 {
      assert false;
    } else if d <= -1 {
      assert false;
    }
  }

  lemma MultipleModIsZero(k: nat, size: nat)
    requires size > 0
    ensures (k * size) % size == 0
  {
    var a := k * size;
    var q, r := a / size, a % size;
    assert a == q * size + r;
    var d := k - q;
    assert d * size == k * size - q * size;
    ProductBelowFactor(d, size);
  }

  /** The engine's texel coordinate is a multiple of `size` reduced modulo `size`: it is
      always 0, so the engine samples only the texture's first column and first row. */
  lemma EngineTexelCoordIsZero(coord: real, size: nat)
    requires EngineTexelCoord(coord, size).Ok?
    ensures EngineTexelCoord(coord, size).value == 0
  {
    MultipleModIsZero(SaturatingUsize(coord), size);
  }

  /** For the coordinate 0.5 on a texture two texels wide the engine picks texel 0 where
      the cell containing the coordinate is texel 1. */
  lemma EngineTexelCoordMissesCell()
    ensures EngineTexelCoord(0.5, 2) == Ok(0)
    ensures TexelCoord(0.5, 2) == Ok(1)
  {
    assert SaturatingUsize(0.5) == 0;
    assert SaturatingUsize(1.0) == 1;
  }

  lemma TexelIndexBelowSize(xi: nat, yi: nat, width: nat, height: nat)
    requires xi < width && yi < height
    ensures width * yi + xi < width * height
  {
    assert width * yi + xi < width * yi + width == width * (yi + 1);
    assert width * (yi + 1) <= width * height;
  }

  /** The row-major texel index `width * y + x`. */
  function TexelIndex(tex: Texture, texX: real, texY: real): (r: Result<nat, RenderError>)
    ensures tex.width == 0 || tex.height == 0 <==> r == Err(RemainderByZero)
    ensures r.Ok? ==> r.value < tex.width * tex.height
  {
    var xi :- TexelCoord(texX, tex.width);
    var yi :- TexelCoord(texY, tex.height);
    TexelIndexBelowSize(xi, yi, tex.width, tex.height);
    Ok(tex.width * yi + xi)
  }

  /** `tex.colours[tex.width * tex_y_index + tex_x_index]`: a texture with a colour for
      every cell can always be sampled, and a sample is one of its colours. */
  function SampleTexture(tex: Texture, texX: real, texY: real): (r: Result<Color, RenderError>)
    ensures tex.width == 0 || tex.height == 0 ==> r == Err(RemainderByZero)
    ensures tex.width > 0 && tex.height > 0 && |tex.colours| >= tex.width * tex.height ==> r.Ok?
    ensures r.Ok? ==> r.value in tex.colours
  {
    var index :- TexelIndex(tex, texX, texY);
    if index < |tex.colours| then Ok(tex.colours[index]) else Err(ColourIndexOutOfRange)
  }

  /** When the engine's lookup as written does not panic: both truncated coordinates times
      their dimension fit a `usize`, neither dimension is zero (the remainder's divisor) and
      the texture has a colour at index 0. */
  predicate EngineSampleable(tex: Texture, texX: real, texY: real) {
    && SaturatingUsize(texX) * tex.width <= USIZE_MAX
    && SaturatingUsize(texY) * tex.height <= USIZE_MAX
    && tex.width > 0 && tex.height > 0 && |tex.colours| > 0
  }

  /** The same lookup with the engine's texel coordinates as written. Whatever the
      coordinates, both texel coordinates come out 0, so a lookup that does not panic
      returns the texture's first colour. */
  function EngineSampleTexture(tex: Texture, texX: real, texY: real): (r: Result<Color, RenderError>)
    ensures r.Ok? <==> EngineSampleable(tex, texX, texY)
    ensures r.Ok? ==> r.value == tex.colours[0]
    ensures SaturatingUsize(texX) * tex.width > USIZE_MAX ==> r == Err(MultiplyOverflow)
    ensures tex.width == 0 ==> r == Err(RemainderByZero)
  {
    var xi :- EngineTexelCoord(texX, tex.width);
    var yi :- EngineTexelCoord(texY, tex.height);
    EngineTexelCoordIsZero(texX, tex.width);
    EngineTexelCoordIsZero(texY, tex.height);
    var index := tex.width * yi + xi;
    if index < |tex.colours| then Ok(tex.colours[index]) else Err(ColourIndexOutOfRange)
  }
}
