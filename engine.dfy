/** The first renderer, `src/scene/engine.rs`: a framebuffer written pixel by pixel, a
    nearest-hit scan over every triangle of the scene, and scalar Phong lighting. */
module Engine {
  import opened Wrappers
  import opened Vectors
  import opened Entities
  import opened Rays
  import opened Texturing

  /** Rust's `i32`. */
  type i32 = x: int | -0x8000_0000 <= x < 0x8000_0000

  // ---------------------------------------------------------------------------------------
  // The canvas

  /** The buffer cell of the centred coordinate (x, y): (0, 0) is the middle of the canvas.
      A coordinate whose shifted position falls outside the canvas has no cell. */
  function PixelIndex(width: nat, height: nat, x: int, y: int): (r: Option<nat>)
    ensures r.Some? <==> 0 <= x + width / 2 < width && 0 <= y + height / 2 < height
    ensures r.Some? ==> r.value < width * height
  {
    var newX, newY := x + width / 2, y + height / 2;
    if newX < 0 || newX >= width || newY < 0 || newY >= height then None
    else
      TexelIndexBelowSize(newX, newY, width, height);
      Some(newY * width + newX)
  }

  /** Distinct coordinates on the canvas never share a cell. */
  lemma PixelIndexInjective(width: nat, height: nat, x1: int, y1: int, x2: int, y2: int)
    requires PixelIndex(width, height, x1, y1).Some?
    requires PixelIndex(width, height, x1, y1) == PixelIndex(width, height, x2, y2)
    ensures x1 == x2 && y1 == y2
  {
    var nx1, ny1 := x1 + width / 2, y1 + height / 2;
    var nx2, ny2 := x2 + width / 2, y2 + height / 2;
    assert ny1 * width + nx1 == ny2 * width + nx2;
    assert (ny1 - ny2) * width == nx2 - nx1;
    ProductBelowFactor(ny1 - ny2, width);
  }

  /** Every cell of the buffer is the cell of some coordinate. */
  lemma PixelIndexCoversCanvas(width: nat, height: nat, i: nat)
    requires i < width * height
    ensures width > 0
    ensures PixelIndex(width, height, i % width - width / 2, i / width - height / 2) == Some(i)
  {
    assert width > 0;
    var row, column := i / width, i % width;
    assert i == row * width + column;
    assert row < height;
  }

  /** A window-backed framebuffer of `width * height` packed colours, row-major. */
  class Canvas {
    const width: nat
    const height: nat
    const buffer: array<u32>

    predicate Valid() {
      buffer.Length == width * height
    }

    /** `Canvas::new`: a buffer of exactly `width * height` cells, all 0. */
    constructor (width: nat, height: nat)
      ensures this.width == width && this.height == height
      ensures Valid() && fresh(buffer)
      ensures forall i :: 0 <= i < buffer.Length ==> buffer[i] == 0
    {
      this.width := width;
      this.height := height;
      buffer := new u32[width * height](_ => 0);
    }

    /** `put_pixel`: a coordinate off the canvas is ignored; otherwise exactly the cell of
        the coordinate takes the colour and every other cell keeps its value. */
    method PutPixel(x: i32, y: i32, color: u32)
      requires Valid()
      requires width < 0x8000_0000 && height < 0x8000_0000
      requires x + width / 2 < 0x8000_0000 && y + height / 2 < 0x8000_0000
      modifies buffer
      ensures PixelIndex(width, height, x, y).None? ==> buffer[..] == old(buffer[..])
      ensures PixelIndex(width, height, x, y).Some? ==>
        buffer[..] == old(buffer[..])[PixelIndex(width, height, x, y).value := color]
    {
      var newX := x + width / 2;
      var newY := y + height / 2;
      if newX < 0 || newX >= width || newY < 0 || newY >= height {
        return;
      }
      assert PixelIndex(width, height, x, y) == Some(newY * width + newX);
      buffer[newY * width + newX] := color;
    }
  }

  // ---------------------------------------------------------------------------------------
  // The nearest hit

  /** Triangle `k` is hit, no triangle among the first `n` is hit nearer, and every triangle
      before `k` is missed or hit strictly farther. */
  predicate ClosestAmong(ray: Ray, triangles: seq<Triangle>, n: nat, k: nat)
    requires n <= |triangles|
  {
    && k < n
    && IntersectTriangle(ray, triangles[k]).Some?
    && (forall j :: 0 <= j < n && IntersectTriangle(ray, triangles[j]).Some? ==>
          IntersectTriangle(ray, triangles[k]).value.t <= IntersectTriangle(ray, triangles[j]).value.t)
    && (forall j :: 0 <= j < k && IntersectTriangle(ray, triangles[j]).Some? ==>
          IntersectTriangle(ray, triangles[k]).value.t < IntersectTriangle(ray, triangles[j]).value.t)
  }

  predicate IsClosest(ray: Ray, triangles: seq<Triangle>, k: nat) {
    ClosestAmong(ray, triangles, |triangles|, k)
  }

  /** At most one triangle is the closest. */
  lemma ClosestIsUnique(ray: Ray, triangles: seq<Triangle>, k1: nat, k2: nat)
    requires IsClosest(ray, triangles, k1) && IsClosest(ray, triangles, k2)
    ensures k1 == k2
  {
  }

  /** The loop of `trace_ray_for_triangles`: every triangle is intersected with the ray and a hit replaces the
      best one so far only when strictly nearer, so the nearest hit is kept and among equally
      near hits the earliest triangle wins. No hit at all is `None`. */
  method ClosestHit(ray: Ray, triangles: seq<Triangle>) returns (closest: Option<nat>)
    ensures closest.None? <==> forall j :: 0 <= j < |triangles| ==> IntersectTriangle(ray, triangles[j]).None?
    ensures closest.Some? ==> IsClosest(ray, triangles, closest.value)
  {
    closest := None;
    var closestT: real := 0.0;  // stands for f64::INFINITY while `closest` is None
    for i := 0 to |triangles|
      invariant closest.None? <==> forall j :: 0 <= j < i ==> IntersectTriangle(ray, triangles[j]).None?
      invariant closest.Some? ==>
        && ClosestAmong(ray, triangles, i, closest.value)
        && closestT == IntersectTriangle(ray, triangles[closest.value]).value.t
    {
      var hit := IntersectTriangle(ray, triangles[i]);
      if hit.Some? && (closest.None? || hit.value.t < closestT) {
        closest := Some(i);
        closestT := hit.value.t;
      }
    }
  }

  // ---------------------------------------------------------------------------------------
  // Lighting

  /** The light direction mirrored about the normal, `normal * 2 * (normal . l) - l`. */
  function Reflect(normal: Vector3d, l: Vector3d): Vector3d {
    Sub(Scale(Scale(normal, 2.0), Dot(normal, l)), l)
  }

  /** Mirroring about a unit normal keeps the angle with the normal. */
  lemma ReflectKeepsAngleWithNormal(normal: Vector3d, l: Vector3d)
    requires Dot(normal, normal) == 1.0
    ensures Dot(Reflect(normal, l), normal) == Dot(l, normal)
  {
    var k := Dot(normal, l);
    assert Dot(Reflect(normal, l), normal) == 2.0 * k * Dot(normal, normal) - Dot(l, normal);
  }

  /** The diffuse term: nothing for a light at or behind the surface, otherwise the intensity
      weighted by the cosine of the angle between normal and light. */
  function EngineDiffuse(intensity: real, nDotL: real, normal: Vector3d, l: Vector3d, m: Maths): (r: real)
    ensures nDotL <= 0.0 ==> r == 0.0
    ensures nDotL > 0.0 && Length(normal, m) * Length(l, m) != 0.0 ==>
      r * (Length(normal, m) * Length(l, m)) == intensity * nDotL
  {
    if nDotL <= 0.0 then 0.0
    else
      var b := Length(normal, m) * Length(l, m);
      QuotientTimesDivisor(intensity * nDotL, b);
      Quotient(intensity * nDotL, b)
  }

  ghost predicate SqrtNonNegative(m: Maths) {
    forall x :: m.sqrt(x) >= 0.0
  }

  /** With a square root that is never negative, a non-negative light never darkens by its
      diffuse term. */
  lemma EngineDiffuseNonNegative(intensity: real, nDotL: real, normal: Vector3d, l: Vector3d, m: Maths)
    requires SqrtNonNegative(m) && intensity >= 0.0
    ensures EngineDiffuse(intensity, nDotL, normal, l, m) >= 0.0
  {
    if nDotL > 0.0 {
      var a, b := intensity * nDotL, Length(normal, m) * Length(l, m);
      assert a >= 0.0;
      assert b >= 0.0 by {
        assert Length(normal, m) >= 0.0 && Length(l, m) >= 0.0;
      }
      if b != 0.0 {
        QuotientTimesDivisor(a, b);
      }
    }
  }

  /** `(r . v / (|r| |v|)).powf(s)`: the cosine of the angle between the reflected light `r`
      and the viewer, raised to the specular exponent. */
  function PhongFactor(s: real, r: Vector3d, v: Vector3d, m: Maths): real {
    m.powf(Quotient(Dot(r, v), Length(r, m) * Length(v, m)), s)
  }

  /** The specular term for the reflected light `r`: nothing when the exponent is -1 (a matte
      surface) or when `r` points away from the viewer. */
  function EngineSpecularFor(s: real, intensity: real, r: Vector3d, v: Vector3d, m: Maths): (w: real)
    ensures s == -1.0 ==> w == 0.0
    ensures Dot(r, v) <= 0.0 ==> w == 0.0
  {
    if s != -1.0 && Dot(r, v) > 0.0 then intensity * PhongFactor(s, r, v, m) else 0.0
  }

  /** `compute_specular_lighting_intensity`: the specular term for the light direction `l`
      mirrored about the normal. */
  function EngineSpecular(s: real, intensity: real, normal: Vector3d, v: Vector3d, l: Vector3d, m: Maths): (w: real)
    ensures s == -1.0 ==> w == 0.0
    ensures Dot(Reflect(normal, l), v) <= 0.0 ==> w == 0.0
  {
    EngineSpecularFor(s, intensity, Reflect(normal, l), v, m)
  }

  /** What one light adds: an ambient light its intensity; a directional or point light its
      diffuse and specular terms, towards its direction or towards its position. */
  function EngineContribution(light: Light, point: Vector3d, normal: Vector3d, v: Vector3d, specular: real, m: Maths): real {
    match light
    case Ambient(intensity) => intensity
    case Directional(intensity, direction) =>
      EngineDiffuse(intensity, Dot(normal, direction), normal, direction, m)
        + EngineSpecular(specular, intensity, normal, v, direction, m)
    case Point(intensity, position) =>
      var l := Sub(position, point);
      EngineDiffuse(intensity, Dot(normal, l), normal, l, m) + EngineSpecular(specular, intensity, normal, v, l, m)
  }

  /** The lighting of the engine: the contributions of all lights, in order. */
  function EngineLighting(lights: seq<Light>, point: Vector3d, normal: Vector3d, v: Vector3d, specular: real, m: Maths): real {
    if lights == [] then 0.0
    else
      EngineLighting(lights[..|lights| - 1], point, normal, v, specular, m)
        + EngineContribution(lights[|lights| - 1], point, normal, v, specular, m)
  }

  /** The engine never stops early: the lighting of two groups of lights is the sum of
      their lightings. */
  lemma {:induction false} EngineLightingAppend(a: seq<Light>, b: seq<Light>, point: Vector3d, normal: Vector3d, v: Vector3d, specular: real, m: Maths)
    ensures EngineLighting(a + b, point, normal, v, specular, m)
      == EngineLighting(a, point, normal, v, specular, m) + EngineLighting(b, point, normal, v, specular, m)
    decreases |b|
  {
    if b == [] {
      assert a + b == a;
    } else {
      var b' := b[..|b| - 1];
      assert (a + b)[..|a + b| - 1] == a + b';
      assert (a + b)[|a + b| - 1] == b[|b| - 1];
      EngineLightingAppend(a, b', point, normal, v, specular, m);
    }
  }

  /** An ambient light adds its intensity, wherever it stands among the other lights. */
  lemma EngineAmbientAddsIntensity(a: seq<Light>, intensity: real, b: seq<Light>, point: Vector3d, normal: Vector3d, v: Vector3d, specular: real, m: Maths)
    ensures EngineLighting(a + [Ambient(intensity)] + b, point, normal, v, specular, m)
      == EngineLighting(a + b, point, normal, v, specular, m) + intensity
  {
    EngineLightingAppend(a + [Ambient(intensity)], b, point, normal, v, specular, m);
    EngineLightingAppend(a, b, point, normal, v, specular, m);
    assert (a + [Ambient(intensity)])[..|a|] == a;
  }

  /** `Scene::compute_lighting_intensity`: the loop accumulating every light's contribution. */
  method ComputeLightingIntensity(lights: seq<Light>, point: Vector3d, normal: Vector3d, v: Vector3d, specular: real, m: Maths)
    returns (i: real)
    ensures i == EngineLighting(lights, point, normal, v, specular, m)
  {
    i := 0.0;
    for k := 0 to |lights|
      invariant i == EngineLighting(lights[..k], point, normal, v, specular, m)
    {
      assert lights[..k + 1][..k] == lights[..k];
      match lights[k]
      case Ambient(intensity) =>
        i := i + intensity;
      case Directional(intensity, direction) =>
        var nDotL := Dot(normal, direction);
        i := i + EngineDiffuse(intensity, nDotL, normal, direction, m);
        i := i + EngineSpecular(specular, intensity, normal, v, direction, m);
      case Point(intensity, position) =>
        var l := Sub(position, point);
        var nDotL := Dot(normal, l);
        i := i + EngineDiffuse(intensity, nDotL, normal, l, m);
        i := i + EngineSpecular(specular, intensity, normal, v, l, m);
    }
    assert lights[..|lights|] == lights;
  }

  // ---------------------------------------------------------------------------------------
  // Tracing one ray

  /** The colour of a hit on `tri`, as the engine writes it: the texel its lookup picks in
      the triangle's own texture, scaled by the lighting at the hit point under the
      (unnormalised) face normal. An unknown texture index is a panic, and so is a texture
      lookup that overflows, divides by a zero dimension or runs past the colours; a lookup
      that succeeds always yields the texture's first colour. */
  function EngineShade(ray: Ray, tri: Triangle, hit: RayIntersectionResult, textures: seq<Texture>, lights: seq<Light>, m: Maths)
    : (r: Result<Color, RenderError>)
    requires hit.TriangleResult?
    ensures tri.textureIndex >= |textures| <==> r == Err(TextureIndexOutOfRange)
    ensures tri.textureIndex < |textures| ==>
      var texCoords := EngineInterpolate(tri.v1TexCoords, tri.v2TexCoords, tri.v3TexCoords, hit.u, hit.v);
      r.Ok? <==> EngineSampleable(textures[tri.textureIndex], texCoords.x, texCoords.y)
    ensures tri.textureIndex < |textures| && r.Ok? ==>
      r.value == ScaleColor(textures[tri.textureIndex].colours[0], EngineLighting(
        lights, At(ray, hit.t), Cross(Sub(tri.v2, tri.v1), Sub(tri.v3, tri.v1)), Neg(ray.direction), tri.specular, m))
  {
    var p := At(ray, hit.t);
    var n := Cross(Sub(tri.v2, tri.v1), Sub(tri.v3, tri.v1));
    if tri.textureIndex >= |textures| then Err(TextureIndexOutOfRange)
    else
      var tex := textures[tri.textureIndex];
      var texCoords := EngineInterpolate(tri.v1TexCoords, tri.v2TexCoords, tri.v3TexCoords, hit.u, hit.v);
      var col :- EngineSampleTexture(tex, texCoords.x, texCoords.y);
      Ok(ScaleColor(col, EngineLighting(lights, p, n, Neg(ray.direction), tri.specular, m)))
  }

  /** `trace_ray_for_triangles`: white when no triangle is hit, otherwise the shading of the
      closest hit. */
  method TraceRayForTriangles(ray: Ray, triangles: seq<Triangle>, textures: seq<Texture>, lights: seq<Light>, m: Maths)
    returns (colour: Result<Color, RenderError>)
    ensures (forall j :: 0 <= j < |triangles| ==> IntersectTriangle(ray, triangles[j]).None?) ==> colour == Ok(WHITE)
    ensures forall k: nat :: IsClosest(ray, triangles, k) ==>
      colour == EngineShade(ray, triangles[k], IntersectTriangle(ray, triangles[k]).value, textures, lights, m)
  {
    var closest := ClosestHit(ray, triangles);
    if closest.None? {
      return Ok(WHITE);
    }
    var k := closest.value;
    forall k': nat | IsClosest(ray, triangles, k')
      ensures k' == k
    {
      ClosestIsUnique(ray, triangles, k, k');
    }
    var tri := triangles[k];
    var hit := IntersectTriangle(ray, tri).value;
    var p := At(ray, hit.t);
    var n := Cross(Sub(tri.v2, tri.v1), Sub(tri.v3, tri.v1));
    if tri.textureIndex >= |textures| {
      return Err(TextureIndexOutOfRange);
    }
    var tex := textures[tri.textureIndex];
    var texCoords := EngineInterpolate(tri.v1TexCoords, tri.v2TexCoords, tri.v3TexCoords, hit.u, hit.v);
    var col := EngineSampleTexture(tex, texCoords.x, texCoords.y);
    if col.Err? {
      return Err(col.error);
    }
    var intensity := ComputeLightingIntensity(lights, p, n, Neg(ray.direction), tri.specular, m);
    colour := Ok(ScaleColor(col.value, intensity));
    assert colour == EngineShade(ray, tri, hit, textures, lights, m);
  }
}
