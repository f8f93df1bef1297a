/** The second renderer, `src/scene/raytracer.rs`: rays answered by the octree, textures
    sampled through the triangle's material, shadow tests towards point lights and
    colour-weighted Phong lighting. */
module Raytracer {
  import opened Wrappers
  import opened Vectors
  import opened Entities
  import opened Rays
  import opened Texturing
  import opened Engine

  /** A triangle hit found by the octree: the triangle and the Möller–Trumbore result. */
  datatype TriangleHit = TriangleHit(triangle: Triangle, t: real, u: real, v: real)

  /** The two octree walks of `Ray`, which this model does not implement: the nearest hit
      (`intersect_with_octant`) and the nearest hit no farther than a bound
      (`intersect_with_octant_with_max_t`). */
  datatype OctreeQuery = OctreeQuery(
    nearest: Ray -> Option<TriangleHit>,
    nearestWithin: (Ray, real) -> Option<TriangleHit>)

  /** The scene the ray tracer renders: the octree of its triangles, its lights and the
      camera position. */
  datatype RayTracer = RayTracer(octree: OctreeQuery, lights: seq<Light>, origin: Vector3d)

  /** The surface point being lit: where it is, its normal, the direction towards the
      viewer and its material. */
  datatype Surface = Surface(point: Vector3d, normal: Vector3d, view: Vector3d, material: Material)

  /** The fraction of the way to the target by which a shadow ray starts late, so that it
      does not find the surface it leaves. */
  const ORIGIN_SHIFT: real := 0.0001

  /** The shadow ray from `origin` towards `target`: it points at the target, starts a
      little way along, is back at `origin` at -ORIGIN_SHIFT and reaches `target` at
      1 - ORIGIN_SHIFT. */
  function ShadowRay(origin: Vector3d, target: Vector3d): (ray: Ray)
    ensures ray.direction == Sub(target, origin)
    ensures At(ray, -ORIGIN_SHIFT) == origin
    ensures At(ray, 1.0 - ORIGIN_SHIFT) == target
  {
    var direction := Sub(target, origin);
    Ray(Add(origin, Scale(direction, ORIGIN_SHIFT)), direction)
  }

  /** `triangle_exists_between_points`, which despite its name is true when the octree finds
      NO triangle on the shadow ray within the distance from `origin` to `target`. */
  function TriangleExistsBetweenPoints(rt: RayTracer, origin: Vector3d, target: Vector3d, m: Maths): (clear: bool)
    ensures clear <==>
      rt.octree.nearestWithin(ShadowRay(origin, target), Length(Sub(target, origin), m)).None?
  {
    var ray := ShadowRay(origin, target);
    var maxT := Length(ray.direction, m);
    rt.octree.nearestWithin(ray, maxT).None?
  }

  // ---------------------------------------------------------------------------------------
  // Lighting

  /** The diffuse term, weighted by the material's Kd: zero for a light at or behind the
      surface. */
  function Diffuse(intensity: real, nDotL: real, normal: Vector3d, l: Vector3d, material: Material, m: Maths): (r: Vector3d)
    ensures nDotL <= 0.0 ==> r == Zero
  {
    if nDotL <= 0.0 then Zero
    else Div(Scale(Scale(material.diffuseColorCoefficient, intensity), nDotL), Length(normal, m) * Length(l, m))
  }

  /** The specular term for the reflected light `r`, weighted by the material's Ks: zero for
      an exponent of -1 or when `r` points away from the viewer. */
  function SpecularFor(s: real, intensity: real, r: Vector3d, v: Vector3d, material: Material, m: Maths): (w: Vector3d)
    ensures s == -1.0 ==> w == Zero
    ensures Dot(r, v) <= 0.0 ==> w == Zero
  {
    if s != -1.0 && Dot(r, v) > 0.0 then Scale(Scale(material.specularColorCoefficient, intensity), PhongFactor(s, r, v, m))
    else Zero
  }

  /** `compute_specular_lighting_intensity` of the ray tracer: the weighted specular term for
      the light direction `l` mirrored about the normal. */
  function Specular(s: real, intensity: real, normal: Vector3d, v: Vector3d, l: Vector3d, material: Material, m: Maths): (w: Vector3d)
    ensures s == -1.0 ==> w == Zero
    ensures Dot(Reflect(normal, l), v) <= 0.0 ==> w == Zero
  {
    SpecularFor(s, intensity, Reflect(normal, l), v, material, m)
  }

  /** Scaling the dividend of a quotient scales the quotient. */
  lemma QuotientOfProduct(k: real, intensity: real, nDotL: real, b: real)
    ensures Quotient(k * intensity * nDotL, b) == k * Quotient(intensity * nDotL, b)
  {
    var a := intensity * nDotL;
    assert k * intensity * nDotL == k * a;
    if b != 0.0 {
      QuotientTimesDivisor(a, b);
      QuotientTimesDivisor(k * a, b);
      assert (k * Quotient(a, b)) * b == k * (Quotient(a, b) * b);
    }
  }

  /** Dividing a weighted product by `b` is weighting the quotient. */
  lemma WeightedQuotient(kd: Vector3d, intensity: real, nDotL: real, b: real)
    ensures Div(Scale(Scale(kd, intensity), nDotL), b) == Scale(kd, Quotient(intensity * nDotL, b))
  {
    QuotientOfProduct(kd.x, intensity, nDotL, b);
    QuotientOfProduct(kd.y, intensity, nDotL, b);
    QuotientOfProduct(kd.z, intensity, nDotL, b);
  }

  /** The two renderers agree on the diffuse term: the ray tracer's is the engine's, weighted
      channel by channel by Kd. */
  lemma DiffuseIsWeightedEngineDiffuse(intensity: real, nDotL: real, normal: Vector3d, l: Vector3d, material: Material, m: Maths)
    ensures Diffuse(intensity, nDotL, normal, l, material, m)
      == Scale(material.diffuseColorCoefficient, EngineDiffuse(intensity, nDotL, normal, l, m))
  {
    var kd, b := material.diffuseColorCoefficient, Length(normal, m) * Length(l, m);
    if nDotL > 0.0 {
      WeightedQuotient(kd, intensity, nDotL, b);
    } else {
      assert Scale(kd, 0.0) == Zero;
    }
  }

  /** Scaling twice is scaling by the product. */
  lemma ScaleTwice(a: Vector3d, k1: real, k2: real)
    ensures Scale(Scale(a, k1), k2) == Scale(a, k1 * k2)
  {
    assert a.x * k1 * k2 == a.x * (k1 * k2);
    assert a.y * k1 * k2 == a.y * (k1 * k2);
    assert a.z * k1 * k2 == a.z * (k1 * k2);
  }

  /** Whatever the reflected light, the ray tracer's specular term is the engine's weighted
      by Ks. */
  lemma SpecularForIsWeighted(s: real, intensity: real, r: Vector3d, v: Vector3d, material: Material, m: Maths)
    ensures SpecularFor(s, intensity, r, v, material, m)
      == Scale(material.specularColorCoefficient, EngineSpecularFor(s, intensity, r, v, m))
  {
    var ks := material.specularColorCoefficient;
    if s != -1.0 && Dot(r, v) > 0.0 {
      ScaleTwice(ks, intensity, PhongFactor(s, r, v, m));
    } else {
      assert Scale(ks, 0.0) == Zero;
    }
  }

  /** ... and so it is on the specular term, weighted by Ks. */
  lemma SpecularIsWeightedEngineSpecular(s: real, intensity: real, normal: Vector3d, v: Vector3d, l: Vector3d, material: Material, m: Maths)
    ensures Specular(s, intensity, normal, v, l, material, m)
      == Scale(material.specularColorCoefficient, EngineSpecular(s, intensity, normal, v, l, m))
  {
    SpecularForIsWeighted(s, intensity, Reflect(normal, l), v, material, m);
  }

  /** The lighting from `lights` onwards, added to `acc`. An ambient light adds Ka times its
      intensity; a directional light its diffuse and specular terms; a point light the same
      towards its position, unless the shadow ray finds a triangle: then the loop stops and
      no later light of any kind contributes. */
  function LightingFrom(rt: RayTracer, lights: seq<Light>, acc: Vector3d, s: Surface, m: Maths): Vector3d
    decreases |lights|
  {
    if lights == [] then acc
    else
      match lights[0]
      case Ambient(intensity) =>
        LightingFrom(rt, lights[1..], Add(acc, Scale(s.material.ambientColorCoefficient, intensity)), s, m)
      case Directional(intensity, direction) =>
        var nDotL := Dot(s.normal, direction);
        var acc' := Add(acc, Diffuse(intensity, nDotL, s.normal, direction, s.material, m));
        LightingFrom(rt, lights[1..], Add(acc', Specular(s.material.specularWeight, intensity, s.normal, s.view, direction, s.material, m)), s, m)
      case Point(intensity, position) =>
        if !TriangleExistsBetweenPoints(rt, s.point, position, m) then acc
        else
          var l := Sub(position, s.point);
          var nDotL := Dot(s.normal, l);
          var acc' := Add(acc, Diffuse(intensity, nDotL, s.normal, l, s.material, m));
          LightingFrom(rt, lights[1..], Add(acc', Specular(s.material.specularWeight, intensity, s.normal, s.view, l, s.material, m)), s, m)
  }

  /** The lighting of a surface point by all of the scene's lights. */
  function Lighting(rt: RayTracer, s: Surface, m: Maths): Vector3d {
    LightingFrom(rt, rt.lights, Zero, s, m)
  }

  /** A point light whose shadow ray is blocked ends the lighting: whatever follows it, the
      result is the lighting of the lights before it. */
  lemma {:induction false} BlockedPointLightStopsLighting(
    rt: RayTracer, before: seq<Light>, intensity: real, position: Vector3d, after: seq<Light>,
    acc: Vector3d, s: Surface, m: Maths)
    requires !TriangleExistsBetweenPoints(rt, s.point, position, m)
    ensures LightingFrom(rt, before + [Point(intensity, position)] + after, acc, s, m) == LightingFrom(rt, before, acc, s, m)
    decreases |before|
  {
    var all := before + [Point(intensity, position)] + after;
    if before == [] {
      assert all[0] == Point(intensity, position);
    } else {
      assert all[0] == before[0];
      assert all[1..] == before[1..] + [Point(intensity, position)] + after;
      match before[0]
      case Ambient(k) =>
        BlockedPointLightStopsLighting(rt, before[1..], intensity, position, after,
          Add(acc, Scale(s.material.ambientColorCoefficient, k)), s, m);
      case Directional(k, direction) =>
        var nDotL := Dot(s.normal, direction);
        var acc' := Add(acc, Diffuse(k, nDotL, s.normal, direction, s.material, m));
        BlockedPointLightStopsLighting(rt, before[1..], intensity, position, after,
          Add(acc', Specular(s.material.specularWeight, k, s.normal, s.view, direction, s.material, m)), s, m);
      case Point(k, p) =>
        if TriangleExistsBetweenPoints(rt, s.point, p, m) {
          var l := Sub(p, s.point);
          var nDotL := Dot(s.normal, l);
          var acc' := Add(acc, Diffuse(k, nDotL, s.normal, l, s.material, m));
          BlockedPointLightStopsLighting(rt, before[1..], intensity, position, after,
            Add(acc', Specular(s.material.specularWeight, k, s.normal, s.view, l, s.material, m)), s, m);
        }
    }
  }

  /** An ambient light adds Ka times its intensity, whatever the accumulated lighting. */
  lemma AmbientAddsCoefficient(rt: RayTracer, intensity: real, rest: seq<Light>, acc: Vector3d, s: Surface, m: Maths)
    ensures LightingFrom(rt, [Ambient(intensity)] + rest, acc, s, m)
      == LightingFrom(rt, rest, Add(acc, Scale(s.material.ambientColorCoefficient, intensity)), s, m)
  {
    assert ([Ambient(intensity)] + rest)[1..] == rest;
  }

  /** `RayTracer::compute_lighting_intensity`: the loop over the lights with its `break` on a
      point light whose shadow ray is blocked. */
  method ComputeLightingIntensity(rt: RayTracer, s: Surface, m: Maths) returns (i: Vector3d)
    ensures i == Lighting(rt, s, m)
  {
    i := Zero;
    var lights := rt.lights;
    var k := 0;
    while k < |lights|
      invariant 0 <= k <= |lights|
      invariant LightingFrom(rt, lights[k..], i, s, m) == Lighting(rt, s, m)
    {
      assert lights[k..][0] == lights[k] && lights[k..][1..] == lights[k + 1..];
      match lights[k] {
        case Ambient(intensity) =>
          i := Add(i, Scale(s.material.ambientColorCoefficient, intensity));
        case Directional(intensity, direction) =>
          var nDotL := Dot(s.normal, direction);
          i := Add(i, Diffuse(intensity, nDotL, s.normal, direction, s.material, m));
          i := Add(i, Specular(s.material.specularWeight, intensity, s.normal, s.view, direction, s.material, m));
        case Point(intensity, position) =>
          var lightHitsPoint := TriangleExistsBetweenPoints(rt, s.point, position, m);
          if !lightHitsPoint {
            break;
          }
          var l := Sub(position, s.point);
          var nDotL := Dot(s.normal, l);
          i := Add(i, Diffuse(intensity, nDotL, s.normal, l, s.material, m));
          i := Add(i, Specular(s.material.specularWeight, intensity, s.normal, s.view, l, s.material, m));
      }
      k := k + 1;
    }
    if k == |lights| {
      assert lights[k..] == [];
    }
  }

  // ---------------------------------------------------------------------------------------
  // The colour of a ray

  /** `(col.c as f64 * lighting_intensity.c) as u8` for each channel c. */
  function ShadeColor(col: Color, intensity: Vector3d): Color {
    Color(ScaleChannel(col.r, intensity.x), ScaleChannel(col.g, intensity.y), ScaleChannel(col.b, intensity.z))
  }

  /** A grey intensity scales the colour as `Color * f64` does. */
  lemma ShadeByGreyIsScale(col: Color, k: real)
    ensures ShadeColor(col, Vector3d(k, k, k)) == ScaleColor(col, k)
  {
  }

  /** `get_ray_colour`: white when the octree finds no triangle; otherwise the texel of the
      hit triangle's material under the interpolated texture coordinates, shaded channel by
      channel by the lighting at the hit point under the interpolated normal. */
  function GetRayColour(rt: RayTracer, origin: Vector3d, direction: Vector3d, m: Maths): (r: Result<Color, RenderError>)
    ensures rt.octree.nearest(Ray(origin, direction)).None? ==> r == Ok(WHITE)
    ensures rt.octree.nearest(Ray(origin, direction)).Some? ==>
      var tex := rt.octree.nearest(Ray(origin, direction)).value.triangle.material.texture;
      && (tex.width == 0 || tex.height == 0 ==> r == Err(RemainderByZero))
      && (tex.width > 0 && tex.height > 0 && |tex.colours| >= tex.width * tex.height ==> r.Ok?)
  {
    match rt.octree.nearest(Ray(origin, direction))
    case None => Ok(WHITE)
    case Some(hit) =>
      var tri := hit.triangle;
      var p := Add(origin, Scale(direction, hit.t));
      var tex := tri.material.texture;
      var texCoords := Interpolate(tri.v1TexCoords, tri.v2TexCoords, tri.v3TexCoords, hit.u, hit.v);
      var col :- SampleTexture(tex, texCoords.x, texCoords.y);
      var n := Interpolate(tri.v1NormalCoords, tri.v2NormalCoords, tri.v3NormalCoords, hit.u, hit.v);
      var intensity := Lighting(rt, Surface(p, n, Neg(direction), tri.material), m);
      Ok(ShadeColor(col, intensity))
  }

  /** Without lights a hit on a sampleable texture is black and a miss is white. */
  lemma UnlitSceneIsBlackOnWhite(rt: RayTracer, origin: Vector3d, direction: Vector3d, m: Maths)
    requires rt.lights == []
    requires GetRayColour(rt, origin, direction, m).Ok?
    ensures GetRayColour(rt, origin, direction, m)
      == Ok(if rt.octree.nearest(Ray(origin, direction)).None? then WHITE else BLACK)
  {
  }
}
