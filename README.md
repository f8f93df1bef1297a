# rust-ray-tracer, modelled in Dafny

The program renders Wavefront OBJ scenes. A scene file gives vertices, texture coordinates,
normals and faces, and refers to MTL material files that name textures and set colour
weights. The parser reads both kinds of file line by line into scene data: pools of
vertices, triangles with their material, a material map with a texture cache, and an octree
over the scene's bounds. Two renderers then shade each ray.

- The engine (`Scene::trace_ray_for_triangles`) tests every triangle with the Möller–Trumbore
  algorithm, keeps the nearest hit and samples the triangle's texture with its own texel
  formulas, which as written always pick the texture's first colour (see "## Findings"). It
  scales the sample by a scalar lighting intensity built from ambient, directional and point lights, with
  diffuse and specular terms.
- The ray tracer (`RayTracer::get_ray_colour`) asks the octree for the nearest triangle. It
  interpolates texture coordinates and normals over the hit, and weights the lighting per
  colour channel by the material's Ka, Kd and Ks. Point lights are checked for shadows with
  a shadow ray.

The pieces are modelled like this:

- Geometry: the axis-aligned boxes (`AABB::new`, `from_triangle`, `intersects`) and the
  octree's `new`, `push` and `subdivide`. The octree is a class whose methods update its
  fields.
- Ray tests: the slab test `Ray::intersect_AABB` and the Möller–Trumbore test.
- Colour: colour scaling and packing into a `u32`, and the canvas's `put_pixel`, which
  writes into a pixel buffer held in an array.
- The engine's loops (nearest hit, lighting sum) and the ray tracer's lighting loop, each
  proved against a specification function.
- Texturing: texel lookup and barycentric interpolation, both as the ray tracer computes them
  and as the engine writes them.
- Parsing: the MTL and OBJ parsers, as a fold over lines and as methods with their loops.

Numbers:

- `f64` is modelled as `real`.
- `usize` is modelled as `nat` bounded by 2^64 - 1, with the saturating `as usize` cast
  written out.
- `u8` and `u32` are subset types of `nat`.
- `sqrt`, `powf` and the octree's nearest-hit queries are parameters (`Maths`,
  `OctreeQuery`).
- A Rust panic is an `Err` value (`ParseError`, `RenderError`).

## Model

| member | source | states |
|---|---|---|
| Vectors.QuotientTimesDivisor | src/scene/engine.rs:68-78 | A division by a nonzero divisor is exact (quotient times divisor gives the dividend); a zero divisor gives 0 |
| Vectors.AddSubCancel | src/scene/engine.rs:20-42 | Subtracting what was added gives back the original vector |
| Vectors.NegIsScaleByMinusOne | src/scene/engine.rs:44-66 | Negation is scaling by -1 |
| Vectors.DivIsScaleByInverse | src/scene/engine.rs:44-78 | Dividing by a nonzero k is scaling by 1/k |
| Vectors.DotSymmetric | src/scene/engine.rs:81-83 | The dot product is symmetric |
| Vectors.CrossAntiCommutative | src/scene/engine.rs:89-95 | a × b = -(b × a) |
| Vectors.CrossOrthogonal | src/scene/engine.rs:81-95 | The cross product is orthogonal to both of its operands |
| Vectors.DotLinear | src/scene/engine.rs:81-83 | The dot product is linear in its second argument (sums and scalar multiples) |
| Entities.ShiftLeftByte | src/scene/entities.rs:34 | Shifting a byte left by 8 or 16 bits loses nothing: it is multiplication by 256 or 65536 |
| Entities.Pack | src/scene/entities.rs:32-36 | A colour packs to b + 256·g + 65536·r, which stays below 2^24 |
| Entities.UnpackPack | src/scene/entities.rs:32-36 | Unpacking the packed `u32` gives back the colour (round trip) |
| Entities.PackInjective | src/scene/entities.rs:32-36 | Distinct colours pack to distinct pixels |
| Entities.SaturatingU8 | src/scene/entities.rs:24-26 | `f64 as u8` truncates a value in [0, 256), gives 0 below 0 and 255 from 256 up |
| Entities.ScaleByOne | src/scene/entities.rs:18-30 | Multiplying a colour by 1.0 leaves it unchanged |
| Entities.ScaleByZero | src/scene/entities.rs:18-30 | Multiplying a colour by 0.0 gives black |
| Entities.ScaleDarkens | src/scene/entities.rs:18-30 | A factor in [0, 1] never brightens any channel |
| Entities.ChannelDarkens | src/scene/entities.rs:24-26 | One channel times a factor in [0, 1], cast to `u8`, is at most the channel |
| Boxes.New | src/collision/AABB.rs:17-38 | The box holds exactly the points within the given bounds on each axis; it is well formed iff each lower bound is at most the upper; no geometry |
| Boxes.FromTriangle | src/collision/AABB.rs:40-65 | The triangle's box is well formed, contains all three vertices, every bound is one of the vertices' coordinates (the smallest such box), and it records the triangle |
| Boxes.IntersectsIffCommonPoint | src/collision/AABB.rs:67-78 | Two well-formed boxes intersect iff some point lies in both (touching counts) |
| Boxes.IntersectsSymmetric | src/collision/AABB.rs:67-78 | Intersection is symmetric |
| Boxes.IntersectsItself | src/collision/AABB.rs:67-78 | A well-formed box intersects itself |
| Boxes.FromTriangleMeetsBoxAroundVertex | src/collision/AABB.rs:40-78 | A triangle's box meets every box that holds one of its vertices |
| Octrees.OctantBoxes | src/collision/octree.rs:51-125 | `subdivide` builds eight octant boxes, none holding geometry |
| Octrees.OctantsSplitXAndZAtMidpoint | src/collision/octree.rs:51-125 | Every octant spans the lower or the upper half of the node on x and on z |
| Octrees.OctantsYRanges | src/collision/octree.rs:51-125 | The bottom four octants span y from y_min to y_min + half the y extent; the top four start at y_min + half the z extent, as written |
| Octrees.YHalvesMeetIffExtentsEqual | src/collision/octree.rs:51-125 | The bottom and top octants meet iff the node's y and z extents are equal |
| Octrees.OctantsLeaveGap | src/collision/octree.rs:51-125 | When the z extent exceeds the y extent, some point of the node lies in no octant |
| Octrees.Octree.constructor | src/collision/octree.rs:14-28 | A new node has the box of the given bounds, no children and no leaf geometry |
| Octrees.Octree.Child | src/collision/octree.rs:127-150 | An octant node has its box, no children and the geometry handed to it |
| Octrees.Octree.Push | src/collision/octree.rs:30-36 | A childless node gains the eight fresh octant children and keeps its leaf geometry, each child getting that geometry when it meets the octant; the new box is dropped. A node with children stores the box as its leaf geometry |
| Octrees.Octree.PushOctants | src/collision/octree.rs:127-150 | The loop over the octant boxes appends one fresh childless node per box, in order, each given the geometry iff it meets that box; the node's box and leaf geometry are unchanged |
| Octrees.Octree.Subdivide | src/collision/octree.rs:38-151 | Appends eight fresh childless octant nodes after the existing children, each given the geometry iff it meets that octant; the node's box and leaf geometry are unchanged |
| Rays.Crossing | src/collision/ray.rs:17-22 | The parameter at which the ray crosses an axis plane solves o + t·d = bound |
| Rays.IntersectAABB | src/collision/ray.rs:16-49 | No hit iff the box is behind the origin (tmax < 0) or the slabs do not overlap (tmin > tmax); otherwise the entry distance, or the exit distance when tmin < 0, always in [0, tmax] |
| Rays.BetweenCrossingsInSlab | src/collision/ray.rs:17-31 | Between an axis's two crossings the ray lies between that axis's planes |
| Rays.MulMonotone | src/collision/ray.rs:17-31 | Multiplying by a positive number keeps order (both directions) |
| Rays.BetweenEntryAndExitInBox | src/collision/ray.rs:16-49 | Any parameter between tmin and tmax reaches a point of the box |
| Rays.AxisInSlab | src/collision/ray.rs:17-31 | The per-axis step of the slab argument, for axis x, y or z |
| Rays.SlabBoundsPerAxis | src/collision/ray.rs:24-31 | tmin is at least every axis's entry and tmax at most every axis's exit |
| Rays.AABBHitIsInBox | src/collision/ray.rs:44-48 | The distance the slab test returns reaches a point inside the box |
| Rays.InsideSlabStraddlesOrigin | src/collision/ray.rs:17-31 | When the origin is strictly between an axis's planes, one crossing is behind it and one ahead |
| Rays.OriginInsideBoxHits | src/collision/ray.rs:44-48 | A ray starting strictly inside a box hits it at the exit distance, which is positive |
| Rays.MovingAwayMisses | src/collision/ray.rs:34-41 | A ray beyond the box's upper x plane moving in +x misses the box |
| Rays.IntersectTriangle | src/collision/ray.rs:51-89 | A ray within EPSILON of parallel misses; any hit has u in [0, 1], v ≥ 0, u + v ≤ 1 and t > EPSILON |
| Rays.ThirdWeightInRange | src/collision/ray.rs:70-79 | The third barycentric weight 1 - u - v of a hit is in [0, 1] |
| Rays.CramerX | src/collision/ray.rs:55-82 | Cramer's rule for the x component of O + tD = V1 + u·e1 + v·e2, multiplied through by the determinant |
| Rays.CramerY | src/collision/ray.rs:55-82 | The same for the y component |
| Rays.CramerZ | src/collision/ray.rs:55-82 | The same for the z component |
| Rays.Solve | src/collision/ray.rs:66-82 | Dividing one component of Cramer's identity by the nonzero determinant |
| Rays.CramerSolves | src/collision/ray.rs:55-82 | With a nonzero determinant, the t, u and v of Cramer's rule solve s + tD = u·e1 + v·e2 |
| Rays.HitLiesOnTriangle | src/collision/ray.rs:51-89 | The point the ray reaches at a hit's t is V1 + u(V2 - V1) + v(V3 - V1): the hit is on the triangle's plane at the returned barycentric coordinates |
| Text.WordEnd | src/file_management/utils.rs:45-46 | The first word ends at the first whitespace character, or at the end of the line |
| Text.Words | src/file_management/utils.rs:45-46 | `split_whitespace` yields only non-empty tokens without whitespace |
| Text.WordEndOfWord | src/file_management/utils.rs:45-46 | A word followed by whitespace or the end ends where it ends |
| Text.WordsUnwords | src/file_management/utils.rs:45-46 | Splitting words joined by single spaces gives the words back (round trip) |
| Text.IndexOf | src/file_management/utils.rs:221 | The first position of a character that occurs in a string |
| Text.IndexOfAfter | src/file_management/utils.rs:221 | The first occurrence after a prefix without the character is at the prefix's length |
| Text.SplitOn | src/file_management/utils.rs:221 | `split("/")` yields at least one piece and no piece holds the separator |
| Text.JoinSplitOn | src/file_management/utils.rs:221 | Joining the pieces with the separator rebuilds the string (round trip) |
| Text.SplitOnJoin | src/file_management/utils.rs:221 | Splitting a join of separator-free pieces gives the pieces back (round trip) |
| Text.Lines | src/file_management/utils.rs:156 | `lines()` yields lines without line feeds |
| Text.LinesUnlines | src/file_management/utils.rs:156 | Splitting lines joined by line feeds gives the lines back (round trip) |
| Text.ParseUsize | src/file_management/utils.rs:227-232 | `usize` parsing never yields more than 2^64 - 1 and rejects the empty string |
| Text.DigitChar | src/file_management/utils.rs:227-232 | The digit character of a value below 10 has that value |
| Text.ShowNat | src/file_management/utils.rs:227-232 | The decimal form of a number is a non-empty string of digits |
| Text.DigitsValueShowNat | src/file_management/utils.rs:227-232 | The value of a number's decimal form is that number |
| Text.ParseShowNat | src/file_management/utils.rs:227-232 | Parsing the decimal form of a `usize` gives it back (round trip) |
| Tokens.Expect | src/file_management/utils.rs:213-214 | `expect` passes a value through and turns its absence into the panic |
| Tokens.ParseNext | src/file_management/utils.rs:199-210 | No token gives None; a token that does not parse is a panic; otherwise its value |
| Tokens.GetVertex | src/file_management/utils.rs:212-218 | A vertex parses iff at least two tokens exist and every token it reads parses; x and y are the first two, z the third or 0.0 |
| Tokens.GetVertexTooShort | src/file_management/utils.rs:213-214 | Fewer than two coordinates is "Cannot parse vertex" |
| Tokens.GetVertexDefaultsZ | src/file_management/utils.rs:215 | A two-coordinate vertex has z = 0 |
| Tokens.ColorCoefficient | src/file_management/utils.rs:354-363 | A colour coefficient is accepted iff it parses as a vertex with every component in [0, 1], and is that vertex; one out of range is a panic |
| MtlParser.LoadTexture | src/file_management/utils.rs:72-99 | A cached name is served from the cache with nothing loaded; otherwise the file is loaded (failing iff it cannot be read), appended to the textures and cached |
| MtlParser.ParseMtlFileLines | src/file_management/utils.rs:22-121 | The method's loop computes the fold of one-line steps over the lines followed by `END` |
| MtlParser.BoundaryCommits | src/file_management/utils.rs:49-70 | At `newmtl` or `END` a named material with a texture is inserted (and only it changes) with its defaults filled in, and the name becomes the line's argument |
| MtlParser.AssembleDefaults | src/file_management/utils.rs:51-62 | Absent Ka, Kd and Ks are the zero vector and absent Ns is 240 |
| MtlParser.BoundaryWithoutTextureFails | src/file_management/utils.rs:60 | Committing a named material without `map_Ka` is the `unwrap` panic |
| MtlParser.BoundaryCarriesOver | src/file_management/utils.rs:69-70 | A boundary resets only the name: colour weights, Ns, texture and bump map carry over to the next material |
| MtlParser.OnlyBoundariesCommit | src/file_management/utils.rs:72-118 | Lines other than boundaries change neither the committed materials nor the name |
| MtlParser.CoefficientOutOfRangeFails | src/file_management/utils.rs:100-111 | A Ka, Kd or Ks line that parses but leaves [0, 1] is a panic |
| MtlParser.NoBoundaryNoCommit | src/file_management/utils.rs:44-70 | Without boundaries no name is set and nothing is committed |
| MtlParser.NoNewmtlAddsNoMaterial | src/file_management/utils.rs:43-44 | A file without `newmtl` adds no material, even with the appended `END` |
| MtlParser.MtlFromSplit | src/file_management/utils.rs:44 | Folding over two runs of lines is folding over the first, then the second |
| MtlParser.LoadTextureCaches | src/file_management/utils.rs:72-99 | Loading caches the file name and appends a texture iff the name was not cached yet; earlier textures are kept |
| MtlParser.TextureLineLoads | src/file_management/utils.rs:72-99 | A `map_Ka` or `bump` line that parses has a file name and leaves the cache and the material map as loading that file does |
| MtlParser.MtlLineCaches | src/file_management/utils.rs:72-99 | A line adds its texture name to the cache and appends a texture iff that name was new; earlier textures are kept |
| MtlParser.NonTextureLineKeepsCache | src/file_management/utils.rs:100-118 | Lines other than `map_Ka` and `bump` leave the cache and the textures alone |
| MtlParser.MtlFromStep | src/file_management/utils.rs:44-120 | A run of lines that parses starts with a line that parses, and the rest continues from its state |
| MtlParser.MtlFromCacheKeys | src/file_management/utils.rs:44-120 | Over many lines the cache holds exactly the names it held plus the texture names seen |
| MtlParser.MtlFromTextureCount | src/file_management/utils.rs:44-120 | Over many lines one texture is appended per newly cached name, after the textures already there |
| MtlParser.EachTextureLoadedOnce | src/file_management/utils.rs:22-121 | A parsed MTL file appends exactly one texture per distinct texture file name, after the existing ones |
| MtlParser.EndSentinel | src/file_management/utils.rs:43-44 | The appended `END` line is a boundary that names no texture |
| MtlParser.TextureNamesAppend | src/file_management/utils.rs:72-99 | The texture names of two runs of lines are the union of each run's names |
| ObjParser.GetVertexAttributes | src/file_management/utils.rs:220-235 | A face token parses iff its first `/`-piece and, when present, its second and third are `usize`s; the indices are those pieces' values, present exactly when the pieces are |
| ObjParser.NoSlashInNumber | src/file_management/utils.rs:221 | A decimal number holds no `/` |
| ObjParser.AttributesIndexOnly | src/file_management/utils.rs:220-235 | `i` gives the vertex index alone |
| ObjParser.AttributesWithTexture | src/file_management/utils.rs:220-235 | `i/t` gives a vertex and a texture-coordinate index |
| ObjParser.JoinThree | src/file_management/utils.rs:221 | Three pieces joined with `/` |
| ObjParser.AttributesFull | src/file_management/utils.rs:220-235 | `i/t/n` gives all three indices |
| ObjParser.SplitEmptyMiddle | src/file_management/utils.rs:221 | Splitting `a//c` at `/` gives `a`, an empty piece and `c` when neither holds a `/` |
| ObjParser.AttributesEmptyTextureFails | src/file_management/utils.rs:230 | `i//n` is a parse panic because the empty piece is not a `usize` |
| ObjParser.VertexAt | src/file_management/utils.rs:256-267 | 1-based vertex lookup: 0 underflows, an index past the pool is "No vertex with this index", otherwise the vertex |
| ObjParser.AttributeAt | src/file_management/utils.rs:269-313 | A texture or normal index of 0 underflows; otherwise the coordinate, or zero when absent or past the pool |
| ObjParser.LastVertexIndex | src/file_management/utils.rs:172-175 | The vertex just appended to a pool of n is index n + 1, and earlier indices are unchanged |
| ObjParser.EmptyScene | src/file_management/utils.rs:124-145 | The initial scene has no triangles, has pushed nothing into the octree, and the octree's box is well formed |
| ObjParser.FaceAttributes | src/file_management/utils.rs:242-254 | A face needs three tokens (the missing one is "No data for vertex k") whose attributes all parse, and yields those attributes in order |
| ObjParser.ResolveTriangle | src/file_management/utils.rs:256-326 | Resolution succeeds exactly when the three vertex indices lie in 1..number of vertices and no texture or normal index is 0; the first bad vertex index, in the order v1, v2, v3, decides the error (0 underflows, past the pool is "No vertex with this index"), and a 0 texture or normal index after three good vertices underflows; a resolved triangle has the three indexed vertices, texture and normal coordinates (zero when absent or past their pools), and the material |
| ObjParser.GetTriangle | src/file_management/utils.rs:237-327 | A face with fewer than three tokens fails; once its three tokens parse, it succeeds exactly when their indices resolve, the first missing vertex among v1, v2, v3 is "No vertex with this index", and the triangle carries those vertices, coordinates and the material |
| ObjParser.MissingVertexFails | src/file_management/utils.rs:256-259 | A face whose first vertex does not exist yet is "No vertex with this index" |
| ObjParser.ParseObjFileLines | src/file_management/utils.rs:123-197 | The method's loop computes the fold of one-line steps over the lines, starting from the empty scene |
| ObjParser.FaceLineParses | src/file_management/utils.rs:176-182 | An `f` line with a current material and three tokens whose indices resolve parses, and appends the triangle those tokens describe |
| ObjParser.FaceLineAddsOneTriangle | src/file_management/utils.rs:176-182 | An `f` line needs a current material, appends exactly one triangle to the scene and the same one to the octree, and changes nothing else |
| ObjParser.VertexLinesAppend | src/file_management/utils.rs:172-190 | `v`, `vt` and `vn` lines append their vertex to their own pool only |
| ObjParser.OtherLinesChangeNothing | src/file_management/utils.rs:191-192 | Blank lines and unknown keywords change nothing |
| ObjParser.FaceBeforeUseMtlFails | src/file_management/utils.rs:177 | A face before any `usemtl` is the `unwrap` panic |
| ObjParser.UseMtlLooksUpMaterial | src/file_management/utils.rs:160-171 | `usemtl` with a known name makes it the current material; an unknown name is a panic |
| ObjParser.ObjFromStep | src/file_management/utils.rs:147-194 | A run of lines that parses starts with a line that parses, and the rest continues from its state |
| ObjParser.ObjLineCounts | src/file_management/utils.rs:147-194 | One line adds a triangle iff it is an `f` line and a pool entry iff it is a `v`, `vt` or `vn` line, and keeps the octree's triangles those of the scene |
| ObjParser.ObjFromCounts | src/file_management/utils.rs:147-194 | Over any run of lines: one triangle per `f` line, one pool entry per `v`, `vt` or `vn` line, and the octree receives exactly the triangles kept |
| ObjParser.ParsedSceneCounts | src/file_management/utils.rs:123-197 | A parsed file's octree, over [-20, 20]^3, holds exactly its triangles in order, one per `f` line, with one pool entry per `v`, `vt` and `vn` line |
| Texturing.SaturatingUsize | src/scene/raytracer.rs:46-47 | `f64 as usize` truncates within range, gives 0 below 0 and saturates at 2^64 - 1 |
| Texturing.InterpolateAtVertex1 | src/scene/raytracer.rs:37-44 | The interpolation at (0, 0) is vertex 1's attribute |
| Texturing.InterpolateAtVertex2 | src/scene/raytracer.rs:37-44 | The interpolation at (1, 0) is vertex 2's attribute |
| Texturing.InterpolateAtVertex3 | src/scene/raytracer.rs:37-44 | The interpolation at (0, 1) is vertex 3's attribute |
| Texturing.InterpolateReproducesVertices | src/scene/raytracer.rs:37-44 | Each vertex gets its own attribute back |
| Texturing.BarycentricForm | src/scene/raytracer.rs:37-44 | V1 + u(V2 - V1) + v(V3 - V1) equals the weighted interpolation |
| Texturing.HitIsInterpolationOfVertices | src/scene/raytracer.rs:37-44 | The Möller–Trumbore hit point is the interpolation of the vertices with these weights, so the weights carry over to texture coordinates and normals |
| Texturing.EngineInterpolateAtVertex2 | src/scene/engine.rs:247-254 | The engine's weights give vertex 1's attribute at vertex 2's coordinates |
| Texturing.EngineInterpolateRotatesVertices | src/scene/engine.rs:247-254 | When two attributes differ, the engine's interpolation disagrees with the hit's interpolation |
| Texturing.TexelCoord | src/scene/raytracer.rs:46-47 | A zero size is the remainder-by-zero panic (iff); otherwise the texel coordinate is below the size |
| Texturing.FractionOfPositive | src/scene/raytracer.rs:46-47 | A fraction in [0, 1) of a positive size is in [0, size) |
| Texturing.ScaledCoord | src/scene/raytracer.rs:46-47 | A coordinate in [0, 1) scaled by the size is in [0, size) |
| Texturing.SmallModIsItself | src/scene/raytracer.rs:46-47 | A number below the modulus is its own remainder |
| Texturing.FloorBelowSize | src/scene/raytracer.rs:46-47 | The truncation of a value in [0, size) is below the size |
| Texturing.TexelCoordLocatesCell | src/scene/raytracer.rs:46-47 | A coordinate in [0, 1) selects the texel k with k ≤ coord·size < k + 1 |
| Texturing.ProductBelowFactor | src/scene/engine.rs:256-257 | An integer multiple of b strictly between -b and b is zero |
| Texturing.MultipleModIsZero | src/scene/engine.rs:256-257 | A multiple of the size leaves remainder 0 |
| Texturing.EngineTexelCoordIsZero | src/scene/engine.rs:256-257 | The engine's texel coordinate is always 0 |
| Texturing.EngineTexelCoordMissesCell | src/scene/engine.rs:256-257 | At 0.5 on a texture two wide the engine picks texel 0 where the cell is texel 1 |
| Texturing.TexelIndexBelowSize | src/scene/raytracer.rs:49 | A row-major index of in-range coordinates is below width·height |
| Texturing.TexelIndex | src/scene/raytracer.rs:46-49 | A zero-sized texture is the remainder-by-zero panic (iff); otherwise the index is below width·height |
| Texturing.SampleTexture | src/scene/raytracer.rs:46-49 | A zero-sized texture panics; a texture with a colour for every cell can always be sampled; a sample is one of the texture's colours |
| Texturing.EngineSampleTexture | src/scene/engine.rs:256-259 | The engine's lookup as written succeeds exactly when both truncated coordinates times their dimension fit a `usize`, both dimensions are nonzero and the texture has a colour; it then returns the first colour whatever the coordinates; an overflowing x product panics, and a zero width is a remainder by zero |
| Engine.PixelIndex | src/scene/engine.rs:146-156 | A pixel is drawn iff its coordinates shifted to the centre are on the canvas, and its index is then below width·height |
| Engine.PixelIndexInjective | src/scene/engine.rs:146-156 | Distinct on-canvas coordinates write distinct buffer cells |
| Engine.PixelIndexCoversCanvas | src/scene/engine.rs:146-156 | Every buffer cell is written by some coordinate pair |
| Engine.Canvas.constructor | src/scene/engine.rs:131-142 | The buffer is fresh, has width·height cells and is all zero |
| Engine.Canvas.PutPixel | src/scene/engine.rs:146-156 | Off-canvas coordinates leave the buffer unchanged; on-canvas ones write the colour to exactly that pixel's cell |
| Engine.ClosestIsUnique | src/scene/engine.rs:224-236 | At most one triangle is the closest hit |
| Engine.ClosestHit | src/scene/engine.rs:224-236 | No result iff no triangle is hit; otherwise the first triangle with the strictly smallest t |
| Engine.ReflectKeepsAngleWithNormal | src/scene/engine.rs:389 | The reflected light direction makes the same angle with a unit normal as the light |
| Engine.EngineDiffuse | src/scene/engine.rs:367-379 | No diffuse light at or behind the surface; otherwise intensity·cos(angle between normal and light) |
| Engine.EngineDiffuseNonNegative | src/scene/engine.rs:367-379 | With a non-negative intensity the diffuse term is never negative |
| Engine.EngineSpecularFor | src/scene/engine.rs:389-398 | For a reflected direction r: no specular light for s = -1 or when r faces away from the viewer |
| Engine.EngineSpecular | src/scene/engine.rs:381-399 | No specular light for s = -1 or a reflection facing away from the viewer |
| Engine.EngineLightingAppend | src/scene/engine.rs:324-365 | The lighting of two groups of lights is the sum of their lightings |
| Engine.EngineAmbientAddsIntensity | src/scene/engine.rs:335-337 | An ambient light adds its intensity wherever it stands among the lights |
| Engine.ComputeLightingIntensity | src/scene/engine.rs:324-365 | The loop computes the sum of every light's contribution |
| Engine.EngineShade | src/scene/engine.rs:238-267 | An unknown texture index is a panic (iff); otherwise shading succeeds exactly when the engine's lookup at its interpolated coordinates succeeds, and the colour is the texture's first colour scaled by the lighting at the hit point under the face normal |
| Engine.TraceRayForTriangles | src/scene/engine.rs:223-271 | No hit gives white; otherwise the nearest triangle's shade, computed with the engine's own interpolation and texel lookup |
| Raytracer.ShadowRay | src/scene/raytracer.rs:72-80 | The shadow ray's direction is target - origin and it reaches origin at -0.0001 and target at 1 - 0.0001 |
| Raytracer.TriangleExistsBetweenPoints | src/scene/raytracer.rs:72-91 | True iff the octree finds no triangle on the shadow ray within the distance from origin to target |
| Raytracer.Diffuse | src/scene/raytracer.rs:161-178 | No diffuse light at or behind the surface |
| Raytracer.SpecularFor | src/scene/raytracer.rs:189-204 | For a reflected direction r: no specular light for s = -1 or when r faces away from the viewer |
| Raytracer.Specular | src/scene/raytracer.rs:180-205 | No specular light for s = -1 or a reflection facing away from the viewer |
| Raytracer.QuotientOfProduct | src/scene/raytracer.rs:177 | A constant factor comes out of a quotient |
| Raytracer.WeightedQuotient | src/scene/raytracer.rs:177 | Dividing Kd·intensity·(n·l) by the lengths is Kd weighting the scalar quotient |
| Raytracer.DiffuseIsWeightedEngineDiffuse | src/scene/raytracer.rs:161-178 | The ray tracer's diffuse term is the engine's, weighted channel by channel by Kd |
| Raytracer.ScaleTwice | src/scene/raytracer.rs:194-196 | Scaling by two factors in turn is scaling by their product |
| Raytracer.SpecularForIsWeighted | src/scene/raytracer.rs:180-205 | Whatever the reflected direction, the ray tracer's specular term is the engine's weighted channel by channel by Ks |
| Raytracer.SpecularIsWeightedEngineSpecular | src/scene/raytracer.rs:180-205 | The ray tracer's specular term is the engine's, weighted channel by channel by Ks |
| Raytracer.BlockedPointLightStopsLighting | src/scene/raytracer.rs:134-138 | Once a point light is shadowed, no later light of any kind contributes |
| Raytracer.AmbientAddsCoefficient | src/scene/raytracer.rs:109-111 | An ambient light adds Ka times its intensity to the running total |
| Raytracer.ComputeLightingIntensity | src/scene/raytracer.rs:94-159 | The loop, with its early exit, computes the lighting specification |
| Raytracer.ShadeByGreyIsScale | src/scene/raytracer.rs:62-66 | Shading by an equal intensity on every channel is the colour scaled by it |
| Raytracer.GetRayColour | src/scene/raytracer.rs:27-70 | A miss is white; a hit on a zero-sized texture panics; a hit on a texture with a colour for every cell gives a colour |
| Raytracer.UnlitSceneIsBlackOnWhite | src/scene/raytracer.rs:27-70 | Without lights a hit is black and a miss white |

## Left out

- Floating point: `f64` is a real number. Rounding, NaN and the infinities are not modelled.
- Division by zero (`f64::INFINITY`/NaN in the source) is modelled by `Quotient` as 0.
- `sqrt` and `powf` are uninterpreted functions passed in as `Maths`.
- Rays.IntersectAABB: requires every direction component to be nonzero, because the source's division by a zero component produces IEEE infinities, which are not modelled.
- `Ray::intersect_with_octant` and `intersect_with_octant_with_max_t` are not part of this model. The ray tracer takes them as the `OctreeQuery` parameter.
- `Canvas::update`, the window, `Scene::new`, `draw_scene`, the viewport mapping and `src/main.rs` are left out: they are drawing and I/O.
- `Arc`, `RefCell` and the lifetimes are left out. The model copies values where the source shares them.
- The octree's `push_triangle` is not part of this model. The parsed scene records the triangles pushed, in order.
- `fs::read_to_string` and the image decoder are parameters (`Io`). `str::parse::<f64>` is the parameter `parseReal`.
- Texture file decoding (`get_texture_from_file_name`) is left out. A texture is its width, height and colours.
- The parser leaves the triangle's colour, texture index and specular exponent at black, 0 and 0.0. The source's engine triangle type has these fields, but the parser does not set them.
- Rust's `usize` arithmetic is modelled for 64-bit targets, with debug-build overflow checks (`index - 1` of 0 panics).
- `Sphere` holds no logic and is only a datatype.
- The engine's `Scene::intersect_ray_with_triangle` (src/scene/engine.rs:276-321) duplicates `Ray::intersect_ray_with_triangle` and is modelled by `Rays.IntersectTriangle`.
- Engine.Canvas.PutPixel: requires the shifted coordinates and the canvas size to fit in `i32`, because the source's `x + width as i32 / 2` overflows (or wraps, in release builds) otherwise.
- Engine.EngineSpecular: states when the term is zero but not its value, which goes through the uninterpreted `powf`.
- Raytracer.GetRayColour: states the panic and success conditions and the colour of a miss; the shaded colour of a hit is given by its body and by UnlitSceneIsBlackOnWhite.
- Octrees.Octree.Push: the source's `push` takes `self` by value, so its changes are dropped with it; the model keeps them on the node.

## Findings

| source | as written | input that shows it | evidently intended | confidence | as-written member | corrected member |
|---|---|---|---|---|---|---|
| src/scene/engine.rs:256-257 | `((tex_x as usize * tex.width) as usize) % tex.width` truncates the coordinate before scaling it, so the index is a multiple of the width reduced modulo the width: always 0 | `tex_x` = 0.5, `tex.width` = 2: the engine picks texel 0, the cell holding 0.5 is texel 1 | scale, then truncate: `((tex_x * tex.width as f64) as usize) % tex.width`, as src/scene/raytracer.rs:46-47 does | high, not executed | Texturing.EngineTexelCoordMissesCell | Texturing.TexelCoordLocatesCell |
| src/scene/engine.rs:247-254 | the texture coordinates put weight u on vertex 1, v on vertex 2 and 1 - u - v on vertex 3 | a hit at u = 1, v = 0 (vertex 2) with distinct texture coordinates at vertices 1 and 2: the engine uses vertex 1's | weight 1 - u - v on vertex 1, u on vertex 2, v on vertex 3, the weights of the Möller–Trumbore hit, as src/scene/raytracer.rs:37-44 does | medium, not executed | Texturing.EngineInterpolateRotatesVertices | Texturing.HitIsInterpolationOfVertices |

The engine's members (`Engine.EngineShade`, `Engine.TraceRayForTriangles`) keep both
discrepancies, because they model the engine as written. The ray tracer's members use the
corrected lookup and interpolation, as src/scene/raytracer.rs does.
