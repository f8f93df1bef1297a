/** `parse_obj_file_lines`: reads a Wavefront OBJ file line by line into the scene data:
    vertex, texture-coordinate and normal pools, triangles built from `f` lines with the
    current material, and the materials of the MTL files it names. */
module ObjParser {
  import opened Wrappers
  import opened Vectors
  import opened Entities
  import opened Boxes
  import opened Text
  import opened Tokens
  import opened MtlParser

  // ---------------------------------------------------------------------------------------
  // Face tokens

  /** The three indices of one face token `i`, `i/t` or `i/t/n`. */
  datatype VertexAttributes = VertexAttributes(index: nat, texCoordIndex: Option<nat>, normalCoordIndex: Option<nat>)

  /** `get_vertex_attributes`: the token is split at `/`; the first piece is the vertex index,
      the second and third, when present, the texture and normal indices. Every piece read
      must be a `usize` (the empty piece of `i//n` is not); pieces after the third are
      ignored. */
  function GetVertexAttributes(token: string): (r: Result<VertexAttributes, ParseError>)
    ensures var pieces := SplitOn(token, '/');
      r.Ok? <==>
        && ParseUsize(pieces[0]).Some?
        && (|pieces| >= 2 ==> ParseUsize(pieces[1]).Some?)
        && (|pieces| >= 3 ==> ParseUsize(pieces[2]).Some?)
    ensures var pieces := SplitOn(token, '/');
      r.Ok? ==>
        && r.value.index == ParseUsize(pieces[0]).value
        && (r.value.texCoordIndex.Some? <==> |pieces| >= 2)
        && (r.value.normalCoordIndex.Some? <==> |pieces| >= 3)
        && (|pieces| >= 2 ==> r.value.texCoordIndex.value == ParseUsize(pieces[1]).value)
        && (|pieces| >= 3 ==> r.value.normalCoordIndex.value == ParseUsize(pieces[2]).value)
  {
    var pieces := SplitOn(token, '/');
    // The first piece holds no '/', so splitting it once more yields just that piece.
    var index :- Expect(ParseUsize(pieces[0]), CouldNotParseValue);
    var tex :- ParseNext(pieces[1..], ParseUsize);
    var normal :- ParseNext(Drop(pieces, 2), ParseUsize);
    Ok(VertexAttributes(index, tex, normal))
  }

  /** Decimal numbers hold no `/`. */
  lemma NoSlashInNumber(n: nat)
    ensures '/' !in ShowNat(n)
  {
    var s := ShowNat(n);
    assert forall k :: 0 <= k < |s| ==> s[k] != '/' by {
      forall k | 0 <= k < |s| ensures s[k] != '/' {
        assert IsDigit(s[k]);
      }
    }
  }

  /** `i` names a vertex only. */
  lemma AttributesIndexOnly(i: nat)
    requires i <= USIZE_MAX
    ensures GetVertexAttributes(ShowNat(i)) == Ok(VertexAttributes(i, None, None))
  {
    ParseShowNat(i);
    NoSlashInNumber(i);
  }

  /** `i/t` names a vertex and a texture coordinate. */
  lemma AttributesWithTexture(i: nat, t: nat)
    requires i <= USIZE_MAX && t <= USIZE_MAX
    ensures GetVertexAttributes(ShowNat(i) + "/" + ShowNat(t)) == Ok(VertexAttributes(i, Some(t), None))
  {
    ParseShowNat(i);
    ParseShowNat(t);
    NoSlashInNumber(i);
    NoSlashInNumber(t);
    SplitOnJoin([ShowNat(i), ShowNat(t)], '/');
    assert Join([ShowNat(t)], '/') == ShowNat(t);
  }

  /** Three pieces joined with `/`. */
  lemma {:induction false} JoinThree(a: string, b: string, c: string)
    ensures Join([a, b, c], '/') == a + "/" + b + "/" + c
  {
    assert [a, b, c][1..] == [b, c];
    assert [b, c][1..] == [c];
    assert Join([b, c], '/') == b + "/" + c;
  }

  /** `i/t/n` names a vertex, a texture coordinate and a normal. */
  lemma AttributesFull(i: nat, t: nat, n: nat)
    requires i <= USIZE_MAX && t <= USIZE_MAX && n <= USIZE_MAX
    ensures GetVertexAttributes(ShowNat(i) + "/" + ShowNat(t) + "/" + ShowNat(n))
         == Ok(VertexAttributes(i, Some(t), Some(n)))
  {
    var a, b, c := ShowNat(i), ShowNat(t), ShowNat(n);
    NoSlashInNumber(i);
    NoSlashInNumber(t);
    NoSlashInNumber(n);
    JoinThree(a, b, c);
    SplitOnJoin([a, b, c], '/');
    var pieces := SplitOn(a + "/" + b + "/" + c, '/');
    assert pieces == [a, b, c];
    ParseShowNat(i);
    ParseShowNat(t);
    ParseShowNat(n);
    assert ParseUsize(pieces[0]) == Some(i) && ParseUsize(pieces[1]) == Some(t) && ParseUsize(pieces[2]) == Some(n);
  }

  /** Splitting `a//c` at `/` gives `a`, an empty piece and `c` when neither holds a `/`. */
  lemma SplitEmptyMiddle(a: string, c: string)
    requires '/' !in a && '/' !in c
    ensures SplitOn(a + "//" + c, '/') == [a, "", c]
  {
    JoinThree(a, "", c);
    assert a + "/" + "" + "/" + c == a + "//" + c;
    SplitOnJoin([a, "", c], '/');
  }

  /** `i//n` is a panic: the empty middle piece is not a `usize`. */
  lemma AttributesEmptyTextureFails(i: nat, n: nat)
    requires i <= USIZE_MAX && n <= USIZE_MAX
    ensures GetVertexAttributes(ShowNat(i) + "//" + ShowNat(n)) == Err(CouldNotParseValue)
  {
    ParseShowNat(i);
    NoSlashInNumber(i);
    NoSlashInNumber(n);
    SplitEmptyMiddle(ShowNat(i), ShowNat(n));
  }

  // ---------------------------------------------------------------------------------------
  // Resolving indices

  /** `pool.get(index - 1).expect(..)`: indices are 1-based; 0 makes `index - 1` overflow and
      an index past the pool is "No vertex with this index". */
  function VertexAt(pool: seq<Vector3d>, index: nat): (r: Result<Vector3d, ParseError>)
    ensures index == 0 ==> r == Err(IndexUnderflow)
    ensures 1 <= index <= |pool| ==> r == Ok(pool[index - 1])
    ensures index > |pool| ==> r == Err(MissingVertex)
  {
    if index == 0 then Err(IndexUnderflow)
    else if index - 1 < |pool| then Ok(pool[index - 1])
    else Err(MissingVertex)
  }

  /** The texture or normal coordinate an optional 1-based index names: the zero vector when
      the index is absent or past the pool. */
  function CoordsOrZero(pool: seq<Vector3d>, index: Option<nat>): Vector3d {
    if index.Some? && 1 <= index.value <= |pool| then pool[index.value - 1] else Zero
  }

  /** `pool.get(index - 1).unwrap_or_else(|| DEFAULT_VERTICES)` under `if let Some(index)`:
      the zero vector when the index is absent or out of range; 0 still overflows. */
  function AttributeAt(pool: seq<Vector3d>, index: Option<nat>): (r: Result<Vector3d, ParseError>)
    ensures index == Some(0) ==> r == Err(IndexUnderflow)
    ensures index != Some(0) ==> r == Ok(CoordsOrZero(pool, index))
  {
    if index.None? then Ok(Zero)
    else if index.value == 0 then Err(IndexUnderflow)
    else if index.value - 1 < |pool| then Ok(pool[index.value - 1])
    else Ok(Zero)
  }

  /** The vertex just appended to a pool of `n` vertices is addressed by the index `n + 1`. */
  lemma {:induction false} LastVertexIndex(pool: seq<Vector3d>, v: Vector3d)
    ensures VertexAt(pool + [v], |pool| + 1) == Ok(v)
    ensures forall k :: 1 <= k <= |pool| ==> VertexAt(pool + [v], k) == VertexAt(pool, k)
  {
    assert (pool + [v])[|pool|] == v;
  }

  // ---------------------------------------------------------------------------------------
  // The scene

  /** The octree of the scene data: its bounds and, in order, every triangle handed to it. */
  datatype SceneOctree = SceneOctree(boundingBox: AABB, pushed: seq<Triangle>)

  datatype SceneData = SceneData(
    vertices: seq<Vector3d>,
    triangles: seq<Triangle>,
    vertexTextureCoords: seq<Vector3d>,
    vertexNormalCoords: seq<Vector3d>,
    materialMap: MaterialMap,
    octree: SceneOctree)

  /** The scene data before the first line: empty pools, no materials, and an octree over the
      cube from -20 to 20 on every axis. */
  function EmptyScene(): (s: SceneData)
    ensures s.octree.pushed == s.triangles == []
    ensures WellFormed(s.octree.boundingBox)
  {
    SceneData([], [], [], [], MaterialMap([], map[]),
              SceneOctree(New(-20.0, 20.0, -20.0, 20.0, -20.0, 20.0), []))
  }

  /** The token `k` (0-based) of a face line's arguments, if there is one. */
  function Token(words: seq<string>, k: nat): Option<string> {
    if k < |words| then Some(words[k]) else None
  }

  /** The attributes of a face's first three tokens, read in order. */
  function FaceAttributes(words: seq<string>): (r: Result<(VertexAttributes, VertexAttributes, VertexAttributes), ParseError>)
    ensures |words| < 3 ==> r == Err(NoDataForVertex(|words| + 1))
    ensures r.Ok? <==>
      |words| >= 3 && GetVertexAttributes(words[0]).Ok? && GetVertexAttributes(words[1]).Ok? && GetVertexAttributes(words[2]).Ok?
    ensures r.Ok? ==>
      && r.value.0 == GetVertexAttributes(words[0]).value
      && r.value.1 == GetVertexAttributes(words[1]).value
      && r.value.2 == GetVertexAttributes(words[2]).value
  {
    var s1 :- Expect(Token(words, 0), NoDataForVertex(1));
    var s2 :- Expect(Token(words, 1), NoDataForVertex(2));
    var s3 :- Expect(Token(words, 2), NoDataForVertex(3));
    var a1 :- GetVertexAttributes(s1);
    var a2 :- GetVertexAttributes(s2);
    var a3 :- GetVertexAttributes(s3);
    Ok((a1, a2, a3))
  }

  /** A 1-based index that names one of the `n` entries of a pool. */
  predicate IndexesPool(index: nat, n: nat) {
    1 <= index <= n
  }

  /** Neither optional index of an attribute triple is 0, the one value that makes
      `index - 1` underflow. */
  predicate OptionalIndicesNonZero(a: VertexAttributes) {
    a.texCoordIndex != Some(0) && a.normalCoordIndex != Some(0)
  }

  /** Three attribute triples a scene can resolve: every vertex exists and no optional
      index is 0 (texture and normal indices past their pools are allowed). */
  predicate Resolvable(a1: VertexAttributes, a2: VertexAttributes, a3: VertexAttributes, scene: SceneData) {
    && IndexesPool(a1.index, |scene.vertices|)
    && IndexesPool(a2.index, |scene.vertices|)
    && IndexesPool(a3.index, |scene.vertices|)
    && OptionalIndicesNonZero(a1) && OptionalIndicesNonZero(a2) && OptionalIndicesNonZero(a3)
  }

  /** The triangle three attribute triples describe: the vertices must exist, while texture
      coordinates and normals fall back to the zero vector. The vertices are looked up first,
      in order, so the first bad vertex index decides the error. */
  function ResolveTriangle(a1: VertexAttributes, a2: VertexAttributes, a3: VertexAttributes,
                           scene: SceneData, material: Material): (r: Result<Triangle, ParseError>)
    ensures r.Ok? <==> Resolvable(a1, a2, a3, scene)
    ensures r.Ok? ==>
      && r.value.v1 == scene.vertices[a1.index - 1]
      && r.value.v2 == scene.vertices[a2.index - 1]
      && r.value.v3 == scene.vertices[a3.index - 1]
      && r.value.v1TexCoords == CoordsOrZero(scene.vertexTextureCoords, a1.texCoordIndex)
      && r.value.v2TexCoords == CoordsOrZero(scene.vertexTextureCoords, a2.texCoordIndex)
      && r.value.v3TexCoords == CoordsOrZero(scene.vertexTextureCoords, a3.texCoordIndex)
      && r.value.v1NormalCoords == CoordsOrZero(scene.vertexNormalCoords, a1.normalCoordIndex)
      && r.value.v2NormalCoords == CoordsOrZero(scene.vertexNormalCoords, a2.normalCoordIndex)
      && r.value.v3NormalCoords == CoordsOrZero(scene.vertexNormalCoords, a3.normalCoordIndex)
      && r.value.material == material
    ensures a1.index == 0 ==> r == Err(IndexUnderflow)
    ensures a1.index > |scene.vertices| ==> r == Err(MissingVertex)
    ensures IndexesPool(a1.index, |scene.vertices|) ==>
      && (a2.index == 0 ==> r == Err(IndexUnderflow))
      && (a2.index > |scene.vertices| ==> r == Err(MissingVertex))
    ensures IndexesPool(a1.index, |scene.vertices|) && IndexesPool(a2.index, |scene.vertices|) ==>
      && (a3.index == 0 ==> r == Err(IndexUnderflow))
      && (a3.index > |scene.vertices| ==> r == Err(MissingVertex))
    ensures (r.Err? && IndexesPool(a1.index, |scene.vertices|) && IndexesPool(a2.index, |scene.vertices|)
             && IndexesPool(a3.index, |scene.vertices|)) ==> r == Err(IndexUnderflow)
  {
    var v1 :- VertexAt(scene.vertices, a1.index);
    var v2 :- VertexAt(scene.vertices, a2.index);
    var v3 :- VertexAt(scene.vertices, a3.index);
    var t1 :- AttributeAt(scene.vertexTextureCoords, a1.texCoordIndex);
    var t2 :- AttributeAt(scene.vertexTextureCoords, a2.texCoordIndex);
    var t3 :- AttributeAt(scene.vertexTextureCoords, a3.texCoordIndex);
    var n1 :- AttributeAt(scene.vertexNormalCoords, a1.normalCoordIndex);
    var n2 :- AttributeAt(scene.vertexNormalCoords, a2.normalCoordIndex);
    var n3 :- AttributeAt(scene.vertexNormalCoords, a3.normalCoordIndex);
    Ok(Triangle(v1, v2, v3, t1, t2, t3, n1, n2, n3, material, BLACK, 0, 0.0))
  }

  /** `get_triangle`: three vertex tokens, their attributes, then the three vertices (which must
      exist), the three texture coordinates and the three normals (zero when absent or out of
      range). Tokens after the third are ignored. The colour, texture index and specular
      exponent, which the parser does not set, are black, 0 and 0.0. */
  function GetTriangle(words: seq<string>, scene: SceneData, material: Material): (r: Result<Triangle, ParseError>)
    ensures |words| < 3 ==> r == Err(NoDataForVertex(|words| + 1))
    ensures r.Ok? ==> FaceAttributes(words).Ok?
    ensures FaceAttributes(words).Ok? ==>
      var (a1, a2, a3) := FaceAttributes(words).value;
      && (r.Ok? <==> Resolvable(a1, a2, a3, scene))
      && (a1.index > |scene.vertices| ==> r == Err(MissingVertex))
      && (IndexesPool(a1.index, |scene.vertices|) && a2.index > |scene.vertices| ==> r == Err(MissingVertex))
      && ((IndexesPool(a1.index, |scene.vertices|) && IndexesPool(a2.index, |scene.vertices|)
             && a3.index > |scene.vertices|) ==> r == Err(MissingVertex))
    ensures r.Ok? ==>
      var (a1, a2, a3) := FaceAttributes(words).value;
      && r.value.v1 == scene.vertices[a1.index - 1]
      && r.value.v2 == scene.vertices[a2.index - 1]
      && r.value.v3 == scene.vertices[a3.index - 1]
      && r.value.v1TexCoords == CoordsOrZero(scene.vertexTextureCoords, a1.texCoordIndex)
      && r.value.v2TexCoords == CoordsOrZero(scene.vertexTextureCoords, a2.texCoordIndex)
      && r.value.v3TexCoords == CoordsOrZero(scene.vertexTextureCoords, a3.texCoordIndex)
      && r.value.v1NormalCoords == CoordsOrZero(scene.vertexNormalCoords, a1.normalCoordIndex)
      && r.value.v2NormalCoords == CoordsOrZero(scene.vertexNormalCoords, a2.normalCoordIndex)
      && r.value.v3NormalCoords == CoordsOrZero(scene.vertexNormalCoords, a3.normalCoordIndex)
      && r.value.material == material
  {
    var attributes := FaceAttributes(words);
    if attributes.Err? then Err(attributes.error)
    else ResolveTriangle(attributes.value.0, attributes.value.1, attributes.value.2, scene, material)
  }

  /** A face whose first vertex does not exist yet is "No vertex with this index". */
  lemma MissingVertexFails(words: seq<string>, scene: SceneData, material: Material)
    requires |words| >= 3
    requires GetVertexAttributes(words[0]).Ok? && GetVertexAttributes(words[1]).Ok? && GetVertexAttributes(words[2]).Ok?
    requires GetVertexAttributes(words[0]).value.index > |scene.vertices|
    ensures GetTriangle(words, scene, material) == Err(MissingVertex)
  {
    var attributes := FaceAttributes(words).value;
    assert attributes.0.index > |scene.vertices|;
  }

  // ---------------------------------------------------------------------------------------
  // The line loop

  /** The locals of `parse_obj_file_lines`: the scene data and the current material. */
  datatype ObjState = ObjState(scene: SceneData, currentMaterial: Option<Material>)

  /** One iteration of the loop of `parse_obj_file_lines`: dispatch on the first token. */
  function ObjLine(st: ObjState, line: string, io: Io): Result<ObjState, ParseError> {
    var words := Words(line);
    var scene := st.scene;
    if words == [] then Ok(st)
    else
      var kind := words[0];
      if kind == "mtllib" then
        var fileName :- Expect(Argument(words), InvalidMtlFileName);
        var text :- Expect(io.readFile(fileName), CouldNotReadFile);
        var mm :- ParseMtl(scene.materialMap, Lines(text), io);
        Ok(st.(scene := scene.(materialMap := mm)))
      else if kind == "usemtl" then
        var materialName :- Expect(Argument(words), InvalidMaterialName);
        if materialName !in scene.materialMap.materials then Err(MaterialNotFound)
        else Ok(st.(currentMaterial := Some(scene.materialMap.materials[materialName])))
      else if kind == "v" then
        var v :- GetVertex(words[1..], io.parseReal);
        Ok(st.(scene := scene.(vertices := scene.vertices + [v])))
      else if kind == "f" then
        var material :- Expect(st.currentMaterial, NoCurrentMaterial);
        var tri :- GetTriangle(words[1..], scene, material);
        Ok(st.(scene := scene.(octree := scene.octree.(pushed := scene.octree.pushed + [tri]),
                               triangles := scene.triangles + [tri])))
      else if kind == "vt" then
        var vt :- GetVertex(words[1..], io.parseReal);
        Ok(st.(scene := scene.(vertexTextureCoords := scene.vertexTextureCoords + [vt])))
      else if kind == "vn" then
        var vn :- GetVertex(words[1..], io.parseReal);
        Ok(st.(scene := scene.(vertexNormalCoords := scene.vertexNormalCoords + [vn])))
      else Ok(st)
  }

  /** The loop over `lines`, stopping at the first panic. */
  function ObjFrom(st: ObjState, lines: seq<string>, io: Io): Result<ObjState, ParseError>
    decreases |lines|
  {
    if lines == [] then Ok(st)
    else
      var next :- ObjLine(st, lines[0], io);
      ObjFrom(next, lines[1..], io)
  }

  /** `parse_obj_file_lines` as a function. */
  function ParseObj(lines: seq<string>, io: Io): Result<SceneData, ParseError> {
    var st :- ObjFrom(ObjState(EmptyScene(), None), lines, io);
    Ok(st.scene)
  }

  /** `parse_obj_file_lines`, with its locals and its loop; an `mtllib` line runs the MTL
      parser on the lines of the file it names. */
  method ParseObjFileLines(lines: seq<string>, io: Io) returns (r: Result<SceneData, ParseError>)
    ensures r == ParseObj(lines, io)
  {
    var sceneData := EmptyScene();
    var currentMaterial: Option<Material> := None;
    var i := 0;
    while i < |lines|
      invariant 0 <= i <= |lines|
      invariant ObjFrom(ObjState(sceneData, currentMaterial), lines[i..], io)
             == ObjFrom(ObjState(EmptyScene(), None), lines, io)
    {
      ghost var st := ObjState(sceneData, currentMaterial);
      ghost var expected := ObjLine(st, lines[i], io);
      assert ObjFrom(st, lines[i..], io) == if expected.Err? then Err(expected.error) else ObjFrom(expected.value, lines[i + 1..], io) by {
        assert lines[i..][0] == lines[i] && lines[i..][1..] == lines[i + 1..];
      }
      var words := Words(lines[i]);
      if words != [] {
        var kind := words[0];
        if kind == "mtllib" {
          if |words| < 2 {
            return Err(InvalidMtlFileName);
          }
          var text := io.readFile(words[1]);
          if text.None? {
            return Err(CouldNotReadFile);
          }
          var mm := ParseMtlFileLines(sceneData.materialMap, Lines(text.value), io);
          if mm.Err? {
            return Err(mm.error);
          }
          sceneData := sceneData.(materialMap := mm.value);
        } else if kind == "usemtl" {
          if |words| < 2 {
            return Err(InvalidMaterialName);
          }
          if words[1] !in sceneData.materialMap.materials {
            return Err(MaterialNotFound);
          }
          currentMaterial := Some(sceneData.materialMap.materials[words[1]]);
        } else if kind == "v" || kind == "vt" || kind == "vn" {
          var v := GetVertex(words[1..], io.parseReal);
          if v.Err? {
            return Err(v.error);
          }
          if kind == "v" {
            sceneData := sceneData.(vertices := sceneData.vertices + [v.value]);
          } else if kind == "vt" {
            sceneData := sceneData.(vertexTextureCoords := sceneData.vertexTextureCoords + [v.value]);
          } else {
            sceneData := sceneData.(vertexNormalCoords := sceneData.vertexNormalCoords + [v.value]);
          }
        } else if kind == "f" {
          if currentMaterial.None? {
            return Err(NoCurrentMaterial);
          }
          var tri := GetTriangle(words[1..], sceneData, currentMaterial.value);
          if tri.Err? {
            return Err(tri.error);
          }
          sceneData := sceneData.(octree := sceneData.octree.(pushed := sceneData.octree.pushed + [tri.value]));
          sceneData := sceneData.(triangles := sceneData.triangles + [tri.value]);
        }
      }
      assert expected == Ok(ObjState(sceneData, currentMaterial));
      i := i + 1;
    }
    assert lines[i..] == [];
    r := Ok(sceneData);
  }

  // ---------------------------------------------------------------------------------------
  // Properties of single lines

  /** An `f` line appends exactly one triangle to the scene's triangles and hands the same
      triangle to the octree; nothing else changes. */
  lemma FaceLineAddsOneTriangle(st: ObjState, line: string, io: Io)
    requires Kind(line) == Some("f") && ObjLine(st, line, io).Ok?
    ensures st.currentMaterial.Some?
    ensures var next := ObjLine(st, line, io).value.scene;
      var tri := GetTriangle(Words(line)[1..], st.scene, st.currentMaterial.value).value;
      && next.triangles == st.scene.triangles + [tri]
      && next.octree.pushed == st.scene.octree.pushed + [tri]
      && next.octree.boundingBox == st.scene.octree.boundingBox
      && next.vertices == st.scene.vertices
      && next.vertexTextureCoords == st.scene.vertexTextureCoords
      && next.vertexNormalCoords == st.scene.vertexNormalCoords
      && next.materialMap == st.scene.materialMap
  {
  }

  /** An `f` line parses whenever a material is current and the face's three tokens name
      vertices that exist: the scene then gains the triangle those tokens describe. */
  lemma FaceLineParses(st: ObjState, line: string, io: Io)
    requires Kind(line) == Some("f") && st.currentMaterial.Some?
    requires FaceAttributes(Words(line)[1..]).Ok?
    requires var (a1, a2, a3) := FaceAttributes(Words(line)[1..]).value; Resolvable(a1, a2, a3, st.scene)
    ensures ObjLine(st, line, io).Ok?
    ensures ObjLine(st, line, io).value.scene.triangles
         == st.scene.triangles + [GetTriangle(Words(line)[1..], st.scene, st.currentMaterial.value).value]
  {
  }

  /** `v`, `vt` and `vn` lines append the vertex they describe to their own pool. */
  lemma VertexLinesAppend(st: ObjState, line: string, io: Io)
    requires Kind(line) in {Some("v"), Some("vt"), Some("vn")} && ObjLine(st, line, io).Ok?
    ensures GetVertex(Words(line)[1..], io.parseReal).Ok?
    ensures var v, next := GetVertex(Words(line)[1..], io.parseReal).value, ObjLine(st, line, io).value;
      && next.currentMaterial == st.currentMaterial
      && next.scene.triangles == st.scene.triangles
      && next.scene.vertices == st.scene.vertices + (if Kind(line) == Some("v") then [v] else [])
      && next.scene.vertexTextureCoords == st.scene.vertexTextureCoords + (if Kind(line) == Some("vt") then [v] else [])
      && next.scene.vertexNormalCoords == st.scene.vertexNormalCoords + (if Kind(line) == Some("vn") then [v] else [])
  {
  }

  /** The six keywords the OBJ loop acts on. */
  predicate IsObjKeyword(kind: string) {
    kind in {"mtllib", "usemtl", "v", "f", "vt", "vn"}
  }

  /** Blank lines, comments and any other keyword change nothing. */
  lemma OtherLinesChangeNothing(st: ObjState, line: string, io: Io)
    requires Kind(line).None? || !IsObjKeyword(Kind(line).value)
    ensures ObjLine(st, line, io) == Ok(st)
  {
  }

  /** A face before any `usemtl` is the `unwrap` panic on the current material. */
  lemma FaceBeforeUseMtlFails(st: ObjState, line: string, io: Io)
    requires Kind(line) == Some("f") && st.currentMaterial.None?
    ensures ObjLine(st, line, io) == Err(NoCurrentMaterial)
  {
  }

  /** `usemtl` naming a material that no MTL file defined is a panic; a known name becomes
      the current material. */
  lemma UseMtlLooksUpMaterial(st: ObjState, line: string, io: Io)
    requires Kind(line) == Some("usemtl") && |Words(line)| >= 2
    ensures var name := Words(line)[1];
      ObjLine(st, line, io) ==
        if name in st.scene.materialMap.materials
        then Ok(st.(currentMaterial := Some(st.scene.materialMap.materials[name])))
        else Err(MaterialNotFound)
  {
  }

  // ---------------------------------------------------------------------------------------
  // Properties of whole files

  /** The number of lines whose first token is `kind`. */
  function CountKind(lines: seq<string>, kind: string): nat {
    if lines == [] then 0
    else (if Kind(lines[0]) == Some(kind) then 1 else 0) + CountKind(lines[1..], kind)
  }

  /** A run of lines that parses starts with a line that parses, and the rest of the run
      continues from its state. */
  lemma ObjFromStep(st: ObjState, lines: seq<string>, io: Io)
    requires lines != [] && ObjFrom(st, lines, io).Ok?
    ensures ObjLine(st, lines[0], io).Ok?
    ensures ObjFrom(st, lines, io) == ObjFrom(ObjLine(st, lines[0], io).value, lines[1..], io)
  {
  }

  /** One line adds a triangle when it is an `f` line and a vertex to a pool when it is a
      `v`, `vt` or `vn` line, and keeps the octree's triangles those of the scene. */
  lemma ObjLineCounts(st: ObjState, line: string, io: Io)
    requires st.scene.octree.pushed == st.scene.triangles
    requires ObjLine(st, line, io).Ok?
    ensures var next := ObjLine(st, line, io).value.scene;
      && next.octree.pushed == next.triangles
      && next.octree.boundingBox == st.scene.octree.boundingBox
      && |next.triangles| == |st.scene.triangles| + (if Kind(line) == Some("f") then 1 else 0)
      && |next.vertices| == |st.scene.vertices| + (if Kind(line) == Some("v") then 1 else 0)
      && |next.vertexTextureCoords| == |st.scene.vertexTextureCoords| + (if Kind(line) == Some("vt") then 1 else 0)
      && |next.vertexNormalCoords| == |st.scene.vertexNormalCoords| + (if Kind(line) == Some("vn") then 1 else 0)
  {
    if Kind(line) == Some("f") {
      FaceLineAddsOneTriangle(st, line, io);
    } else if Kind(line) in {Some("v"), Some("vt"), Some("vn")} {
      VertexLinesAppend(st, line, io);
    } else if Kind(line).None? || !IsObjKeyword(Kind(line).value) {
      OtherLinesChangeNothing(st, line, io);
    }
  }

  /** Over any run of lines: one triangle per `f` line, one vertex per `v`, `vt` or `vn`
      line in its pool, and the octree receives exactly the triangles the scene keeps. */
  lemma {:induction false} ObjFromCounts(st: ObjState, lines: seq<string>, io: Io)
    requires st.scene.octree.pushed == st.scene.triangles
    requires ObjFrom(st, lines, io).Ok?
    ensures var last := ObjFrom(st, lines, io).value.scene;
      && last.octree.pushed == last.triangles
      && last.octree.boundingBox == st.scene.octree.boundingBox
      && |last.triangles| == |st.scene.triangles| + CountKind(lines, "f")
      && |last.vertices| == |st.scene.vertices| + CountKind(lines, "v")
      && |last.vertexTextureCoords| == |st.scene.vertexTextureCoords| + CountKind(lines, "vt")
      && |last.vertexNormalCoords| == |st.scene.vertexNormalCoords| + CountKind(lines, "vn")
    decreases |lines|
  {
    if lines != [] {
      ObjFromStep(st, lines, io);
      var next := ObjLine(st, lines[0], io).value;
      ObjLineCounts(st, lines[0], io);
      ObjFromCounts(next, lines[1..], io);
    }
  }

  /** A parsed OBJ file has one triangle per `f` line, all of them pushed into the octree in
      the same order, and one pool entry per `v`, `vt` and `vn` line. */
  lemma ParsedSceneCounts(lines: seq<string>, io: Io)
    requires ParseObj(lines, io).Ok?
    ensures var scene := ParseObj(lines, io).value;
      && scene.octree.pushed == scene.triangles
      && scene.octree.boundingBox == New(-20.0, 20.0, -20.0, 20.0, -20.0, 20.0)
      && |scene.triangles| == CountKind(lines, "f")
      && |scene.vertices| == CountKind(lines, "v")
      && |scene.vertexTextureCoords| == CountKind(lines, "vt")
      && |scene.vertexNormalCoords| == CountKind(lines, "vn")
  {
    ObjFromCounts(ObjState(EmptyScene(), None), lines, io);
  }
}
