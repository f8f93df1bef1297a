/** `parse_mtl_file_lines`: reads an MTL file line by line into a material map. The
    per-material values are accumulated in locals and a material is committed at the next
    `newmtl`, at an `END` line, or at the `END` the parser appends after the last line. Texture
    files are loaded through a cache, so each file name is loaded once per MTL file. */
module MtlParser {
  import opened Wrappers
  import opened Vectors
  import opened Entities
  import opened Text
  import opened Tokens

  /** `Ns` of a material whose MTL entry has none. */
  const DEFAULT_SPECULAR_WEIGHT: real := 240.0

  /** The locals of `parse_mtl_file_lines`: the material map it writes to, the texture cache
      `name_texture_map`, and the accumulators of the material being read. */
  datatype MtlState = MtlState(
    materialMap: MaterialMap,
    cache: map<string, Texture>,
    name: Option<string>,
    ka: Option<Vector3d>,
    kd: Option<Vector3d>,
    ks: Option<Vector3d>,
    ns: Option<real>,
    texture: Option<Texture>,
    bump: Option<Texture>)

  /** The locals before the first line: an empty cache and no accumulated values. */
  function Start(mm: MaterialMap): MtlState {
    MtlState(mm, map[], None, None, None, None, None, None, None)
  }

  /** A line that ends the material being read. */
  predicate IsBoundary(kind: string) {
    kind == "newmtl" || kind == "END"
  }

  /** The material the accumulators describe: absent colour weights are the zero vector and an
      absent `Ns` is 240. */
  function Assemble(name: string, st: MtlState, texture: Texture): Material {
    Material(name, st.ka.GetOr(Zero), st.kd.GetOr(Zero), st.ks.GetOr(Zero),
             st.ns.GetOr(DEFAULT_SPECULAR_WEIGHT), texture, st.bump)
  }

  /** The commit at a boundary: nothing without a name; otherwise the material is inserted
      (replacing one of the same name), and it needs a texture. */
  function Commit(st: MtlState): Result<MtlState, ParseError> {
    if st.name.None? then Ok(st)
    else if st.texture.None? then Err(MissingTexture)
    else
      var materials := st.materialMap.materials[st.name.value := Assemble(st.name.value, st, st.texture.value)];
      Ok(st.(materialMap := st.materialMap.(materials := materials)))
  }

  /** A cached file name is served from the cache without loading; any other name is loaded,
      appended to the material map's textures and cached. */
  function LoadTexture(st: MtlState, fileName: string, io: Io): (r: Result<(MtlState, Texture), ParseError>)
    ensures fileName in st.cache ==> r == Ok((st, st.cache[fileName]))
    ensures fileName !in st.cache ==> (r.Ok? <==> io.loadTexture(fileName).Some?)
    ensures fileName !in st.cache && r.Ok? ==>
      && r.value.1 == io.loadTexture(fileName).value
      && r.value.0 == st.(materialMap := st.materialMap.(textures := st.materialMap.textures + [r.value.1]),
                          cache := st.cache[fileName := r.value.1])
  {
    if fileName in st.cache then Ok((st, st.cache[fileName]))
    else
      var tex :- Expect(io.loadTexture(fileName), TextureUnreadable);
      var mm := st.materialMap.(textures := st.materialMap.textures + [tex]);
      Ok((st.(materialMap := mm, cache := st.cache[fileName := tex]), tex))
  }

  /** The token after the keyword, if any. */
  function Argument(words: seq<string>): Option<string> {
    if |words| >= 2 then Some(words[1]) else None
  }

  /** One iteration of the loop of `parse_mtl_file_lines`: dispatch on the first token. */
  function MtlLine(st: MtlState, line: string, io: Io): Result<MtlState, ParseError> {
    var words := Words(line);
    if words == [] then Ok(st)
    else
      var kind := words[0];
      if IsBoundary(kind) then
        var committed :- Commit(st);
        Ok(committed.(name := Argument(words)))
      else if kind == "map_Ka" || kind == "bump" then
        var fileName :- Expect(Argument(words), ExpectedTextureName);
        var loaded :- LoadTexture(st, fileName, io);
        if kind == "map_Ka" then Ok(loaded.0.(texture := Some(loaded.1)))
        else Ok(loaded.0.(bump := Some(loaded.1)))
      else if kind == "Ka" then
        var cc :- ColorCoefficient(words[1..], io.parseReal);
        Ok(st.(ka := Some(cc)))
      else if kind == "Kd" then
        var cc :- ColorCoefficient(words[1..], io.parseReal);
        Ok(st.(kd := Some(cc)))
      else if kind == "Ks" then
        var cc :- ColorCoefficient(words[1..], io.parseReal);
        Ok(st.(ks := Some(cc)))
      else if kind == "Ns" then
        var sw :- ParseNext(words[1..], io.parseReal);
        var sw :- Expect(sw, ExpectedNs);
        Ok(st.(ns := Some(sw)))
      else Ok(st)
  }

  /** The loop over `lines`, stopping at the first panic. */
  function MtlFrom(st: MtlState, lines: seq<string>, io: Io): Result<MtlState, ParseError>
    decreases |lines|
  {
    if lines == [] then Ok(st)
    else
      var next :- MtlLine(st, lines[0], io);
      MtlFrom(next, lines[1..], io)
  }

  /** `parse_mtl_file_lines` as a function: the lines followed by the `END` sentinel, folded
      over the material map. */
  function ParseMtl(mm: MaterialMap, lines: seq<string>, io: Io): Result<MaterialMap, ParseError> {
    var st :- MtlFrom(Start(mm), lines + ["END"], io);
    Ok(st.materialMap)
  }

  /** `parse_mtl_file_lines`, with its locals and its loop. */
  method ParseMtlFileLines(mm: MaterialMap, lines: seq<string>, io: Io) returns (r: Result<MaterialMap, ParseError>)
    ensures r == ParseMtl(mm, lines, io)
  {
    var all := lines + ["END"];
    var materialMap := mm;
    var cache: map<string, Texture> := map[];
    var name: Option<string> := None;
    var ka: Option<Vector3d> := None;
    var kd: Option<Vector3d> := None;
    var ks: Option<Vector3d> := None;
    var ns: Option<real> := None;
    var texture: Option<Texture> := None;
    var bump: Option<Texture> := None;
    var i := 0;
    while i < |all|
      invariant 0 <= i <= |all|
      invariant MtlFrom(MtlState(materialMap, cache, name, ka, kd, ks, ns, texture, bump), all[i..], io)
             == MtlFrom(Start(mm), all, io)
    {
      ghost var st := MtlState(materialMap, cache, name, ka, kd, ks, ns, texture, bump);
      ghost var expected := MtlLine(st, all[i], io);
      assert MtlFrom(st, all[i..], io) == if expected.Err? then Err(expected.error) else MtlFrom(expected.value, all[i + 1..], io) by {
        assert all[i..][0] == all[i] && all[i..][1..] == all[i + 1..];
      }
      var words := Words(all[i]);
      if words != [] {
        var kind := words[0];
        if IsBoundary(kind) {
          if name.Some? {
            if texture.None? {
              return Err(MissingTexture);
            }
            var material := Material(name.value, ka.GetOr(Zero), kd.GetOr(Zero), ks.GetOr(Zero),
                                     ns.GetOr(DEFAULT_SPECULAR_WEIGHT), texture.value, bump);
            materialMap := materialMap.(materials := materialMap.materials[name.value := material]);
          }
          name := Argument(words);
        } else if kind == "map_Ka" || kind == "bump" {
          if |words| < 2 {
            return Err(ExpectedTextureName);
          }
          var fileName := words[1];
          var tex: Texture;
          if fileName in cache {
            tex := cache[fileName];
          } else {
            var loaded := io.loadTexture(fileName);
            if loaded.None? {
              return Err(TextureUnreadable);
            }
            tex := loaded.value;
            materialMap := materialMap.(textures := materialMap.textures + [tex]);
            cache := cache[fileName := tex];
          }
          if kind == "map_Ka" {
            texture := Some(tex);
          } else {
            bump := Some(tex);
          }
        } else if kind == "Ka" || kind == "Kd" || kind == "Ks" {
          var cc := ColorCoefficient(words[1..], io.parseReal);
          if cc.Err? {
            return Err(cc.error);
          }
          if kind == "Ka" {
            ka := Some(cc.value);
          } else if kind == "Kd" {
            kd := Some(cc.value);
          } else {
            ks := Some(cc.value);
          }
        } else if kind == "Ns" {
          var sw := ParseNext(words[1..], io.parseReal);
          if sw.Err? {
            return Err(sw.error);
          }
          if sw.value.None? {
            return Err(ExpectedNs);
          }
          ns := Some(sw.value.value);
        }
      }
      assert expected == Ok(MtlState(materialMap, cache, name, ka, kd, ks, ns, texture, bump));
      i := i + 1;
    }
    assert all[i..] == [];
    r := Ok(materialMap);
  }

  // ---------------------------------------------------------------------------------------
  // Committing materials

  function Kind(line: string): Option<string> {
    var words := Words(line);
    if words == [] then None else Some(words[0])
  }

  /** At a boundary the material being read is committed, with its defaults filled in, and
      the name becomes the boundary's argument. */
  lemma BoundaryCommits(st: MtlState, line: string, io: Io)
    requires Kind(line).Some? && IsBoundary(Kind(line).value)
    requires st.name.Some? && st.texture.Some?
    ensures MtlLine(st, line, io).Ok?
    ensures var m := MtlLine(st, line, io).value.materialMap.materials;
      && m.Keys == st.materialMap.materials.Keys + {st.name.value}
      && m[st.name.value] == Assemble(st.name.value, st, st.texture.value)
      && forall n :: n in m && n != st.name.value ==> m[n] == st.materialMap.materials[n]
    ensures MtlLine(st, line, io).value.name == Argument(Words(line))
  {
  }

  /** The defaults of a committed material: zero colour weights and `Ns` 240 when the entry
      gave none. */
  lemma AssembleDefaults(name: string, st: MtlState, texture: Texture)
    requires st.ka.None? && st.kd.None? && st.ks.None? && st.ns.None?
    ensures var m := Assemble(name, st, texture);
      && m.ambientColorCoefficient == Zero && m.diffuseColorCoefficient == Zero
      && m.specularColorCoefficient == Zero && m.specularWeight == 240.0
      && m.name == name && m.texture == texture
  {
  }

  /** A named material without any `map_Ka` so far is the `unwrap` panic at its boundary. */
  lemma BoundaryWithoutTextureFails(st: MtlState, line: string, io: Io)
    requires Kind(line).Some? && IsBoundary(Kind(line).value)
    requires st.name.Some? && st.texture.None?
    ensures MtlLine(st, line, io) == Err(MissingTexture)
  {
  }

  /** Only the name is reassigned at a boundary: the colour weights, `Ns`, the texture and the
      bump map carry over to the next material. */
  lemma BoundaryCarriesOver(st: MtlState, line: string, io: Io)
    requires Kind(line).Some? && IsBoundary(Kind(line).value)
    requires MtlLine(st, line, io).Ok?
    ensures var next := MtlLine(st, line, io).value;
      && next.ka == st.ka && next.kd == st.kd && next.ks == st.ks && next.ns == st.ns
      && next.texture == st.texture && next.bump == st.bump && next.cache == st.cache
  {
  }

  /** Any line other than a boundary leaves the committed materials and the name alone. */
  lemma OnlyBoundariesCommit(st: MtlState, line: string, io: Io)
    requires Kind(line).None? || !IsBoundary(Kind(line).value)
    requires MtlLine(st, line, io).Ok?
    ensures MtlLine(st, line, io).value.materialMap.materials == st.materialMap.materials
    ensures MtlLine(st, line, io).value.name == st.name
  {
  }

  /** A Ka, Kd or Ks line whose vertex parses but leaves [0, 1] is a panic. */
  lemma CoefficientOutOfRangeFails(st: MtlState, line: string, io: Io)
    requires Kind(line) in {Some("Ka"), Some("Kd"), Some("Ks")}
    requires var v := GetVertex(Words(line)[1..], io.parseReal); v.Ok? && !InUnitRange(v.value)
    ensures MtlLine(st, line, io) == Err(CoefficientOutOfRange)
  {
  }

  function CountBoundaries(lines: seq<string>): nat {
    if lines == [] then 0
    else (if Kind(lines[0]).Some? && IsBoundary(Kind(lines[0]).value) then 1 else 0) + CountBoundaries(lines[1..])
  }

  /** Without a boundary the name stays absent, so nothing is committed. */
  lemma {:induction false} NoBoundaryNoCommit(st: MtlState, lines: seq<string>, io: Io)
    requires st.name.None? && CountBoundaries(lines) == 0
    requires MtlFrom(st, lines, io).Ok?
    ensures MtlFrom(st, lines, io).value.name.None?
    ensures MtlFrom(st, lines, io).value.materialMap.materials == st.materialMap.materials
    decreases |lines|
  {
    if lines != [] {
      OnlyBoundariesCommit(st, lines[0], io);
      NoBoundaryNoCommit(MtlLine(st, lines[0], io).value, lines[1..], io);
    }
  }

  /** An MTL file without any `newmtl` (or `END`) line adds no material: the appended `END`
      finds no name to commit. */
  lemma NoNewmtlAddsNoMaterial(mm: MaterialMap, lines: seq<string>, io: Io)
    requires CountBoundaries(lines) == 0
    requires ParseMtl(mm, lines, io).Ok?
    ensures ParseMtl(mm, lines, io).value.materials == mm.materials
  {
    var all := lines + ["END"];
    assert all[..|lines|] == lines && all[|lines|..] == ["END"];
    EndSentinel();
    MtlFromSplit(Start(mm), lines, ["END"], io);
    NoBoundaryNoCommit(Start(mm), lines, io);
  }

  /** Folding over two pieces is folding over the first, then the second. */
  lemma {:induction false} MtlFromSplit(st: MtlState, a: seq<string>, b: seq<string>, io: Io)
    ensures MtlFrom(st, a + b, io) ==
      if MtlFrom(st, a, io).Err? then MtlFrom(st, a, io) else MtlFrom(MtlFrom(st, a, io).value, b, io)
    decreases |a|
  {
    if a == [] {
      assert a + b == b;
    } else {
      assert (a + b)[0] == a[0] && (a + b)[1..] == a[1..] + b;
      var next := MtlLine(st, a[0], io);
      if next.Ok? {
        MtlFromSplit(next.value, a[1..], b, io);
      }
    }
  }

  // ---------------------------------------------------------------------------------------
  // The texture cache

  /** The texture file named on a `map_Ka` or `bump` line, if any. */
  function TextureName(line: string): set<string> {
    var words := Words(line);
    if |words| >= 2 && (words[0] == "map_Ka" || words[0] == "bump") then {words[1]} else {}
  }

  function TextureNames(lines: seq<string>): set<string> {
    if lines == [] then {} else TextureName(lines[0]) + TextureNames(lines[1..])
  }

  /** Loading a texture caches its file name, and appends a texture exactly when that name
      was not cached yet; earlier textures are kept. */
  lemma LoadTextureCaches(st: MtlState, fileName: string, io: Io)
    requires LoadTexture(st, fileName, io).Ok?
    ensures var next := LoadTexture(st, fileName, io).value.0;
      && next.cache.Keys == st.cache.Keys + {fileName}
      && |next.materialMap.textures| - |st.materialMap.textures| == |next.cache| - |st.cache|
      && st.materialMap.textures <= next.materialMap.textures
  {
    if fileName !in st.cache {
      var tex := LoadTexture(st, fileName, io).value.1;
      assert |st.cache[fileName := tex]| == |st.cache| + 1;
    }
  }

  /** A `map_Ka` or `bump` line that parses has a file name and leaves the cache and the
      material map as loading that file does. */
  lemma TextureLineLoads(st: MtlState, line: string, io: Io)
    requires Kind(line) == Some("map_Ka") || Kind(line) == Some("bump")
    requires MtlLine(st, line, io).Ok?
    ensures |Words(line)| >= 2 && LoadTexture(st, Words(line)[1], io).Ok?
    ensures var next, loaded := MtlLine(st, line, io).value, LoadTexture(st, Words(line)[1], io).value.0;
      next.cache == loaded.cache && next.materialMap == loaded.materialMap
  {
  }

  /** One line caches its texture file name, and appends a texture exactly when that name was
      not cached yet; earlier textures are kept. */
  lemma MtlLineCaches(st: MtlState, line: string, io: Io)
    requires MtlLine(st, line, io).Ok?
    ensures var next := MtlLine(st, line, io).value;
      && next.cache.Keys == st.cache.Keys + TextureName(line)
      && |next.materialMap.textures| - |st.materialMap.textures| == |next.cache| - |st.cache|
      && st.materialMap.textures <= next.materialMap.textures
  {
    if Kind(line) == Some("map_Ka") || Kind(line) == Some("bump") {
      TextureLineLoads(st, line, io);
      LoadTextureCaches(st, Words(line)[1], io);
    } else {
      NonTextureLineKeepsCache(st, line, io);
    }
  }

  lemma NonTextureLineKeepsCache(st: MtlState, line: string, io: Io)
    requires Kind(line).None? || (Kind(line).value != "map_Ka" && Kind(line).value != "bump")
    requires MtlLine(st, line, io).Ok?
    ensures MtlLine(st, line, io).value.cache == st.cache
    ensures MtlLine(st, line, io).value.materialMap.textures == st.materialMap.textures
    ensures TextureName(line) == {}
  {
  }

  /** One step of the fold: a run of lines that parses starts with a line that parses. */
  lemma MtlFromStep(st: MtlState, lines: seq<string>, io: Io)
    requires lines != [] && MtlFrom(st, lines, io).Ok?
    ensures MtlLine(st, lines[0], io).Ok?
    ensures MtlFrom(st, lines, io) == MtlFrom(MtlLine(st, lines[0], io).value, lines[1..], io)
  {
  }

  /** Over many lines, the cached names are exactly the texture file names seen. */
  lemma {:induction false} MtlFromCacheKeys(st: MtlState, lines: seq<string>, io: Io)
    requires MtlFrom(st, lines, io).Ok?
    ensures MtlFrom(st, lines, io).value.cache.Keys == st.cache.Keys + TextureNames(lines)
    decreases |lines|
  {
    if lines != [] {
      MtlFromStep(st, lines, io);
      var next := MtlLine(st, lines[0], io).value;
      MtlLineCaches(st, lines[0], io);
      MtlFromCacheKeys(next, lines[1..], io);
    }
  }

  /** Over many lines, the textures appended are as many as the cached names added, after
      the textures already there. */
  lemma {:induction false} MtlFromTextureCount(st: MtlState, lines: seq<string>, io: Io)
    requires MtlFrom(st, lines, io).Ok?
    ensures var last := MtlFrom(st, lines, io).value;
      && |last.materialMap.textures| - |st.materialMap.textures| == |last.cache| - |st.cache|
      && st.materialMap.textures <= last.materialMap.textures
    decreases |lines|
  {
    if lines != [] {
      MtlFromStep(st, lines, io);
      var next := MtlLine(st, lines[0], io).value;
      MtlLineCaches(st, lines[0], io);
      MtlFromTextureCount(next, lines[1..], io);
    }
  }

  /** Each distinct texture file name of an MTL file is loaded and appended once: the textures
      added are as many as the distinct names, after the textures already there. */
  lemma EachTextureLoadedOnce(mm: MaterialMap, lines: seq<string>, io: Io)
    requires ParseMtl(mm, lines, io).Ok?
    ensures mm.textures <= ParseMtl(mm, lines, io).value.textures
    ensures |ParseMtl(mm, lines, io).value.textures| == |mm.textures| + |TextureNames(lines)|
  {
    var all := lines + ["END"];
    var last := MtlFrom(Start(mm), all, io).value;
    assert ParseMtl(mm, lines, io).value == last.materialMap;
    MtlFromCacheKeys(Start(mm), all, io);
    MtlFromTextureCount(Start(mm), all, io);
    EndSentinel();
    TextureNamesAppend(lines, ["END"]);
    assert last.cache.Keys == TextureNames(lines);
  }

  /** The appended `END` line: a boundary that names no texture. */
  lemma EndSentinel()
    ensures Words("END") == ["END"]
    ensures Kind("END") == Some("END")
    ensures TextureNames(["END"]) == {}
  {
    WordsUnwords(["END"]);
  }

  lemma {:induction false} TextureNamesAppend(a: seq<string>, b: seq<string>)
    ensures TextureNames(a + b) == TextureNames(a) + TextureNames(b)
  {
    if a == [] {
      assert a + b == b;
    } else {
      assert (a + b)[0] == a[0] && (a + b)[1..] == a[1..] + b;
      TextureNamesAppend(a[1..], b);
    }
  }
}
