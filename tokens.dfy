/** What the OBJ and MTL parsers share: the panics they can raise, the outside services they
    call (float parsing, file reading, image decoding), and the token-level readers
    `parse_next_value_from_split`, `get_vertex` and `get_color_coefficient_from_split_lines`. */
module Tokens {
  import opened Wrappers
  import opened Vectors
  import opened Entities
  import opened Text

  /** One constructor per panic the parser can raise. */
  datatype ParseError =
    | CouldNotParseValue      // a token is present but does not parse
    | CannotParseVertex       // a vertex lacks its x or y token
    | NoDataForVertex(k: nat) // a face lacks its k-th vertex token
    | IndexUnderflow          // a face index of 0: `index - 1` overflows
    | MissingVertex           // a face names a vertex that does not exist yet
    | ExpectedTextureName     // `map_Ka` or `bump` without a file name
    | TextureUnreadable       // the texture file cannot be opened or decoded
    | ExpectedNs              // `Ns` without a value
    | CoefficientOutOfRange   // a Ka, Kd or Ks component outside [0, 1]
    | MissingTexture          // a material is committed before any `map_Ka`
    | InvalidMtlFileName      // `mtllib` without a file name
    | CouldNotReadFile        // the `mtllib` file cannot be read
    | InvalidMaterialName     // `usemtl` without a name
    | MaterialNotFound        // `usemtl` names a material no MTL file defined
    | NoCurrentMaterial       // a face before any `usemtl`

  /** The services the parser calls but this model does not implement: `str::parse::<f64>`,
      `fs::read_to_string` and the image decoding of `get_texture_from_file_name`. `None`
      stands for the error or panic each of them raises. */
  datatype Io = Io(
    parseReal: string -> Option<real>,
    readFile: string -> Option<string>,
    loadTexture: string -> Option<Texture>)

  /** `Option::expect`: the value, or the panic `e`. */
  function Expect<T>(o: Option<T>, e: ParseError): (r: Result<T, ParseError>)
    ensures o.Some? ==> r == Ok(o.value)
    ensures o.None? ==> r == Err(e)
  {
    if o.Some? then Ok(o.value) else Err(e)
  }

  /** `parse_next_value_from_split`: no token is `None`; a token that does not parse is the
      "Could not parse value" panic. */
  function ParseNext<T>(words: seq<string>, parse: string -> Option<T>): (r: Result<Option<T>, ParseError>)
    ensures words == [] ==> r == Ok(None)
    ensures words != [] && parse(words[0]).None? ==> r == Err(CouldNotParseValue)
    ensures words != [] && parse(words[0]).Some? ==> r == Ok(Some(parse(words[0]).value))
  {
    if words == [] then Ok(None)
    else if parse(words[0]).None? then Err(CouldNotParseValue)
    else Ok(Some(parse(words[0]).value))
  }

  /** The tokens after the first `n`; a drained iterator keeps yielding nothing. */
  function Drop(words: seq<string>, n: nat): seq<string> {
    if n <= |words| then words[n..] else []
  }

  /** `get_vertex`: x and y are required, z is optional and defaults to 0.0; any token that
      is present must parse. */
  function GetVertex(words: seq<string>, parseReal: string -> Option<real>): (r: Result<Vector3d, ParseError>)
    ensures r.Ok? <==>
      && |words| >= 2
      && parseReal(words[0]).Some? && parseReal(words[1]).Some?
      && (|words| >= 3 ==> parseReal(words[2]).Some?)
    ensures r.Ok? ==> r.value.x == parseReal(words[0]).value && r.value.y == parseReal(words[1]).value
    ensures r.Ok? ==> r.value.z == if |words| >= 3 then parseReal(words[2]).value else 0.0
  {
    var x :- ParseNext(words, parseReal);
    var x :- Expect(x, CannotParseVertex);
    var y :- ParseNext(Drop(words, 1), parseReal);
    var y :- Expect(y, CannotParseVertex);
    var z :- ParseNext(Drop(words, 2), parseReal);
    Ok(Vector3d(x, y, z.GetOr(0.0)))
  }

  /** Too few tokens for x and y is the "Cannot parse vertex" panic, unless a token present
      fails to parse first. */
  lemma GetVertexTooShort(words: seq<string>, parseReal: string -> Option<real>)
    requires |words| < 2 && forall i :: 0 <= i < |words| ==> parseReal(words[i]).Some?
    ensures GetVertex(words, parseReal) == Err(CannotParseVertex)
  {
  }

  /** Two numbers make a vertex in the z = 0 plane. */
  lemma GetVertexDefaultsZ(a: string, b: string, parseReal: string -> Option<real>)
    requires parseReal(a).Some? && parseReal(b).Some?
    ensures GetVertex([a, b], parseReal) == Ok(Vector3d(parseReal(a).value, parseReal(b).value, 0.0))
  {
  }

  predicate InUnitRange(v: Vector3d) {
    0.0 <= v.x <= 1.0 && 0.0 <= v.y <= 1.0 && 0.0 <= v.z <= 1.0
  }

  /** `get_color_coefficient_from_split_lines`: a vertex whose three components all lie in
      [0, 1]; anything else is the "must be between 0.0 and 1.0" panic. */
  function ColorCoefficient(words: seq<string>, parseReal: string -> Option<real>): (r: Result<Vector3d, ParseError>)
    ensures r.Ok? <==> GetVertex(words, parseReal).Ok? && InUnitRange(GetVertex(words, parseReal).value)
    ensures r.Ok? ==> r.value == GetVertex(words, parseReal).value
    ensures GetVertex(words, parseReal).Ok? && !InUnitRange(GetVertex(words, parseReal).value) ==>
      r == Err(CoefficientOutOfRange)
  {
    var v :- GetVertex(words, parseReal);
    if InUnitRange(v) then Ok(v) else Err(CoefficientOutOfRange)
  }
}
