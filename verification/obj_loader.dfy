/** The OBJ line interpreter and fan triangulator. A file is given as its
    sequence of lines; the float parser is a parameter (an oracle), while
    whitespace splitting, the face-token rule and unsigned index parsing are
    modelled exactly. */
module ObjLoader {
  import opened Geometry

  /** Loaded geometry: `vertices[0]` is a dummy so that the file's 1-based
      indices can be used directly. */
  datatype ObjData = ObjData(vertices: seq<Vec3>, faces: seq<seq<nat>>) {
    /** `vertex_count`: the vertices after the dummy at index 0. The
        subtraction needs that dummy (`usize` cannot go below zero). */
    function VertexCount(): (n: nat)
      requires |vertices| >= 1
      ensures n == |vertices[1..]|
    {
      |vertices| - 1
    }

    /** `face_count`: zero exactly when no face was loaded. */
    function FaceCount(): (n: nat)
      ensures n == 0 <==> faces == []
    {
      |faces|
    }
  }

  /** Errors of a load. `IoError` comes only from opening or reading the
      file, which this model leaves out. */
  datatype ObjLoadError = IoError | ParseError(message: string)

  datatype Result<T, E> = Ok(value: T) | Err(error: E)

  /** Why a line was rejected; `Message` gives the text the loader reports. */
  datatype LineError = InvalidX | InvalidY | InvalidZ | InvalidFaceIndex(token: string)

  function Message(e: LineError): string {
    match e
    case InvalidX => "Invalid vertex x coordinate"
    case InvalidY => "Invalid vertex y coordinate"
    case InvalidZ => "Invalid vertex z coordinate"
    case InvalidFaceIndex(token) => "Invalid face index: " + token
  }

  /** Different rejections are reported with different messages. */
  lemma MessagesDistinguish(e1: LineError, e2: LineError)
    requires e1 != e2
    ensures Message(e1) != Message(e2)
  {
    if e1.InvalidFaceIndex? && e2.InvalidFaceIndex? {
      assert Message(e1)[20..] == e1.token;
      assert Message(e2)[20..] == e2.token;
    } else if e1.InvalidFaceIndex? || e2.InvalidFaceIndex? {
      assert Message(e1)[8] != Message(e2)[8];
    } else {
      assert Message(e1)[15] != Message(e2)[15];
    }
  }

  /** The placeholder pushed at index 0. */
  const Dummy := Vec3(0.0, 0.0, 0.0)

  /** One more than the largest `usize` (64-bit target). */
  const UsizeLimit: nat := 0x1_0000_0000_0000_0000

  // ---------------------------------------------------------------------
  // Tokens

  /** Rust's `char::is_whitespace`: the Unicode White_Space property. */
  predicate IsWhitespace(c: char) {
    || '\U{9}' <= c <= '\U{D}' || c == ' ' || c == '\U{85}' || c == '\U{A0}' || c == '\U{1680}'
    || '\U{2000}' <= c <= '\U{200A}' || c == '\U{2028}' || c == '\U{2029}' || c == '\U{202F}'
    || c == '\U{205F}' || c == '\U{3000}'
  }

  /** Length of the run of non-whitespace characters that starts `s`. */
  function WordLength(s: string): (n: nat)
    ensures n <= |s|
    ensures forall i :: 0 <= i < n ==> !IsWhitespace(s[i])
    ensures n < |s| ==> IsWhitespace(s[n])
  {
    if s == [] || IsWhitespace(s[0]) then 0 else 1 + WordLength(s[1..])
  }

  /** Length of the run of whitespace characters that starts `s`. */
  function LeadingWhitespace(s: string): (n: nat)
    ensures n <= |s|
    ensures forall i :: 0 <= i < n ==> IsWhitespace(s[i])
    ensures n < |s| ==> !IsWhitespace(s[n])
  {
    if s == [] || !IsWhitespace(s[0]) then 0 else 1 + LeadingWhitespace(s[1..])
  }

  /** `split_whitespace`: the maximal runs of non-whitespace characters. */
  function Tokens(s: string): (ts: seq<string>)
    ensures forall k :: 0 <= k < |ts| ==> ts[k] != []
    ensures forall k, i :: 0 <= k < |ts| && 0 <= i < |ts[k]| ==> !IsWhitespace(ts[k][i])
    decreases |s|
  {
    if s == [] then []
    else if IsWhitespace(s[0]) then Tokens(s[1..])
    else
      var n := WordLength(s);
      [s[..n]] + Tokens(s[n..])
  }

  /** A line has no token exactly when it is all whitespace. */
  lemma {:induction false} NoTokensIffBlank(s: string)
    ensures Tokens(s) == [] <==> forall i :: 0 <= i < |s| ==> IsWhitespace(s[i])
    decreases |s|
  {
    if s != [] && IsWhitespace(s[0]) {
      NoTokensIffBlank(s[1..]);
      assert forall i :: 1 <= i < |s| ==> s[i] == s[1..][i - 1];
    }
  }

  /** The first token, the one `load_obj` dispatches on, is the run of
      non-whitespace characters that follows the line's leading whitespace. */
  lemma {:induction false} FirstToken(s: string)
    requires Tokens(s) != []
    ensures var k := LeadingWhitespace(s);
      Tokens(s)[0] == s[k .. k + WordLength(s[k..])]
    decreases |s|
  {
    if IsWhitespace(s[0]) {
      FirstToken(s[1..]);
      var k := LeadingWhitespace(s[1..]);
      assert s[1..][k..] == s[k + 1..];
    } else {
      assert s[0..] == s;
    }
  }

  /** A line made only of whitespace (or empty) has no token. */
  lemma {:induction false} BlankHasNoTokens(s: string)
    requires forall i :: 0 <= i < |s| ==> IsWhitespace(s[i])
    ensures Tokens(s) == []
  {
    if s != [] {
      BlankHasNoTokens(s[1..]);
    }
  }

  // ---------------------------------------------------------------------
  // Face indices

  predicate IsDigit(c: char) {
    '0' <= c <= '9'
  }

  predicate AllDigits(s: string) {
    forall i :: 0 <= i < |s| ==> IsDigit(s[i])
  }

  /** Decimal value of a digit string. */
  function DigitsValue(d: string): nat
    requires AllDigits(d)
  {
    if d == [] then 0 else DigitsValue(d[..|d| - 1]) * 10 + (d[|d| - 1] as int - '0' as int)
  }

  /** `s.parse::<usize>()`: an optional '+', then at least one decimal digit,
      the value below 2^64. */
  function ParseUsize(s: string): (r: Option<nat>)
    ensures r.Some? ==> r.value < UsizeLimit
  {
    if s == [] then None
    else
      var digits := if s[0] == '+' then s[1..] else s;
      if digits == [] || !AllDigits(digits) then None
      else if DigitsValue(digits) < UsizeLimit then Some(DigitsValue(digits))
      else None
  }

  /** Decimal notation of `n`, without sign or leading zeros. */
  function DecimalString(n: nat): (s: string)
    ensures s != [] && AllDigits(s)
  {
    if n < 10 then ['0' + n as char] else DecimalString(n / 10) + ['0' + (n % 10) as char]
  }

  lemma {:induction false} DecimalValue(n: nat)
    ensures DigitsValue(DecimalString(n)) == n
  {
    var s := DecimalString(n);
    if n >= 10 {
      DecimalValue(n / 10);
      assert s[..|s| - 1] == DecimalString(n / 10);
    }
  }

  /** Every index the parser can return is parsed back from its decimal
      notation, with or without a leading '+'. */
  lemma ParseUsizeRoundTrip(n: nat)
    requires n < UsizeLimit
    ensures ParseUsize(DecimalString(n)) == Some(n)
    ensures ParseUsize("+" + DecimalString(n)) == Some(n)
  {
    DecimalValue(n);
    assert ("+" + DecimalString(n))[1..] == DecimalString(n);
  }

  /** The part of a face token before its first '/'. */
  function BeforeSlash(t: string): (p: string)
    ensures p <= t && '/' !in p
    ensures |p| < |t| ==> t[|p|] == '/'
  {
    if t == [] || t[0] == '/' then [] else [t[0]] + BeforeSlash(t[1..])
  }

  /** Vertex index of a face token such as "5", "5/2" or "5/2/7". */
  function FaceIndex(token: string): Option<nat> {
    ParseUsize(BeforeSlash(token))
  }

  /** Indices of a face's tokens as `index` reads them, or the error naming
      the first token it rejects. `load_obj` reads each token with
      `FaceIndex`; the properties below hold for any token reader. */
  function Indices(tokens: seq<string>, index: string -> Option<nat>): Result<seq<nat>, LineError> {
    if tokens == [] then Ok([])
    else
      var last := tokens[|tokens| - 1];
      match Indices(tokens[..|tokens| - 1], index)
      case Err(e) => Err(e)
      case Ok(indices) =>
        match index(last)
        case None => Err(InvalidFaceIndex(last))
        case Some(i) => Ok(indices + [i])
  }

  /** A parsed face has one index per token. */
  lemma {:induction false} IndicesLength(tokens: seq<string>, index: string -> Option<nat>)
    requires Indices(tokens, index).Ok?
    ensures |Indices(tokens, index).value| == |tokens|
  {
    if tokens != [] {
      IndicesLength(tokens[..|tokens| - 1], index);
    }
  }

  /** Index k of a parsed face is the index of token k. */
  lemma {:induction false} IndicesAt(tokens: seq<string>, index: string -> Option<nat>, k: nat)
    requires Indices(tokens, index).Ok? && k < |tokens|
    ensures index(tokens[k]).Some?
    ensures k < |Indices(tokens, index).value| && Indices(tokens, index).value[k] == index(tokens[k]).value
  {
    var init := tokens[..|tokens| - 1];
    assert Indices(init, index).Ok?;
    IndicesLength(init, index);
    if k < |init| {
      IndicesAt(init, index, k);
      assert init[k] == tokens[k];
    }
  }

  /** A parsed face holds its tokens' indices, in order. */
  lemma IndicesContents(tokens: seq<string>, index: string -> Option<nat>)
    requires Indices(tokens, index).Ok?
    ensures |Indices(tokens, index).value| == |tokens|
    ensures forall k :: 0 <= k < |tokens| ==>
      index(tokens[k]).Some? && Indices(tokens, index).value[k] == index(tokens[k]).value
  {
    IndicesLength(tokens, index);
    forall k | 0 <= k < |tokens|
      ensures index(tokens[k]).Some? && Indices(tokens, index).value[k] == index(tokens[k]).value
    {
      IndicesAt(tokens, index, k);
    }
  }

  /** A face that does not parse fails with the error naming its first bad
      token. */
  lemma {:induction false} IndicesError(tokens: seq<string>, index: string -> Option<nat>)
    requires Indices(tokens, index).Err?
    ensures exists k ::
      && 0 <= k < |tokens| && index(tokens[k]).None?
      && Indices(tokens, index).error == InvalidFaceIndex(tokens[k])
      && forall j :: 0 <= j < k ==> index(tokens[j]).Some?
  {
    var init, last := tokens[..|tokens| - 1], tokens[|tokens| - 1];
    assert forall k :: 0 <= k < |init| ==> init[k] == tokens[k];
    if Indices(init, index).Err? {
      IndicesError(init, index);
      var k :| 0 <= k < |init| && index(init[k]).None?
        && Indices(init, index).error == InvalidFaceIndex(init[k])
        && forall j :: 0 <= j < k ==> index(init[j]).Some?;
      assert index(tokens[k]).None?;
    } else {
      IndicesContents(init, index);
      assert index(tokens[|init|]).None?;
    }
  }

  /** A face parses exactly when each of its tokens does. */
  lemma IndicesOk(tokens: seq<string>, index: string -> Option<nat>)
    ensures Indices(tokens, index).Ok? <==> forall k :: 0 <= k < |tokens| ==> index(tokens[k]).Some?
  {
    if Indices(tokens, index).Ok? {
      IndicesContents(tokens, index);
    } else {
      IndicesError(tokens, index);
    }
  }

  /** A face whose prefix of `k - 1` tokens parses and whose token `k - 1`
      does not fails with that token's error, whatever follows. */
  lemma {:induction false} IndicesErrorSuffix(tokens: seq<string>, index: string -> Option<nat>, k: nat)
    requires 1 <= k <= |tokens|
    requires Indices(tokens[..k - 1], index).Ok? && index(tokens[k - 1]).None?
    ensures Indices(tokens, index) == Err(InvalidFaceIndex(tokens[k - 1]))
    decreases |tokens|
  {
    if k < |tokens| {
      assert tokens[..|tokens| - 1][..k - 1] == tokens[..k - 1];
      IndicesErrorSuffix(tokens[..|tokens| - 1], index, k);
    } else {
      assert tokens[..|tokens| - 1] == tokens[..k - 1];
    }
  }

  // ---------------------------------------------------------------------
  // Lines

  /** What one line contributes. */
  datatype LineKind = VertexLine(v: Vec3) | FaceLine(indices: seq<nat>) | Ignored

  /** Float in token `k` of a "v" line, if present and parsable. */
  function Coordinate(tokens: seq<string>, k: nat, parseFloat: string -> Option<real>): Option<real> {
    if k < |tokens| then parseFloat(tokens[k]) else None
  }

  /** Interpretation of one line by its first token; extra tokens after the
      z coordinate of a "v" line are ignored. */
  function ParseLine(line: string, parseFloat: string -> Option<real>): Result<LineKind, LineError> {
    var tokens := Tokens(line);
    if tokens == [] || (tokens[0] != "v" && tokens[0] != "f") then Ok(Ignored)
    else if tokens[0] == "v" then
      var x, y, z := Coordinate(tokens, 1, parseFloat), Coordinate(tokens, 2, parseFloat), Coordinate(tokens, 3, parseFloat);
      if x.None? then Err(InvalidX)
      else if y.None? then Err(InvalidY)
      else if z.None? then Err(InvalidZ)
      else Ok(VertexLine(Vec3(x.value, y.value, z.value)))
    else
      match Indices(tokens[1..], FaceIndex)
      case Err(e) => Err(e)
      case Ok(indices) => Ok(FaceLine(indices))
  }

  function Apply(data: ObjData, kind: LineKind): ObjData {
    match kind
    case VertexLine(v) => data.(vertices := data.vertices + [v])
    case FaceLine(indices) => data.(faces := data.faces + [indices])
    case Ignored => data
  }

  /** A "v" line adds one to `vertex_count` and leaves `face_count`; an "f"
      line adds one to `face_count` and leaves `vertex_count`; any other line
      changes neither. */
  lemma ApplyCounts(data: ObjData, kind: LineKind)
    requires |data.vertices| >= 1
    ensures var r := Apply(data, kind);
      && |r.vertices| >= 1
      && r.VertexCount() == data.VertexCount() + (if kind.VertexLine? then 1 else 0)
      && r.FaceCount() == data.FaceCount() + (if kind.FaceLine? then 1 else 0)
      && (kind.VertexLine? ==> r.vertices[r.VertexCount()] == kind.v)
      && (kind.FaceLine? ==> r.faces[r.FaceCount() - 1] == kind.indices)
  {
  }

  /** Result of loading a file made of `lines`: the lines are applied in
      order, starting from the dummy vertex alone, and the first bad line
      aborts the load. */
  function LoadLines(lines: seq<string>, parseFloat: string -> Option<real>): Result<ObjData, ObjLoadError> {
    if lines == [] then Ok(ObjData([Dummy], []))
    else
      match LoadLines(lines[..|lines| - 1], parseFloat)
      case Err(e) => Err(e)
      case Ok(data) =>
        match ParseLine(lines[|lines| - 1], parseFloat)
        case Err(e) => Err(ParseError(Message(e)))
        case Ok(kind) => Ok(Apply(data, kind))
  }

  lemma {:induction false} ErrorIsFinal(lines: seq<string>, n: nat, parseFloat: string -> Option<real>)
    requires n <= |lines| && LoadLines(lines[..n], parseFloat).Err?
    ensures LoadLines(lines, parseFloat) == LoadLines(lines[..n], parseFloat)
    decreases |lines| - n
  {
    if n < |lines| {
      assert lines[..n + 1][..n] == lines[..n];
      ErrorIsFinal(lines, n + 1, parseFloat);
    } else {
      assert lines[..n] == lines;
    }
  }

  /** The face-token loop of `load_obj`: the tokens after "f". */
  method ReadFace(tokens: seq<string>) returns (r: Result<seq<nat>, LineError>)
    ensures r == Indices(tokens, FaceIndex)
  {
    var indices: seq<nat> := [];
    for k := 0 to |tokens|
      invariant Indices(tokens[..k], FaceIndex) == Ok(indices)
    {
      assert tokens[..k + 1][..k] == tokens[..k];
      var index := FaceIndex(tokens[k]);
      if index.None? {
        IndicesErrorSuffix(tokens, FaceIndex, k + 1);
        return Err(InvalidFaceIndex(tokens[k]));
      }
      indices := indices + [index.value];
    }
    assert tokens[..|tokens|] == tokens;
    return Ok(indices);
  }

  /** The body of `load_obj`'s line loop, up to the push. */
  method ReadLine(line: string, parseFloat: string -> Option<real>) returns (r: Result<LineKind, LineError>)
    ensures r == ParseLine(line, parseFloat)
  {
    var tokens := Tokens(line);
    if tokens == [] {
      return Ok(Ignored);
    }
    if tokens[0] == "v" {
      var x := if |tokens| > 1 then parseFloat(tokens[1]) else None;
      if x.None? {
        return Err(InvalidX);
      }
      var y := if |tokens| > 2 then parseFloat(tokens[2]) else None;
      if y.None? {
        return Err(InvalidY);
      }
      var z := if |tokens| > 3 then parseFloat(tokens[3]) else None;
      if z.None? {
        return Err(InvalidZ);
      }
      return Ok(VertexLine(Vec3(x.value, y.value, z.value)));
    } else if tokens[0] == "f" {
      var face := ReadFace(tokens[1..]);
      if face.Err? {
        return Err(face.error);
      }
      return Ok(FaceLine(face.value));
    }
    return Ok(Ignored);
  }

  /** `load_obj` on a file made of `lines`. */
  method LoadObj(lines: seq<string>, parseFloat: string -> Option<real>) returns (r: Result<ObjData, ObjLoadError>)
    ensures r == LoadLines(lines, parseFloat)
  {
    var vertices := [Dummy];
    var faces: seq<seq<nat>> := [];
    for n := 0 to |lines|
      invariant LoadLines(lines[..n], parseFloat) == Ok(ObjData(vertices, faces))
    {
      assert lines[..n + 1][..n] == lines[..n];
      var kind := ReadLine(lines[n], parseFloat);
      match kind {
        case Err(e) =>
          ErrorIsFinal(lines, n + 1, parseFloat);
          return Err(ParseError(Message(e)));
        case Ok(VertexLine(v)) =>
          vertices := vertices + [v];
        case Ok(FaceLine(indices)) =>
          faces := faces + [indices];
        case Ok(Ignored) =>
      }
    }
    assert lines[..|lines|] == lines;
    r := Ok(ObjData(vertices, faces));
  }

  // ---------------------------------------------------------------------
  // Properties of a load

  /** Number of lines whose first token is `kind`. */
  function CountLines(lines: seq<string>, kind: string): nat {
    if lines == [] then 0
    else
      var tokens := Tokens(lines[|lines| - 1]);
      CountLines(lines[..|lines| - 1], kind) + (if tokens != [] && tokens[0] == kind then 1 else 0)
  }

  /** The lines whose first token is "f", in file order. */
  function FaceLines(lines: seq<string>): (r: seq<string>)
    ensures |r| <= |lines|
    ensures forall k :: 0 <= k < |r| ==> Tokens(r[k]) != [] && Tokens(r[k])[0] == "f"
  {
    if lines == [] then []
    else
      var last := lines[|lines| - 1];
      var tokens := Tokens(last);
      FaceLines(lines[..|lines| - 1]) + (if tokens != [] && tokens[0] == "f" then [last] else [])
  }

  /** The lines whose first token is "v", in file order. */
  function VertexLines(lines: seq<string>): (r: seq<string>)
    ensures |r| <= |lines|
    ensures forall k :: 0 <= k < |r| ==> Tokens(r[k]) != [] && Tokens(r[k])[0] == "v"
  {
    if lines == [] then []
    else
      var last := lines[|lines| - 1];
      var tokens := Tokens(last);
      VertexLines(lines[..|lines| - 1]) + (if tokens != [] && tokens[0] == "v" then [last] else [])
  }

  /** A successful load keeps the dummy at index 0, then one vertex per "v"
      line holding that line's parsed coordinates, and one face per "f"
      line holding its indices, both in file order. */
  lemma {:induction false} LoadContents(lines: seq<string>, parseFloat: string -> Option<real>)
    requires LoadLines(lines, parseFloat).Ok?
    ensures var data := LoadLines(lines, parseFloat).value;
      && |data.vertices| == 1 + CountLines(lines, "v") && data.vertices[0] == Dummy
      && data.VertexCount() == CountLines(lines, "v")
      && data.FaceCount() == CountLines(lines, "f") == |FaceLines(lines)|
      && (forall k :: 0 <= k < |data.faces| ==> Indices(Tokens(FaceLines(lines)[k])[1..], FaceIndex) == Ok(data.faces[k]))
      && |VertexLines(lines)| == |data.vertices| - 1
      && forall k :: 0 <= k < |data.vertices| - 1 ==> ParseLine(VertexLines(lines)[k], parseFloat) == Ok(VertexLine(data.vertices[k + 1]))
  {
    if lines != [] {
      var init := lines[..|lines| - 1];
      LoadContents(init, parseFloat);
    }
    LoadVertices(lines, parseFloat);
  }

  /** Vertex k + 1 of a successful load holds the coordinates parsed from
      the k-th "v" line. */
  lemma {:induction false} LoadVertices(lines: seq<string>, parseFloat: string -> Option<real>)
    requires LoadLines(lines, parseFloat).Ok?
    ensures var data := LoadLines(lines, parseFloat).value;
      && |VertexLines(lines)| == |data.vertices| - 1
      && forall k :: 0 <= k < |data.vertices| - 1 ==> ParseLine(VertexLines(lines)[k], parseFloat) == Ok(VertexLine(data.vertices[k + 1]))
  {
    if lines != [] {
      var init := lines[..|lines| - 1];
      LoadVertices(init, parseFloat);
    }
  }

  /** A line is rejected, whatever was loaded before it. */
  predicate LineFails(line: string, parseFloat: string -> Option<real>) {
    ParseLine(line, parseFloat).Err?
  }

  /** A load fails exactly when some line is rejected, and then with the
      error of the first rejected line. */
  lemma {:induction false} LoadFailsAtFirstBadLine(lines: seq<string>, parseFloat: string -> Option<real>)
    ensures LoadLines(lines, parseFloat).Err? <==> exists k :: 0 <= k < |lines| && LineFails(lines[k], parseFloat)
    ensures LoadLines(lines, parseFloat).Err? ==>
      exists k :: 0 <= k < |lines| && LineFails(lines[k], parseFloat)
        && LoadLines(lines, parseFloat).error == ParseError(Message(ParseLine(lines[k], parseFloat).error))
        && forall j :: 0 <= j < k ==> !LineFails(lines[j], parseFloat)
  {
    if lines != [] {
      var init := lines[..|lines| - 1];
      LoadFailsAtFirstBadLine(init, parseFloat);
      assert forall k :: 0 <= k < |init| ==> init[k] == lines[k];
    }
  }

  /** The lines whose first token is "v" or "f". */
  function Relevant(lines: seq<string>): seq<string> {
    if lines == [] then []
    else
      var last := lines[|lines| - 1];
      var tokens := Tokens(last);
      Relevant(lines[..|lines| - 1]) + (if tokens != [] && (tokens[0] == "v" || tokens[0] == "f") then [last] else [])
  }

  /** Lines whose first token is neither "v" nor "f", blank lines included,
      change nothing: dropping them all gives the same load. */
  lemma {:induction false} IgnoredLinesChangeNothing(lines: seq<string>, parseFloat: string -> Option<real>)
    ensures LoadLines(Relevant(lines), parseFloat) == LoadLines(lines, parseFloat)
  {
    if lines != [] {
      var init := lines[..|lines| - 1];
      var last := lines[|lines| - 1];
      IgnoredLinesChangeNothing(init, parseFloat);
      var tokens := Tokens(last);
      if tokens != [] && (tokens[0] == "v" || tokens[0] == "f") {
        var rel := Relevant(init) + [last];
        assert Relevant(lines) == rel;
        assert rel[..|rel| - 1] == Relevant(init);
      } else {
        assert Relevant(lines) == Relevant(init);
        assert ParseLine(last, parseFloat) == Ok(Ignored);
      }
    }
  }

  // ---------------------------------------------------------------------
  // Triangulation

  datatype Triangle = Triangle(a: nat, b: nat, c: nat)

  /** Fan triangles of one face: [f0, fi, fi+1] for i = 1 .. n - 2; nothing
      for a face of fewer than three indices. */
  function Fan(face: seq<nat>): seq<Triangle> {
    if |face| < 3 then []
    else seq(|face| - 2, i requires 0 <= i < |face| - 2 => Triangle(face[0], face[i + 1], face[i + 2]))
  }

  /** Fans of all faces, face after face. */
  function Fans(faces: seq<seq<nat>>): seq<Triangle> {
    if faces == [] then [] else Fans(faces[..|faces| - 1]) + Fan(faces[|faces| - 1])
  }

  /** `triangulate`. */
  method Triangulate(data: ObjData) returns (triangles: seq<Triangle>)
    ensures triangles == Fans(data.faces)
  {
    triangles := [];
    for f := 0 to |data.faces|
      invariant triangles == Fans(data.faces[..f])
    {
      assert data.faces[..f + 1][..f] == data.faces[..f];
      var face := data.faces[f];
      if |face| >= 3 {
        ghost var before := triangles;
        for i := 1 to |face| - 1
          invariant triangles == before + Fan(face)[..i - 1]
        {
          triangles := triangles + [Triangle(face[0], face[i], face[i + 1])];
          assert Fan(face)[..i] == Fan(face)[..i - 1] + [Fan(face)[i - 1]];
        }
        assert Fan(face)[..|face| - 2] == Fan(face);
      }
    }
    assert data.faces[..|data.faces|] == data.faces;
  }

  /** Total number of triangles: the sum of max(0, n - 2) over the faces. */
  function TriangleTotal(faces: seq<seq<nat>>): nat {
    if faces == [] then 0
    else
      var n := |faces[|faces| - 1]|;
      TriangleTotal(faces[..|faces| - 1]) + (if n >= 3 then n - 2 else 0)
  }

  lemma {:induction false} FansCount(faces: seq<seq<nat>>)
    ensures |Fans(faces)| == TriangleTotal(faces)
  {
    if faces != [] {
      FansCount(faces[..|faces| - 1]);
    }
  }

  /** Every triangle uses only indices of one face of the input. */
  lemma {:induction false} FansUseOwnFace(faces: seq<seq<nat>>)
    ensures forall t :: t in Fans(faces) ==>
      exists f :: 0 <= f < |faces| && t.a in faces[f] && t.b in faces[f] && t.c in faces[f]
  {
    if faces != [] {
      var init := faces[..|faces| - 1];
      var last := faces[|faces| - 1];
      FansUseOwnFace(init);
      forall t | t in Fans(faces)
        ensures exists f :: 0 <= f < |faces| && t.a in faces[f] && t.b in faces[f] && t.c in faces[f]
      {
        if t in Fans(init) {
          var f :| 0 <= f < |init| && t.a in init[f] && t.b in init[f] && t.c in init[f];
          assert init[f] == faces[f];
        } else {
          assert t in Fan(last);
          var i :| 0 <= i < |Fan(last)| && Fan(last)[i] == t;
          assert t.a in faces[|faces| - 1];
        }
      }
    }
  }

  /** A quad "f 1 2 3 4" gives (1,2,3) then (1,3,4); the two faces of the
      sample file give 3 + 1 triangles. */
  lemma FanExamples()
    ensures Fan([1, 2, 3, 4]) == [Triangle(1, 2, 3), Triangle(1, 3, 4)]
    ensures Fans([[1, 2, 3, 4, 5], [1, 5, 6]])
      == [Triangle(1, 2, 3), Triangle(1, 3, 4), Triangle(1, 4, 5), Triangle(1, 5, 6)]
  {
    var faces := [[1, 2, 3, 4, 5], [1, 5, 6]];
    assert faces[..1] == [[1, 2, 3, 4, 5]];
    assert faces[..1][..0] == faces[..0];
  }
}
