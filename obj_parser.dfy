/** Model of `parse_obj` (src/obj_parser.rs): a subset of the Wavefront OBJ text
  * format flattened into one interleaved vertex buffer.
  *
  * The file is given as its sequence of lines. Coordinates are never computed with,
  * only copied, so they are kept as f32 bit patterns, and reading a coordinate token
  * is the parameter `parse` (None where the token is not an f32). Integer indices are
  * parsed exactly as `usize::from_str` does on a 64-bit target. The two panics of the
  * source (an index component equal to 0, an index past the end of a table) are the
  * error values `IndexUnderflow` and `IndexOutOfRange`.
  */
module ObjParser {
  import opened Wrappers

  /** An f32 coordinate, kept as its IEEE-754 bit pattern. */
  type F32 = bv32

  /** The bit pattern of 0.0f32, written as texture coordinates when no `vt` line was read. */
  const ZERO: F32 := 0

  /** usize::MAX on a 64-bit target. */
  const USIZE_MAX: nat := 0xFFFF_FFFF_FFFF_FFFF

  datatype Vec3 = Vec3(x: F32, y: F32, z: F32)

  datatype Vec2 = Vec2(u: F32, v: F32)

  /** One face corner `v/vt/vn`, already converted to 0-based indices. */
  datatype Corner = Corner(v: nat, vt: nat, vn: nat)

  /** `FaceType`: a face with three or with four corners. */
  datatype Face =
    | Triangle(a: Corner, b: Corner, c: Corner)
    | Quad(a: Corner, b: Corner, c: Corner, d: Corner)

  /** The four growable tables the line loop fills. */
  datatype Mesh = Mesh(vertices: seq<Vec3>, normals: seq<Vec3>, textures: seq<Vec2>, faces: seq<Face>)

  const EMPTY_MESH: Mesh := Mesh([], [], [], [])

  datatype Table = Vertices | Normals | Textures

  datatype ObjError =
    | BadCoordinate(axis: nat)                  // a coordinate token is not an f32 (axis 0, 1, 2 is x, y, z)
    | BadCorner(token: string)                  // a face corner does not split into three parts on '/'
    | BadFace(line: string)                     // an `f ` line with neither 3 nor 4 corners
    | IndexUnderflow(component: string)         // panic: a component that reads as 0, minus one
    | IndexOutOfRange(table: Table, index: nat) // panic: an index past the end of a table
  {
    /** The kinds that are panics in the source rather than `Err` returns. */
    predicate IsPanic()
    {
      IndexUnderflow? || IndexOutOfRange?
    }
  }

  // ---------------------------------------------------------------------------
  // Text helpers: prefixes, whitespace tokens, splitting on '/'
  // ---------------------------------------------------------------------------

  predicate StartsWith(s: string, prefix: string)
  {
    |prefix| <= |s| && s[..|prefix|] == prefix
  }

  /** The four line prefixes the parser looks for exclude one another. */
  lemma PrefixesExclusive(line: string)
    ensures StartsWith(line, "v ") ==> !StartsWith(line, "vn ") && !StartsWith(line, "vt ") && !StartsWith(line, "f ")
    ensures StartsWith(line, "vn ") ==> !StartsWith(line, "vt ") && !StartsWith(line, "f ")
    ensures StartsWith(line, "vt ") ==> !StartsWith(line, "f ")
  {
    if StartsWith(line, "v ") {
      assert line[1] == line[..2][1] == ' ';
    }
    if StartsWith(line, "vn ") {
      assert line[1] == line[..3][1] == 'n';
    }
    if StartsWith(line, "vt ") || StartsWith(line, "f ") {
      assert StartsWith(line, "vt ") ==> line[0] == line[..3][0] == 'v';
      assert StartsWith(line, "f ") ==> line[0] == line[..2][0] == 'f';
    }
  }

  /** Unicode White_Space, the separator set of `str::split_whitespace`. */
  predicate IsWhitespace(c: char)
  {
    || c == ' ' || c == '\t' || c == '\n' || c == '\U{B}' || c == '\U{C}' || c == '\r'
    || c == '\U{85}' || c == '\U{A0}' || c == '\U{1680}' || ('\U{2000}' <= c <= '\U{200A}')
    || c == '\U{2028}' || c == '\U{2029}' || c == '\U{202F}' || c == '\U{205F}' || c == '\U{3000}'
  }

  /** A token `split_whitespace` can return: non-empty and free of whitespace. */
  predicate IsWord(t: string)
  {
    t != [] && forall c <- t :: !IsWhitespace(c)
  }

  /** Length of the run of non-whitespace characters at the start of `s`. */
  function WordLength(s: string): (n: nat)
    ensures n <= |s|
    ensures forall i :: 0 <= i < n ==> !IsWhitespace(s[i])
    ensures n < |s| ==> IsWhitespace(s[n])
  {
    if s == [] || IsWhitespace(s[0]) then 0 else 1 + WordLength(s[1..])
  }

  /** `s.split_whitespace().collect()`. */
  function SplitWhitespace(s: string): (r: seq<string>)
    ensures forall t <- r :: IsWord(t)
    decreases |s|
  {
    if s == [] then []
    else if IsWhitespace(s[0]) then SplitWhitespace(s[1..])
    else
      var n := WordLength(s);
      [s[..n]] + SplitWhitespace(s[n..])
  }

  /** Words separated by single spaces: the inverse of `SplitWhitespace` on words. */
  function Unwords(ts: seq<string>): string
  {
    if ts == [] then []
    else if |ts| == 1 then ts[0]
    else ts[0] + " " + Unwords(ts[1..])
  }

  lemma {:induction false} WordLengthOfWord(w: string, rest: string)
    requires IsWord(w)
    requires rest == [] || IsWhitespace(rest[0])
    ensures WordLength(w + rest) == |w|
    decreases |w|
  {
    if |w| > 1 {
      assert (w + rest)[1..] == w[1..] + rest;
      WordLengthOfWord(w[1..], rest);
    } else {
      assert (w + rest)[1..] == rest;
    }
  }

  /** Splitting words joined by single spaces gives back the words. */
  lemma {:induction false} SplitUnwords(ts: seq<string>)
    requires forall t <- ts :: IsWord(t)
    ensures SplitWhitespace(Unwords(ts)) == ts
  {
    if ts == [] {
    } else if |ts| == 1 {
      WordLengthOfWord(ts[0], []);
      assert ts[0] + [] == ts[0];
      assert ts[0][|ts[0]|..] == [];
      assert ts[0][..|ts[0]|] == ts[0];
    } else {
      var s := Unwords(ts);
      var tail := Unwords(ts[1..]);
      assert s == ts[0] + (" " + tail);
      WordLengthOfWord(ts[0], " " + tail);
      assert s[..|ts[0]|] == ts[0];
      assert s[|ts[0]|..] == " " + tail;
      assert (" " + tail)[1..] == tail;
      SplitUnwords(ts[1..]);
      assert SplitWhitespace(s[|ts[0]|..]) == SplitWhitespace(tail);
    }
  }

  /** Number of occurrences of `d` in `s`. */
  function Count(s: string, d: char): nat
  {
    if s == [] then 0 else (if s[0] == d then 1 else 0) + Count(s[1..], d)
  }

  /** Parts joined with `d` between them. */
  function Join(parts: seq<string>, d: char): string
    requires parts != []
  {
    if |parts| == 1 then parts[0] else parts[0] + [d] + Join(parts[1..], d)
  }

  /** `s.split(d).collect()`: one more part than there are separators. */
  function SplitOn(s: string, d: char): (parts: seq<string>)
    ensures |parts| == Count(s, d) + 1
    ensures forall p <- parts :: d !in p
    ensures Join(parts, d) == s
  {
    if s == [] then [[]]
    else
      var rest := SplitOn(s[1..], d);
      if s[0] == d then
        assert [d] + Join(rest, d) == s;
        [[]] + rest
      else
        var parts := [[s[0]] + rest[0]] + rest[1..];
        assert parts[1..] == rest[1..];
        assert Join(parts, d) == [s[0]] + Join(rest, d);
        parts
  }

  lemma {:induction false} SplitOnWordThen(w: string, t: string, d: char)
    requires d !in w
    ensures SplitOn(w + t, d) == [w + SplitOn(t, d)[0]] + SplitOn(t, d)[1..]
    decreases |w|
  {
    if w == [] {
      var x := SplitOn(t, d);
      assert w + t == t;
      assert w + x[0] == x[0];
      assert [w + x[0]] + x[1..] == x;
    } else {
      assert (w + t)[1..] == w[1..] + t;
      SplitOnWordThen(w[1..], t, d);
      assert [w[0]] + (w[1..] + SplitOn(t, d)[0]) == w + SplitOn(t, d)[0];
    }
  }

  /** Splitting separator-free parts joined by the separator gives back the parts. */
  lemma {:induction false} SplitJoin(parts: seq<string>, d: char)
    requires parts != []
    requires forall p <- parts :: d !in p
    ensures SplitOn(Join(parts, d), d) == parts
  {
    if |parts| == 1 {
      SplitOnWordThen(parts[0], [], d);
      assert parts[0] + [] == parts[0];
    } else {
      var tail := Join(parts[1..], d);
      assert Join(parts, d) == parts[0] + ([d] + tail);
      SplitOnWordThen(parts[0], [d] + tail, d);
      assert ([d] + tail)[1..] == tail;
      SplitJoin(parts[1..], d);
      assert parts[0] + [] == parts[0];
    }
  }

  // ---------------------------------------------------------------------------
  // Face-corner indices
  // ---------------------------------------------------------------------------

  predicate IsDigit(c: char)
  {
    '0' <= c <= '9'
  }

  function DigitValue(c: char): nat
    requires IsDigit(c)
  {
    c as int - '0' as int
  }

  function DigitChar(n: nat): char
    requires n < 10
  {
    ('0' as int + n) as char
  }

  /** The value of a string of decimal digits. */
  function DecimalValue(ds: string): nat
    requires forall c <- ds :: IsDigit(c)
  {
    if ds == [] then 0 else 10 * DecimalValue(ds[..|ds| - 1]) + DigitValue(ds[|ds| - 1])
  }

  /** The decimal rendering of `n`, as an OBJ file writes an index. */
  function Decimal(n: nat): (s: string)
    ensures s != [] && forall c <- s :: IsDigit(c)
  {
    if n < 10 then [DigitChar(n)] else Decimal(n / 10) + [DigitChar(n % 10)]
  }

  lemma {:induction false} DecimalRoundTrip(n: nat)
    ensures DecimalValue(Decimal(n)) == n
  {
    if n >= 10 {
      var s := Decimal(n);
      assert s[..|s| - 1] == Decimal(n / 10);
      DecimalRoundTrip(n / 10);
    }
  }

  /** `s.parse::<usize>()`: an optional '+', then one or more ASCII digits, at most usize::MAX. */
  function ParseIndex(s: string): (r: Option<nat>)
    ensures r.Some? ==> r.value <= USIZE_MAX && s != []
  {
    var digits := if |s| > 0 && s[0] == '+' then s[1..] else s;
    if digits != [] && (forall c <- digits :: IsDigit(c)) && DecimalValue(digits) <= USIZE_MAX
    then Some(DecimalValue(digits))
    else None
  }

  /** Every index a file can hold reads back as itself, with or without a '+'. */
  lemma ParseIndexDecimal(n: nat)
    requires n <= USIZE_MAX
    ensures ParseIndex(Decimal(n)) == Some(n)
    ensures ParseIndex("+" + Decimal(n)) == Some(n)
  {
    DecimalRoundTrip(n);
    assert Decimal(n)[0] in Decimal(n);
    assert ("+" + Decimal(n))[1..] == Decimal(n);
  }

  /** `s.parse::<usize>().unwrap_or(1) - 1`: a missing or unreadable component becomes 0,
    * and a component that reads as 0 underflows, which panics. */
  function ZeroBased(component: string): (r: Result<nat, ObjError>)
    ensures r.Err? <==> ParseIndex(component) == Some(0)
    ensures r.Ok? ==> r.value < USIZE_MAX
    ensures ParseIndex(component).None? ==> r == Ok(0)
  {
    match ParseIndex(component)
    case None => Ok(0)
    case Some(n) => if n == 0 then Err(IndexUnderflow(component)) else Ok(n - 1)
  }

  /** A 1-based index written in decimal becomes the 0-based index one below it. */
  lemma OneBasedToZeroBased(n: nat)
    requires n < USIZE_MAX
    ensures ZeroBased(Decimal(n + 1)) == Ok(n)
  {
    ParseIndexDecimal(n + 1);
  }

  /** One face corner: three parts on '/', each made 0-based in the order v, vt, vn. */
  function ParseCorner(token: string): (r: Result<Corner, ObjError>)
    ensures Count(token, '/') != 2 ==> r == Err(BadCorner(token))
    ensures r.Err? ==> r.error.BadCorner? || r.error.IndexUnderflow?
  {
    var parts := SplitOn(token, '/');
    if |parts| != 3 then Err(BadCorner(token))
    else
      match ZeroBased(parts[0])
      case Err(e) => Err(e)
      case Ok(v) =>
        match ZeroBased(parts[1])
        case Err(e) => Err(e)
        case Ok(vt) =>
          match ZeroBased(parts[2])
          case Err(e) => Err(e)
          case Ok(vn) => Ok(Corner(v, vt, vn))
  }

  /** `a/b/c` with 1-based decimal indices is the corner (a-1, b-1, c-1), and an empty
    * middle part, as in `a//c`, gives texture index 0. */
  lemma CornerOfIndices(a: nat, b: nat, c: nat)
    requires a < USIZE_MAX && b < USIZE_MAX && c < USIZE_MAX
    ensures ParseCorner(Decimal(a + 1) + "/" + Decimal(b + 1) + "/" + Decimal(c + 1)) == Ok(Corner(a, b, c))
    ensures ParseCorner(Decimal(a + 1) + "//" + Decimal(c + 1)) == Ok(Corner(a, 0, c))
  {
    NoSlash(a + 1);
    NoSlash(b + 1);
    NoSlash(c + 1);
    OneBasedToZeroBased(a);
    OneBasedToZeroBased(b);
    OneBasedToZeroBased(c);
    CornerOfComponents(Decimal(a + 1), Decimal(b + 1), Decimal(c + 1), Corner(a, b, c));
    EmptyComponent();
    CornerOfComponents(Decimal(a + 1), [], Decimal(c + 1), Corner(a, 0, c));
    EmptyBetween(Decimal(a + 1), Decimal(c + 1));
  }

  lemma NoSlash(n: nat)
    ensures '/' !in Decimal(n)
  {
    assert forall ch <- Decimal(n) :: IsDigit(ch);
  }

  /** An empty component stands for index 0. */
  lemma EmptyComponent()
    ensures ZeroBased([]) == Ok(0)
  {
    assert ParseIndex([]).None?;
  }

  lemma EmptyBetween(p: string, q: string)
    ensures p + "/" + [] + "/" + q == p + "//" + q
  {
    assert "//" == "/" + "/";
  }

  /** Three components without '/', joined by '/', parse as the corner of their indices. */
  lemma CornerOfComponents(p0: string, p1: string, p2: string, corner: Corner)
    requires '/' !in p0 && '/' !in p1 && '/' !in p2
    requires ZeroBased(p0) == Ok(corner.v) && ZeroBased(p1) == Ok(corner.vt) && ZeroBased(p2) == Ok(corner.vn)
    ensures ParseCorner(p0 + "/" + p1 + "/" + p2) == Ok(corner)
  {
    assert [p0, p1, p2][1..] == [p1, p2] && [p1, p2][1..] == [p2];
    assert Join([p1, p2], '/') == p1 + "/" + p2;
    assert Join([p0, p1, p2], '/') == p0 + "/" + (p1 + "/" + p2);
    assert p0 + "/" + (p1 + "/" + p2) == p0 + "/" + p1 + "/" + p2;
    SplitJoin([p0, p1, p2], '/');
  }

  /** The corners of a face line, the first failing corner deciding the error. */
  function CornersOf(tokens: seq<string>): (r: Result<seq<Corner>, ObjError>)
    ensures r.Ok? <==> forall t <- tokens :: ParseCorner(t).Ok?
    ensures r.Err? ==> r.error.BadCorner? || r.error.IndexUnderflow?
    ensures r.Ok? ==> |r.value| == |tokens|
  {
    if tokens == [] then Ok([])
    else
      match ParseCorner(tokens[0])
      case Err(e) => Err(e)
      case Ok(c) =>
        assert forall t <- tokens[1..] :: t in tokens;
        Prepend([c], CornersOf(tokens[1..]))
  }

  /** Corner `i` of the result is token `i` parsed. */
  lemma {:induction false} CornersInOrder(tokens: seq<string>)
    requires CornersOf(tokens).Ok?
    ensures forall i :: 0 <= i < |tokens| ==> ParseCorner(tokens[i]) == Ok(CornersOf(tokens).value[i])
  {
    if tokens != [] {
      var c := ParseCorner(tokens[0]).value;
      var rest := CornersOf(tokens[1..]).value;
      assert CornersOf(tokens).value == [c] + rest;
      CornersInOrder(tokens[1..]);
      forall i | 1 <= i < |tokens|
        ensures ParseCorner(tokens[i]) == Ok(CornersOf(tokens).value[i])
      {
        assert tokens[1..][i - 1] == tokens[i];
      }
    }
  }

  // ---------------------------------------------------------------------------
  // The line loop
  // ---------------------------------------------------------------------------

  /** Coordinates x, y, z from tokens 1, 2, 3, read in that order. */
  function ParseVec3(parts: seq<string>, parse: string -> Option<F32>): Result<Vec3, ObjError>
    requires |parts| == 4
  {
    if parse(parts[1]).None? then Err(BadCoordinate(0))
    else if parse(parts[2]).None? then Err(BadCoordinate(1))
    else if parse(parts[3]).None? then Err(BadCoordinate(2))
    else Ok(Vec3(parse(parts[1]).value, parse(parts[2]).value, parse(parts[3]).value))
  }

  /** Coordinates u, v from tokens 1, 2; later tokens are not read. */
  function ParseVec2(parts: seq<string>, parse: string -> Option<F32>): Result<Vec2, ObjError>
    requires |parts| >= 3
  {
    if parse(parts[1]).None? then Err(BadCoordinate(0))
    else if parse(parts[2]).None? then Err(BadCoordinate(1))
    else Ok(Vec2(parse(parts[1]).value, parse(parts[2]).value))
  }

  function Size(m: Mesh): nat
  {
    |m.vertices| + |m.normals| + |m.textures| + |m.faces|
  }

  /** `m2` extends `m1` table by table: nothing is removed or rewritten. */
  predicate Extends(m1: Mesh, m2: Mesh)
  {
    && m1.vertices <= m2.vertices
    && m1.normals <= m2.normals
    && m1.textures <= m2.textures
    && m1.faces <= m2.faces
  }

  /** A `v ` or `vn ` line: four tokens give one triple, any other count nothing. */
  function ScanTriple(m: Mesh, parts: seq<string>, parse: string -> Option<F32>, normal: bool): (r: Result<Mesh, ObjError>)
    ensures r.Ok? ==> Extends(m, r.value) && Size(r.value) <= Size(m) + 1
    ensures r.Err? ==> r.error.BadCoordinate?
  {
    if |parts| == 4 then
      match ParseVec3(parts, parse)
      case Err(e) => Err(e)
      case Ok(p) =>
        if normal then Ok(m.(normals := m.normals + [p])) else Ok(m.(vertices := m.vertices + [p]))
    else Ok(m)
  }

  /** A `vt ` line: three or more tokens give one pair, fewer nothing. */
  function ScanPair(m: Mesh, parts: seq<string>, parse: string -> Option<F32>): (r: Result<Mesh, ObjError>)
    ensures r.Ok? ==> Extends(m, r.value) && Size(r.value) <= Size(m) + 1
    ensures r.Err? ==> r.error.BadCoordinate?
  {
    if |parts| >= 3 then
      match ParseVec2(parts, parse)
      case Err(e) => Err(e)
      case Ok(t) => Ok(m.(textures := m.textures + [t]))
    else Ok(m)
  }

  /** An `f ` line: three corners give a triangle, four a quad, any other count an error. */
  function ScanFace(m: Mesh, line: string, parts: seq<string>): (r: Result<Mesh, ObjError>)
    ensures r.Ok? ==> Extends(m, r.value) && Size(r.value) == Size(m) + 1
    ensures r.Err? ==> r.error.BadFace? || r.error.BadCorner? || r.error.IndexUnderflow?
  {
    if |parts| == 4 then
      match CornersOf(parts[1..])
      case Err(e) => Err(e)
      case Ok(cs) => Ok(m.(faces := m.faces + [Triangle(cs[0], cs[1], cs[2])]))
    else if |parts| == 5 then
      match CornersOf(parts[1..])
      case Err(e) => Err(e)
      case Ok(cs) => Ok(m.(faces := m.faces + [Quad(cs[0], cs[1], cs[2], cs[3])]))
    else Err(BadFace(line))
  }

  /** What one line does to the tables: append at most one entry to one table, or fail.
    * Lines with any other prefix are ignored. */
  function ScanLine(m: Mesh, line: string, parse: string -> Option<F32>): (r: Result<Mesh, ObjError>)
    ensures r.Ok? ==> Extends(m, r.value) && Size(r.value) <= Size(m) + 1
    ensures !StartsWith(line, "v ") && !StartsWith(line, "vn ") && !StartsWith(line, "vt ") && !StartsWith(line, "f ")
            ==> r == Ok(m)
  {
    if StartsWith(line, "v ") then ScanTriple(m, SplitWhitespace(line), parse, false)
    else if StartsWith(line, "vn ") then ScanTriple(m, SplitWhitespace(line), parse, true)
    else if StartsWith(line, "vt ") then ScanPair(m, SplitWhitespace(line), parse)
    else if StartsWith(line, "f ") then ScanFace(m, line, SplitWhitespace(line))
    else Ok(m)
  }

  /** The line loop from tables `m` on: lines in order, stopping at the first error. */
  function ScanFrom(m: Mesh, lines: seq<string>, parse: string -> Option<F32>): (r: Result<Mesh, ObjError>)
    ensures r.Ok? ==> Extends(m, r.value) && Size(r.value) <= Size(m) + |lines|
    decreases |lines|
  {
    if lines == [] then Ok(m)
    else
      match ScanLine(m, lines[0], parse)
      case Err(e) => Err(e)
      case Ok(m') => ScanFrom(m', lines[1..], parse)
  }

  // ---------------------------------------------------------------------------
  // Triangulation and the interleaved buffer
  // ---------------------------------------------------------------------------

  /** The corners a face contributes: a triangle in order, a quad as (0,1,2) and (0,2,3). */
  function FaceCorners(f: Face): seq<Corner>
  {
    match f
    case Triangle(a, b, c) => [a, b, c]
    case Quad(a, b, c, d) => [a, b, c, a, c, d]
  }

  function TriangleCount(faces: seq<Face>): nat
  {
    if faces == [] then 0 else (if faces[0].Triangle? then 1 else 0) + TriangleCount(faces[1..])
  }

  function QuadCount(faces: seq<Face>): nat
  {
    if faces == [] then 0 else (if faces[0].Quad? then 1 else 0) + QuadCount(faces[1..])
  }

  /** The face list flattened into triangle corners, face after face. */
  function Triangulated(faces: seq<Face>): (cs: seq<Corner>)
    ensures |cs| == 3 * TriangleCount(faces) + 6 * QuadCount(faces)
  {
    if faces == [] then [] else FaceCorners(faces[0]) + Triangulated(faces[1..])
  }

  /** Face order is kept: triangulating two runs of faces is triangulating each in turn. */
  lemma {:induction false} TriangulatedAppend(f1: seq<Face>, f2: seq<Face>)
    ensures Triangulated(f1 + f2) == Triangulated(f1) + Triangulated(f2)
  {
    if f1 == [] {
      assert f1 + f2 == f2;
    } else {
      assert (f1 + f2)[1..] == f1[1..] + f2;
      TriangulatedAppend(f1[1..], f2);
    }
  }

  /** A triangle contributes its three corners in order. */
  lemma TriangleInOrder(a: Corner, b: Corner, c: Corner)
    ensures Triangulated([Triangle(a, b, c)]) == [a, b, c]
  {
    assert Triangulated([Triangle(a, b, c)]) == FaceCorners(Triangle(a, b, c)) + Triangulated([]);
  }

  /** A quad becomes the two triangles (c0,c1,c2) and (c0,c2,c3). */
  lemma QuadTriangles(a: Corner, b: Corner, c: Corner, d: Corner)
    ensures Triangulated([Quad(a, b, c, d)]) == [a, b, c] + [a, c, d]
  {
    assert Triangulated([Quad(a, b, c, d)]) == FaceCorners(Quad(a, b, c, d)) + Triangulated([]);
  }

  /** Every index of a corner names an existing entry; textures only count when some were read. */
  predicate InRange(m: Mesh, c: Corner)
  {
    c.v < |m.vertices| && c.vn < |m.normals| && (|m.textures| == 0 || c.vt < |m.textures|)
  }

  /** The eight values of one corner: position `v`, normal `vn`, then texture `vt`,
    * or 0, 0 when no `vt` line was read at all. */
  function Attributes(m: Mesh, c: Corner): seq<F32>
    requires InRange(m, c)
  {
    var p, n := m.vertices[c.v], m.normals[c.vn];
    var t := if |m.textures| == 0 then Vec2(ZERO, ZERO) else m.textures[c.vt];
    [p.x, p.y, p.z, n.x, n.y, n.z, t.u, t.v]
  }

  /** One corner's block, or the panic of the first lookup that is out of range. */
  function Block(m: Mesh, c: Corner): (r: Result<seq<F32>, ObjError>)
    ensures r.Ok? <==> InRange(m, c)
    ensures r.Ok? ==> |r.value| == 8
  {
    if c.v >= |m.vertices| then Err(IndexOutOfRange(Vertices, c.v))
    else if c.vn >= |m.normals| then Err(IndexOutOfRange(Normals, c.vn))
    else if |m.textures| != 0 && c.vt >= |m.textures| then Err(IndexOutOfRange(Textures, c.vt))
    else Ok(Attributes(m, c))
  }

  lemma BlocksShift(b: seq<F32>, rest: seq<F32>, k: nat)
    requires |b| == 8 && 8 * k + 8 <= |rest|
    ensures (b + rest)[8 * (k + 1) .. 8 * (k + 1) + 8] == rest[8 * k .. 8 * k + 8]
  {
  }

  /** The output buffer: one eight-value block per corner, in corner order. */
  function Interleaved(m: Mesh, corners: seq<Corner>): (r: Result<seq<F32>, ObjError>)
    ensures r.Ok? <==> forall c <- corners :: InRange(m, c)
    ensures r.Err? ==> r.error.IndexOutOfRange?
    ensures r.Ok? ==> |r.value| == 8 * |corners|
  {
    if corners == [] then Ok([])
    else
      match Block(m, corners[0])
      case Err(e) => Err(e)
      case Ok(b) =>
        assert forall c <- corners[1..] :: c in corners;
        Prepend(b, Interleaved(m, corners[1..]))
  }

  /** Block `k` of the output is the block of corner `k`. */
  lemma {:induction false} InterleavedBlocks(m: Mesh, corners: seq<Corner>)
    requires Interleaved(m, corners).Ok?
    ensures forall k :: 0 <= k < |corners| ==>
      Block(m, corners[k]) == Ok(Interleaved(m, corners).value[8 * k .. 8 * k + 8])
  {
    if corners != [] {
      var b := Block(m, corners[0]).value;
      var rest := Interleaved(m, corners[1..]).value;
      var out := Interleaved(m, corners).value;
      assert out == b + rest;
      InterleavedBlocks(m, corners[1..]);
      forall k | 0 <= k < |corners|
        ensures Block(m, corners[k]) == Ok(out[8 * k .. 8 * k + 8])
      {
        if k == 0 {
          assert out[..8] == b;
        } else {
          BlocksShift(b, rest, k - 1);
          assert corners[1..][k - 1] == corners[k];
        }
      }
    }
  }

  /** Triangulated corners interleave into whole triangles of 24 values. */
  lemma WholeTriangles(m: Mesh)
    ensures var r := Interleaved(m, Triangulated(m.faces)); r.Ok? ==> |r.value| % 24 == 0
  {
    var cs := Triangulated(m.faces);
    var k := TriangleCount(m.faces) + 2 * QuadCount(m.faces);
    assert |cs| == 3 * k;
    var r := Interleaved(m, cs);
    if r.Ok? {
      assert |r.value| == 24 * k;
    }
  }

  /** `parse_obj` on the lines of a file. */
  function Parsed(lines: seq<string>, parse: string -> Option<F32>): (r: Result<seq<F32>, ObjError>)
    ensures r.Ok? ==> |r.value| % 24 == 0
  {
    match ScanFrom(EMPTY_MESH, lines, parse)
    case Err(e) => Err(e)
    case Ok(m) =>
      WholeTriangles(m);
      Interleaved(m, Triangulated(m.faces))
  }

  // ---------------------------------------------------------------------------
  // The imperative parser
  // ---------------------------------------------------------------------------

  /** The corner loop of a face line (`for i in 1..4` and `for i in 1..5`). */
  method ParseFace(tokens: seq<string>) returns (r: Result<seq<Corner>, ObjError>)
    ensures r == CornersOf(tokens)
  {
    var face: seq<Corner> := [];
    assert tokens[0..] == tokens;
    PrependNothing(CornersOf(tokens));
    for i := 0 to |tokens|
      invariant Prepend(face, CornersOf(tokens[i..])) == CornersOf(tokens)
    {
      var corner := ParseCorner(tokens[i]);
      if corner.Err? {
        return Err(corner.error);
      }
      assert tokens[i..][1..] == tokens[i + 1..];
      PrependPrepend(face, [corner.value], CornersOf(tokens[i + 1..]));
      face := face + [corner.value];
    }
    assert tokens[|tokens|..] == [];
    assert face + [] == face;
    r := Ok(face);
  }

  /** The face loop: each face's corners pushed in order, quads split in two. */
  method Triangulate(faces: seq<Face>) returns (corners: seq<Corner>)
    ensures corners == Triangulated(faces)
  {
    corners := [];
    for i := 0 to |faces|
      invariant corners == Triangulated(faces[..i])
    {
      assert faces[..i + 1] == faces[..i] + [faces[i]];
      TriangulatedAppend(faces[..i], [faces[i]]);
      match faces[i]
      case Quad(a, b, c, d) =>
        QuadTriangles(a, b, c, d);
        corners := corners + [a, b, c, a, c, d];
      case Triangle(a, b, c) =>
        TriangleInOrder(a, b, c);
        corners := corners + [a, b, c];
    }
    assert faces[..|faces|] == faces;
  }

  /** The body of the output loop: push the position of `c`, its normal, then its texture
    * coordinates, or 0, 0 when no `vt` line was read; an index past the end panics. */
  method PushCorner(m: Mesh, c: Corner, res: seq<F32>) returns (r: Result<seq<F32>, ObjError>)
    ensures r == Prepend(res, Block(m, c))
  {
    var out := res;
    if c.v >= |m.vertices| {
      return Err(IndexOutOfRange(Vertices, c.v));
    }
    var p := m.vertices[c.v];
    out := out + [p.x, p.y, p.z];
    if c.vn >= |m.normals| {
      return Err(IndexOutOfRange(Normals, c.vn));
    }
    var n := m.normals[c.vn];
    out := out + [n.x, n.y, n.z];
    if |m.textures| == 0 {
      out := out + [ZERO, ZERO];
      assert out == res + [p.x, p.y, p.z, n.x, n.y, n.z, ZERO, ZERO];
      return Ok(out);
    }
    if c.vt >= |m.textures| {
      return Err(IndexOutOfRange(Textures, c.vt));
    }
    var t := m.textures[c.vt];
    out := out + [t.u, t.v];
    assert out == res + [p.x, p.y, p.z, n.x, n.y, n.z, t.u, t.v];
    return Ok(out);
  }

  /** The output loop over the triangulated corners. */
  method Interleave(m: Mesh, corners: seq<Corner>) returns (r: Result<seq<F32>, ObjError>)
    ensures r == Interleaved(m, corners)
  {
    var res: seq<F32> := [];
    assert corners[0..] == corners;
    PrependNothing(Interleaved(m, corners));
    for i := 0 to |corners|
      invariant Prepend(res, Interleaved(m, corners[i..])) == Interleaved(m, corners)
    {
      assert corners[i..][0] == corners[i] && corners[i..][1..] == corners[i + 1..];
      var next := PushCorner(m, corners[i], res);
      if next.Err? {
        return next;
      }
      PrependPrepend(res, Block(m, corners[i]).value, Interleaved(m, corners[i + 1..]));
      res := next.value;
    }
    assert corners[|corners|..] == [];
    assert res + [] == res;
    r := Ok(res);
  }

  /** `parse_obj`: the line loop filling the four tables, then triangulation, then the
    * interleaved buffer. */
  method ParseObj(lines: seq<string>, parse: string -> Option<F32>) returns (r: Result<seq<F32>, ObjError>)
    ensures r == Parsed(lines, parse)
  {
    var vertices: seq<Vec3> := [];
    var normals: seq<Vec3> := [];
    var textures: seq<Vec2> := [];
    var faces: seq<Face> := [];
    for i := 0 to |lines|
      invariant ScanFrom(Mesh(vertices, normals, textures, faces), lines[i..], parse) == ScanFrom(EMPTY_MESH, lines, parse)
    {
      var line := lines[i];
      ghost var before := Mesh(vertices, normals, textures, faces);
      assert lines[i..][0] == line && lines[i..][1..] == lines[i + 1..];
      PrefixesExclusive(line);
      if StartsWith(line, "v ") {
        var parts := SplitWhitespace(line);
        if |parts| == 4 {
          var x := parse(parts[1]);
          if x.None? { return Err(BadCoordinate(0)); }
          var y := parse(parts[2]);
          if y.None? { return Err(BadCoordinate(1)); }
          var z := parse(parts[3]);
          if z.None? { return Err(BadCoordinate(2)); }
          vertices := vertices + [Vec3(x.value, y.value, z.value)];
        }
      }
      if StartsWith(line, "vn ") {
        var parts := SplitWhitespace(line);
        if |parts| == 4 {
          var x := parse(parts[1]);
          if x.None? { return Err(BadCoordinate(0)); }
          var y := parse(parts[2]);
          if y.None? { return Err(BadCoordinate(1)); }
          var z := parse(parts[3]);
          if z.None? { return Err(BadCoordinate(2)); }
          normals := normals + [Vec3(x.value, y.value, z.value)];
        }
      }
      if StartsWith(line, "vt ") {
        var parts := SplitWhitespace(line);
        if |parts| >= 3 {
          var x := parse(parts[1]);
          if x.None? { return Err(BadCoordinate(0)); }
          var y := parse(parts[2]);
          if y.None? { return Err(BadCoordinate(1)); }
          textures := textures + [Vec2(x.value, y.value)];
        }
      }
      if StartsWith(line, "f ") {
        var parts := SplitWhitespace(line);
        if |parts| == 4 {
          var face := ParseFace(parts[1..]);
          if face.Err? { return Err(face.error); }
          faces := faces + [Triangle(face.value[0], face.value[1], face.value[2])];
        } else if |parts| == 5 {
          var face := ParseFace(parts[1..]);
          if face.Err? { return Err(face.error); }
          faces := faces + [Quad(face.value[0], face.value[1], face.value[2], face.value[3])];
        } else {
          return Err(BadFace(line));
        }
      }
      assert ScanLine(before, line, parse) == Ok(Mesh(vertices, normals, textures, faces));
    }
    assert lines[|lines|..] == [];
    var mesh := Mesh(vertices, normals, textures, faces);
    var corners := Triangulate(faces);
    r := Interleave(mesh, corners);
  }

  // ---------------------------------------------------------------------------
  // Properties of the line classification and of the output
  // ---------------------------------------------------------------------------

  /** A `v ` (or `vn `) line with exactly four tokens appends one triple, or fails at the
    * first coordinate that does not parse; any other token count leaves the tables as they were. */
  lemma PositionLine(m: Mesh, line: string, parse: string -> Option<F32>)
    requires StartsWith(line, "v ") || StartsWith(line, "vn ")
    ensures var parts := SplitWhitespace(line);
      && (|parts| != 4 ==> ScanLine(m, line, parse) == Ok(m))
      && (|parts| == 4 && parse(parts[1]).None? ==> ScanLine(m, line, parse) == Err(BadCoordinate(0)))
      && (|parts| == 4 && parse(parts[1]).Some? && parse(parts[2]).None? ==>
            ScanLine(m, line, parse) == Err(BadCoordinate(1)))
      && (|parts| == 4 && parse(parts[1]).Some? && parse(parts[2]).Some? && parse(parts[3]).None? ==>
            ScanLine(m, line, parse) == Err(BadCoordinate(2)))
      && (|parts| == 4 && parse(parts[1]).Some? && parse(parts[2]).Some? && parse(parts[3]).Some? ==>
            var p := Vec3(parse(parts[1]).value, parse(parts[2]).value, parse(parts[3]).value);
            ScanLine(m, line, parse) ==
              if StartsWith(line, "v ") then Ok(m.(vertices := m.vertices + [p]))
              else Ok(m.(normals := m.normals + [p])))
  {
    PrefixesExclusive(line);
  }

  /** A `vt ` line with at least three tokens appends the pair of tokens 1 and 2, or fails
    * at the first of them that does not parse; a shorter line is ignored. */
  lemma TextureLine(m: Mesh, line: string, parse: string -> Option<F32>)
    requires StartsWith(line, "vt ")
    ensures var parts := SplitWhitespace(line);
      && (|parts| < 3 ==> ScanLine(m, line, parse) == Ok(m))
      && (|parts| >= 3 && parse(parts[1]).None? ==> ScanLine(m, line, parse) == Err(BadCoordinate(0)))
      && (|parts| >= 3 && parse(parts[1]).Some? && parse(parts[2]).None? ==>
            ScanLine(m, line, parse) == Err(BadCoordinate(1)))
      && (|parts| >= 3 && parse(parts[1]).Some? && parse(parts[2]).Some? ==>
            ScanLine(m, line, parse) == Ok(m.(textures := m.textures + [Vec2(parse(parts[1]).value, parse(parts[2]).value)])))
  {
    PrefixesExclusive(line);
  }

  /** An `f ` line with three corners is a triangle, with four a quad, and with any
    * other count an error; one malformed corner fails the whole line. */
  lemma FaceLine(m: Mesh, line: string, parse: string -> Option<F32>)
    requires StartsWith(line, "f ")
    ensures var parts := SplitWhitespace(line);
      && (|parts| != 4 && |parts| != 5 ==> ScanLine(m, line, parse) == Err(BadFace(line)))
      && (|parts| == 4 || |parts| == 5 ==>
            (ScanLine(m, line, parse).Ok? <==> forall t <- parts[1..] :: ParseCorner(t).Ok?))
      && (|parts| == 4 && CornersOf(parts[1..]).Ok? ==>
            var cs := CornersOf(parts[1..]).value;
            ScanLine(m, line, parse) == Ok(m.(faces := m.faces + [Triangle(cs[0], cs[1], cs[2])])))
      && (|parts| == 5 && CornersOf(parts[1..]).Ok? ==>
            var cs := CornersOf(parts[1..]).value;
            ScanLine(m, line, parse) == Ok(m.(faces := m.faces + [Quad(cs[0], cs[1], cs[2], cs[3])])))
  {
    PrefixesExclusive(line);
  }

  /** A corner that does not have exactly two '/' makes the whole parse fail, whatever follows. */
  lemma {:induction false} BadCornerFails(before: seq<string>, line: string, after: seq<string>, parse: string -> Option<F32>)
    requires StartsWith(line, "f ")
    requires ScanFrom(EMPTY_MESH, before, parse).Ok?
    requires var parts := SplitWhitespace(line); exists t <- parts[1..] :: Count(t, '/') != 2
    ensures Parsed(before + [line] + after, parse).Err?
  {
    ScanAppendErr(EMPTY_MESH, before, line, after, parse);
    var parts := SplitWhitespace(line);
    FaceLine(ScanFrom(EMPTY_MESH, before, parse).value, line, parse);
  }

  lemma {:induction false} ScanAppendErr(m: Mesh, before: seq<string>, line: string, after: seq<string>, parse: string -> Option<F32>)
    requires ScanFrom(m, before, parse).Ok?
    requires ScanLine(ScanFrom(m, before, parse).value, line, parse).Err?
    ensures ScanFrom(m, before + [line] + after, parse) == ScanLine(ScanFrom(m, before, parse).value, line, parse)
    decreases |before|
  {
    if before == [] {
      assert before + [line] + after == [line] + after;
      assert ([line] + after)[1..] == after;
    } else {
      assert (before + [line] + after)[0] == before[0];
      assert (before + [line] + after)[1..] == before[1..] + [line] + after;
      ScanAppendErr(ScanLine(m, before[0], parse).value, before[1..], line, after, parse);
    }
  }

  /** The output holds eight values per corner, three corners per triangle and six per quad. */
  lemma ParsedLength(lines: seq<string>, parse: string -> Option<F32>)
    requires Parsed(lines, parse).Ok?
    ensures ScanFrom(EMPTY_MESH, lines, parse).Ok?
    ensures var faces := ScanFrom(EMPTY_MESH, lines, parse).value.faces;
      |Parsed(lines, parse).value| == 8 * (3 * TriangleCount(faces) + 6 * QuadCount(faces))
  {
  }

  /** Block `k` of the output holds the attributes of corner `k`. */
  lemma CornerAttributes(m: Mesh, corners: seq<Corner>, k: nat)
    requires Interleaved(m, corners).Ok? && k < |corners|
    ensures InRange(m, corners[k])
    ensures Interleaved(m, corners).value[8 * k .. 8 * k + 8] == Attributes(m, corners[k])
  {
    InterleavedBlocks(m, corners);
  }
}
