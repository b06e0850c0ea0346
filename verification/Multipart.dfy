/** Searching byte strings for a delimiter. */
module ByteSearch {
  import opened Basics

  type Bytes = seq<bv8>

  predicate StartsWith(h: Bytes, d: Bytes) { |d| <= |h| && h[..|d|] == d }

  predicate OccursAt(h: Bytes, d: Bytes, i: int) { 0 <= i <= |h| - |d| && h[i..i + |d|] == d }

  /** The first occurrence of `d` in `h` at or after `from`. */
  function FindFrom(h: Bytes, d: Bytes, from: nat): (r: Option<nat>)
    ensures r.Some? ==> r.value >= from && OccursAt(h, d, r.value) && forall j | from <= j < r.value ::
      !OccursAt(h, d, j)
    ensures r.None? ==> forall j | from <= j :: !OccursAt(h, d, j)
    decreases |h| - from
  {
    if from + |d| > |h| then None
    else if OccursAt(h, d, from) then Some(from)
    else FindFrom(h, d, from + 1)
  }

  predicate Contains(h: Bytes, d: Bytes) { FindFrom(h, d, 0).Some? }

  /** The first byte of `d` does not come back in it, so `d` cannot overlap itself. */
  predicate NoOverlap(d: Bytes) { d != [] && d[0] !in d[1..] }

  /** No occurrence begins inside `p` and ends inside the delimiter that follows it. */
  lemma NoStraddle(p: Bytes, d: Bytes, rest: Bytes, i: nat)
    requires NoOverlap(d) && i < |p| < i + |d| <= |p + d + rest|
    ensures (p + d + rest)[i..i + |d|] != d
  {
    var k := |p| - i;
    assert (p + d + rest)[i..i + |d|][k] == d[0];
    assert d[1..][k - 1] in d[1..];
    assert d[k] != d[0];
  }

  /** Behind a prefix that is free of it, a delimiter that cannot overlap itself is found where it
      stands; otherwise an occurrence inside the prefix is found. */
  lemma FindsDelimiter(p: Bytes, d: Bytes, rest: Bytes)
    requires NoOverlap(d)
    ensures var r := FindFrom(p + d + rest, d, 0);
      && r.Some?
      && (if Contains(p, d) then r.value + |d| <= |p| else r.value == |p|)
  {
    var h := p + d + rest;
    assert OccursAt(h, d, |p|);
    forall i | 0 <= i <= |h| - |d| && i < |p| ensures OccursAt(h, d, i) <==> OccursAt(p, d, i) {
      if |p| < i + |d| {
        NoStraddle(p, d, rest, i);
      } else {
        assert h[i..i + |d|] == p[i..i + |d|];
      }
    }
  }

  /** A byte string without `c` that does not occur in `x` or in `y` does not occur in `x + y`
      when `x` ends in `c` or `y` begins with it. */
  lemma NotAcross(x: Bytes, y: Bytes, d: Bytes, c: bv8)
    requires !Contains(x, d) && !Contains(y, d) && c !in d && d != []
    requires x == [] || x[|x| - 1] == c || y == [] || y[0] == c
    ensures !Contains(x + y, d)
  {
    var h := x + y;
    forall i ensures !OccursAt(h, d, i) {
      if 0 <= i <= |h| - |d| {
        var w := h[i..i + |d|];
        if i + |d| <= |x| {
          assert w == x[i..i + |d|] && !OccursAt(x, d, i);
        } else if i >= |x| {
          assert w == y[i - |x|..i - |x| + |d|] && !OccursAt(y, d, i - |x|);
        } else {
          assert w[|x| - 1 - i] == x[|x| - 1] && w[|x| - i] == y[0];
          assert c in w;
        }
      }
    }
  }

  // ---- regrouping concatenations ----

  lemma Join3(a: Bytes, b: Bytes, c: Bytes, d: Bytes)
    ensures a + (b + c + d) == a + b + c + d
  {
  }

  lemma Join2(a: Bytes, b: Bytes, c: Bytes)
    ensures a + (b + c) == a + b + c
  {
  }
}

/** What `MultipartFormData` prints, and a parser for it after section 5.1.1 of RFC 2046. */
module MultipartFormat {
  import opened Basics
  import opened ByteSearch

  const CR: bv8 := 13
  const LF: bv8 := 10
  const CRLF: Bytes := [13, 10]
  const DASHES: Bytes := [45, 45]
  const COLON_SPACE: Bytes := [58, 32]

  datatype Header = Header(key: Bytes, value: Bytes)

  /** `headers` lists the dictionary in its iteration order. */
  datatype Part = Part(headers: seq<Header>, body: Bytes)

  datatype BoundaryType = Initial | Encapsulated | Final

  function BoundaryData(t: BoundaryType, boundary: Bytes): Bytes {
    match t
    case Initial => DASHES + boundary + CRLF
    case Encapsulated => CRLF + DASHES + boundary + CRLF
    case Final => CRLF + DASHES + boundary + DASHES + CRLF
  }

  function HeaderLine(h: Header): Bytes { h.key + COLON_SPACE + h.value }

  function HeaderLines(hs: seq<Header>): Bytes {
    if hs == [] then [] else HeaderLines(hs[..|hs| - 1]) + HeaderLine(hs[|hs| - 1]) + CRLF
  }

  function EncodedHeaders(hs: seq<Header>): Bytes { HeaderLines(hs) + CRLF }

  /** What stands between two boundaries. */
  function Block(p: Part): Bytes { EncodedHeaders(p.headers) + p.body }

  function PartData(p: Part, initial: bool, final: bool, boundary: Bytes): Bytes {
    BoundaryData(if initial then Initial else Encapsulated, boundary) + Block(p)
    + if final then BoundaryData(Final, boundary) else []
  }

  /** The first `n` parts, flagged as `encode` flags them. */
  function EncodedTo(parts: seq<Part>, boundary: Bytes, n: nat): Bytes
    requires n <= |parts|
  {
    if n == 0 then []
    else EncodedTo(parts, boundary, n - 1) + PartData(parts[n - 1], n == 1, n == |parts|, boundary)
  }

  function Encoded(parts: seq<Part>, boundary: Bytes): Bytes { EncodedTo(parts, boundary, |parts|) }

  // ---- the parser ----

  function Delimiter(boundary: Bytes): Bytes { CRLF + DASHES + boundary }

  function SkipPadding(h: Bytes): (r: Bytes)
    ensures |r| <= |h|
  {
    if h != [] && (h[0] == 32 || h[0] == 9) then SkipPadding(h[1..]) else h
  }

  /** `h` follows a dash-boundary: the rest of the body parts, up to the close delimiter. */
  function ParseBlocks(h: Bytes, boundary: Bytes): Option<seq<Bytes>>
    decreases |h|
  {
    if StartsWith(h, DASHES) then Some([])
    else
      var line := SkipPadding(h);
      if !StartsWith(line, CRLF) then None
      else
        var content := line[2..];
        match FindFrom(content, Delimiter(boundary), 0)
        case None => None
        case Some(i) =>
          match ParseBlocks(content[i + |Delimiter(boundary)|..], boundary)
          case None => None
          case Some(more) => Some([content[..i]] + more)
  }

  /** Header lines up to the empty line. */
  function ParsePart(block: Bytes): Option<Part>
    decreases |block|
  {
    match FindFrom(block, CRLF, 0)
    case None => None
    case Some(0) => Some(Part([], block[2..]))
    case Some(i) =>
      match FindFrom(block[..i], COLON_SPACE, 0)
      case None => None
      case Some(j) =>
        match ParsePart(block[i + 2..])
        case None => None
        case Some(p) => Some(Part([Header(block[..j], block[j + 2..i])] + p.headers, p.body))
  }

  function ParseParts(blocks: seq<Bytes>): Option<seq<Part>> {
    if blocks == [] then Some([])
    else
      match (ParsePart(blocks[0]), ParseParts(blocks[1..]))
      case (Some(p), Some(ps)) => Some([p] + ps)
      case _ => None
  }

  /** An optional preamble, then the body parts; what follows the close delimiter is ignored. */
  function Parse(h: Bytes, boundary: Bytes): Option<seq<Part>> {
    var start :=
      if StartsWith(h, DASHES + boundary) then Some(h[2 + |boundary|..])
      else match FindFrom(h, Delimiter(boundary), 0)
        case None => None
        case Some(i) => Some(h[i + |Delimiter(boundary)|..]);
    match start
    case None => None
    case Some(rest) =>
      match ParseBlocks(rest, boundary)
      case Some(blocks) => if blocks == [] then None else ParseParts(blocks)
      case None => None
  }
}

/** The printer and the parser undo each other. */
module MultipartTheorems {
  import opened Basics
  import opened ByteSearch
  import opened MultipartFormat

  /** Header fields that the line syntax can carry. */
  ghost predicate Carried(h: Header) {
    !Contains(HeaderLine(h), CRLF) && !Contains(h.key, COLON_SPACE)
  }

  ghost predicate AllCarried(parts: seq<Part>) {
    forall p <- parts :: forall h <- p.headers :: Carried(h)
  }

  lemma {:induction false} HeaderLinesFromFront(hs: seq<Header>)
    requires hs != []
    ensures HeaderLines(hs) == HeaderLine(hs[0]) + CRLF + HeaderLines(hs[1..])
  {
    var n := |hs| - 1;
    var first := HeaderLine(hs[0]) + CRLF;
    if n == 0 {
      assert hs[..0] == [] && hs[1..] == [];
      assert HeaderLines(hs) == [] + HeaderLine(hs[0]) + CRLF;
    } else {
      HeaderLinesFromFront(hs[..n]);
      var rest := HeaderLines(hs[1..n]);
      assert hs[..n][1..] == hs[1..n] == hs[1..][..n - 1];
      assert HeaderLines(hs[1..]) == rest + HeaderLine(hs[n]) + CRLF;
      Join3(first, rest, HeaderLine(hs[n]), CRLF);
    }
  }

  lemma BlockFromFront(p: Part)
    requires p.headers != []
    ensures Block(p) == HeaderLine(p.headers[0]) + CRLF + Block(Part(p.headers[1..], p.body))
  {
    HeaderLinesFromFront(p.headers);
    Join3(HeaderLine(p.headers[0]) + CRLF, HeaderLines(p.headers[1..]), CRLF, p.body);
  }

  lemma Slices(a: Bytes, d: Bytes, c: Bytes)
    ensures (a + d + c)[..|a|] == a && (a + d + c)[|a| + |d|..] == c
  {
  }

  lemma KeyAndValue(h: Header, rest: Bytes)
    ensures var b := HeaderLine(h) + CRLF + rest;
      b[..|h.key|] == h.key && b[|h.key| + 2..|HeaderLine(h)|] == h.value
  {
    var b := HeaderLine(h) + CRLF + rest;
    assert b[..|h.key|] == HeaderLine(h)[..|h.key|];
    assert b[|h.key| + 2..|HeaderLine(h)|] == HeaderLine(h)[|h.key| + 2..];
  }

  lemma LineParses(h: Header, rest: Bytes)
    requires Carried(h)
    ensures ParsePart(HeaderLine(h) + CRLF + rest)
         == match ParsePart(rest)
            case None => None
            case Some(p) => Some(Part([h] + p.headers, p.body))
  {
    FindsDelimiter(HeaderLine(h), CRLF, rest);
    FindsDelimiter(h.key, COLON_SPACE, h.value);
    Slices(HeaderLine(h), CRLF, rest);
    KeyAndValue(h, rest);
  }

  /** A block parses back to its part. */
  lemma {:induction false} BlockParses(p: Part)
    requires forall h <- p.headers :: Carried(h)
    ensures ParsePart(Block(p)) == Some(p)
    decreases |p.headers|
  {
    if p.headers == [] {
      assert Block(p) == CRLF + p.body;
      assert OccursAt(Block(p), CRLF, 0);
    } else {
      var h, q := p.headers[0], Part(p.headers[1..], p.body);
      BlockFromFront(p);
      LineParses(h, Block(q));
      BlockParses(q);
      assert [h] + q.headers == p.headers;
    }
  }

  lemma SplitAt(b: Bytes, i: nat)
    requires OccursAt(b, CRLF, i)
    ensures b == b[..i] + CRLF + b[i + 2..]
  {
    assert b == b[..i] + b[i..i + 2] + b[i + 2..];
  }

  lemma LineSplits(line: Bytes, j: nat)
    requires OccursAt(line, COLON_SPACE, j)
    ensures HeaderLine(Header(line[..j], line[j + 2..])) == line
  {
    assert line == line[..j] + line[j..j + 2] + line[j + 2..];
  }

  /** Whatever parses as a part prints as the same block. */
  lemma {:induction false} ParsedPrints(block: Bytes)
    requires ParsePart(block).Some?
    ensures Block(ParsePart(block).value) == block
    decreases |block|
  {
    var i := FindFrom(block, CRLF, 0).value;
    SplitAt(block, i);
    if i == 0 {
      assert [] + CRLF + block[2..] == CRLF + block[2..];
    } else {
      var line := block[..i];
      var j := FindFrom(line, COLON_SPACE, 0).value;
      LineSplits(line, j);
      assert block[..j] == line[..j] && block[j + 2..i] == line[j + 2..];
      var p, q := ParsePart(block).value, ParsePart(block[i + 2..]).value;
      ParsedPrints(block[i + 2..]);
      assert p == Part([Header(line[..j], line[j + 2..])] + q.headers, q.body);
      assert p.headers[1..] == q.headers;
      BlockFromFront(p);
    }
  }

  /** What follows the block of part `n - 1` begins with a delimiter. */
  function After(parts: seq<Part>, boundary: Bytes, n: nat): Bytes
    requires n <= |parts|
    decreases |parts| - n
  {
    if n == |parts| then Delimiter(boundary) + (DASHES + CRLF)
    else Delimiter(boundary) + (CRLF + Block(parts[n]) + After(parts, boundary, n + 1))
  }

  lemma JoinParts(e: Bytes, start: Bytes, b: Bytes, d: Bytes, c: Bytes, b2: Bytes, a: Bytes)
    ensures e + (start + b + []) + (d + c) + b2 + a == e + start + b + (d + (c + b2 + a))
  {
    assert start + b + [] == start + b;
    Join2(e, start, b);
    Join2(e + start + b, d, c);
    Join3(e + start + b + d, c, b2, a);
    Join2(e + start + b, d, c + b2 + a);
  }

  lemma {:induction false} EncodedSplits(parts: seq<Part>, boundary: Bytes, n: nat)
    requires 0 < n <= |parts|
    ensures Encoded(parts, boundary)
         == EncodedTo(parts, boundary, n - 1) + BoundaryData(if n == 1 then Initial else Encapsulated, boundary)
          + Block(parts[n - 1]) + After(parts, boundary, n)
    decreases |parts| - n
  {
    var start := BoundaryData(if n == 1 then Initial else Encapsulated, boundary);
    if n == |parts| {
      assert BoundaryData(Final, boundary) == Delimiter(boundary) + (DASHES + CRLF);
      Join3(EncodedTo(parts, boundary, n - 1), start, Block(parts[n - 1]), BoundaryData(Final, boundary));
    } else {
      EncodedSplits(parts, boundary, n + 1);
      assert BoundaryData(Encapsulated, boundary) == Delimiter(boundary) + CRLF;
      JoinParts(EncodedTo(parts, boundary, n - 1), start, Block(parts[n - 1]), Delimiter(boundary), CRLF,
                Block(parts[n]), After(parts, boundary, n + 1));
    }
  }

  function Blocks(parts: seq<Part>): seq<Bytes> { seq(|parts|, i requires 0 <= i < |parts| => Block(parts[i])) }

  /** No block contains the delimiter. */
  ghost predicate DelimiterFree(parts: seq<Part>, boundary: Bytes) {
    forall p <- parts :: !Contains(Block(p), Delimiter(boundary))
  }

  lemma DelimiterCannotOverlap(boundary: Bytes)
    requires CR !in boundary
    ensures NoOverlap(Delimiter(boundary))
  {
  }

  /** One block between delimiters: it is read whole if it is free of the delimiter, and cut otherwise. */
  lemma BlockStep(b: Bytes, tail: Bytes, boundary: Bytes)
    requires CR !in boundary
    ensures var r := ParseBlocks(CRLF + (b + Delimiter(boundary) + tail), boundary);
      if Contains(b, Delimiter(boundary)) then r.Some? ==> r.value != [] && |r.value[0]| < |b|
      else r == match ParseBlocks(tail, boundary)
                case None => None
                case Some(more) => Some([b] + more)
  {
    var d := Delimiter(boundary);
    var content := b + d + tail;
    var h := CRLF + content;
    assert h[..2] == CRLF && h[2..] == content && !StartsWith(h, DASHES) && SkipPadding(h) == h;
    DelimiterCannotOverlap(boundary);
    FindsDelimiter(b, d, tail);
    Slices(b, d, tail);
  }

  /** What the parser sees behind the `n`-th delimiter. */
  function Rest(parts: seq<Part>, boundary: Bytes, n: nat): Bytes
    requires n <= |parts|
  {
    if n == |parts| then DASHES + CRLF else CRLF + Block(parts[n]) + After(parts, boundary, n + 1)
  }

  lemma RestSplits(parts: seq<Part>, boundary: Bytes, n: nat)
    requires n < |parts|
    ensures Rest(parts, boundary, n) == CRLF + (Block(parts[n]) + Delimiter(boundary) + Rest(parts, boundary, n + 1))
  {
    var d, rest := Delimiter(boundary), Rest(parts, boundary, n + 1);
    assert After(parts, boundary, n + 1) == d + rest;
    Join2(Block(parts[n]), d, rest);
    Join2(CRLF, Block(parts[n]), d + rest);
  }

  /** One step of the parser: `before` is what it makes of a block `b` and of what follows, `after`
      what it makes of the latter alone. A block that clashes with the delimiter is cut. */
  ghost predicate ParserStep(before: Option<seq<Bytes>>, after: Option<seq<Bytes>>, b: Bytes, clash: bool) {
    if clash then before.Some? ==> before.value != [] && |before.value[0]| < |b|
    else before == if after.None? then None else Some([b] + after.value)
  }

  lemma StepReads(before: Option<seq<Bytes>>, after: Option<seq<Bytes>>, b: Bytes, rest: seq<Bytes>)
    requires ParserStep(before, after, b, false) && after == Some(rest)
    ensures before == Some([b] + rest)
  {
  }

  /** Without a clash the parser reads every block. */
  lemma {:induction false} StepsRead(rs: seq<Option<seq<Bytes>>>, blocks: seq<Bytes>, n: nat)
    requires |rs| == |blocks| + 1 && n <= |blocks| && rs[|blocks|] == Some([])
    requires forall m | 0 <= m < |blocks| :: ParserStep(rs[m], rs[m + 1], blocks[m], false)
    ensures rs[n] == Some(blocks[n..])
    decreases |blocks| - n
  {
    if n < |blocks| {
      StepsRead(rs, blocks, n + 1);
      assert ParserStep(rs[n], rs[n + 1], blocks[n], false);
      StepReads(rs[n], rs[n + 1], blocks[n], blocks[n + 1..]);
      assert blocks[n..] == [blocks[n]] + blocks[n + 1..];
    }
  }

  /** With one, some block comes out too short. */
  lemma {:induction false} StepsCut(rs: seq<Option<seq<Bytes>>>, blocks: seq<Bytes>, clash: seq<bool>, n: nat, i: nat)
      returns (k: nat)
    requires |rs| == |blocks| + 1 && |clash| == |blocks| && n <= i < |blocks| && clash[i]
    requires forall m | 0 <= m < |blocks| :: ParserStep(rs[m], rs[m + 1], blocks[m], clash[m])
    ensures n + k < |blocks|
    ensures rs[n].Some? ==> k < |rs[n].value| && |rs[n].value[k]| < |blocks[n + k]|
    decreases |blocks| - n
  {
    assert ParserStep(rs[n], rs[n + 1], blocks[n], clash[n]);
    k := 0;
    if !clash[n] {
      k := StepsCut(rs, blocks, clash, n + 1, i);
      k := k + 1;
    }
  }

  lemma RestStep(parts: seq<Part>, boundary: Bytes, n: nat)
    requires CR !in boundary && n < |parts|
    ensures ParserStep(ParseBlocks(Rest(parts, boundary, n), boundary),
                       ParseBlocks(Rest(parts, boundary, n + 1), boundary),
                       Block(parts[n]), Contains(Block(parts[n]), Delimiter(boundary)))
  {
    RestSplits(parts, boundary, n);
    BlockStep(Block(parts[n]), Rest(parts, boundary, n + 1), boundary);
  }

  ghost function Clashes(parts: seq<Part>, boundary: Bytes): seq<bool> {
    seq(|parts|, m requires 0 <= m < |parts| => Contains(Block(parts[m]), Delimiter(boundary)))
  }

  /** What the parser makes of each tail of the encoding. */
  ghost function Results(parts: seq<Part>, boundary: Bytes): seq<Option<seq<Bytes>>> {
    seq(|parts| + 1, m requires 0 <= m < |parts| + 1 => ParseBlocks(Rest(parts, boundary, m), boundary))
  }

  lemma CloseDelimiterEnds(boundary: Bytes)
    ensures ParseBlocks(DASHES + CRLF, boundary) == Some([])
  {
    assert (DASHES + CRLF)[..2] == DASHES;
  }

  lemma ResultsStep(parts: seq<Part>, boundary: Bytes, n: nat)
    requires CR !in boundary && n < |parts|
    ensures ParserStep(Results(parts, boundary)[n], Results(parts, boundary)[n + 1],
                       Blocks(parts)[n], Clashes(parts, boundary)[n])
  {
    RestStep(parts, boundary, n);
  }

  /** The parser reads all blocks if each is free of the delimiter; otherwise it cuts one short. */
  lemma BlocksParse(parts: seq<Part>, boundary: Bytes)
    requires CR !in boundary
    ensures var r := Results(parts, boundary)[0];
      if DelimiterFree(parts, boundary) then r == Some(Blocks(parts))
      else r.Some? ==> r.value != Blocks(parts)
  {
    CloseDelimiterEnds(boundary);
    forall n | 0 <= n < |parts|
      ensures ParserStep(Results(parts, boundary)[n], Results(parts, boundary)[n + 1],
                         Blocks(parts)[n], Clashes(parts, boundary)[n])
    {
      ResultsStep(parts, boundary, n);
    }
    BlocksFollow(parts, boundary, Results(parts, boundary));
  }

  lemma BlocksFollow(parts: seq<Part>, boundary: Bytes, rs: seq<Option<seq<Bytes>>>)
    requires |rs| == |parts| + 1 && rs[|parts|] == Some([])
    requires forall m | 0 <= m < |parts| :: ParserStep(rs[m], rs[m + 1], Blocks(parts)[m], Clashes(parts, boundary)[m])
    ensures if DelimiterFree(parts, boundary) then rs[0] == Some(Blocks(parts))
      else rs[0].Some? ==> rs[0].value != Blocks(parts)
  {
    ClashesMeet(parts, boundary);
    StepsFollow(rs, Blocks(parts), Clashes(parts, boundary));
  }

  lemma ClashesMeet(parts: seq<Part>, boundary: Bytes)
    ensures DelimiterFree(parts, boundary) <==> true !in Clashes(parts, boundary)
  {
    var clash := Clashes(parts, boundary);
    if DelimiterFree(parts, boundary) {
      assert forall m | 0 <= m < |parts| :: parts[m] in parts && !clash[m];
    } else {
      var p :| p in parts && Contains(Block(p), Delimiter(boundary));
      var m :| 0 <= m < |parts| && parts[m] == p;
      assert clash[m];
    }
  }

  lemma StepsFollow(rs: seq<Option<seq<Bytes>>>, blocks: seq<Bytes>, clash: seq<bool>)
    requires |rs| == |blocks| + 1 && |clash| == |blocks| && rs[|blocks|] == Some([])
    requires forall m | 0 <= m < |blocks| :: ParserStep(rs[m], rs[m + 1], blocks[m], clash[m])
    ensures if true !in clash then rs[0] == Some(blocks) else rs[0].Some? ==> rs[0].value != blocks
  {
    if true in clash {
      var i :| 0 <= i < |clash| && clash[i];
      var k := StepsCut(rs, blocks, clash, 0, i);
    } else {
      forall m | 0 <= m < |blocks| ensures ParserStep(rs[m], rs[m + 1], blocks[m], false) {
        assert clash[m] in clash;
      }
      StepsRead(rs, blocks, 0);
      assert blocks[0..] == blocks;
    }
  }

  lemma PartsParseStep(b: Bytes, bs: seq<Bytes>)
    ensures ParseParts([b] + bs)
         == match (ParsePart(b), ParseParts(bs))
            case (Some(p), Some(ps)) => Some([p] + ps)
            case _ => None
  {
    assert ([b] + bs)[1..] == bs;
  }

  lemma BlocksOfMore(p: Part, ps: seq<Part>)
    ensures Blocks([p] + ps) == [Block(p)] + Blocks(ps)
  {
  }

  lemma OneMoreParses(p: Part, ps: seq<Part>)
    requires ParsePart(Block(p)) == Some(p) && ParseParts(Blocks(ps)) == Some(ps)
    ensures ParseParts(Blocks([p] + ps)) == Some([p] + ps)
  {
    BlocksOfMore(p, ps);
    PartsParseStep(Block(p), Blocks(ps));
  }

  lemma {:induction false} PartsParse(parts: seq<Part>)
    requires AllCarried(parts)
    ensures ParseParts(Blocks(parts)) == Some(parts)
  {
    if parts == [] {
      assert Blocks(parts) == [];
    } else {
      var p, ps := parts[0], parts[1..];
      assert p in parts && parts == [p] + ps;
      BlockParses(p);
      PartsParse(ps);
      OneMoreParses(p, ps);
    }
  }

  lemma {:induction false} ParsedPartsPrint(blocks: seq<Bytes>)
    requires ParseParts(blocks).Some?
    ensures Blocks(ParseParts(blocks).value) == blocks
  {
    if blocks != [] {
      var b, bs := blocks[0], blocks[1..];
      assert blocks == [b] + bs;
      PartsParseStep(b, bs);
      ParsedPrints(b);
      ParsedPartsPrint(bs);
      BlocksOfMore(ParsePart(b).value, ParseParts(bs).value);
    }
  }

  lemma EncodedBegins(parts: seq<Part>, boundary: Bytes)
    requires parts != []
    ensures Encoded(parts, boundary) == DASHES + boundary + Rest(parts, boundary, 0)
  {
    EncodedSplits(parts, boundary, 1);
    var e, b, a := DASHES + boundary, Block(parts[0]), After(parts, boundary, 1);
    assert [] + BoundaryData(Initial, boundary) == e + CRLF;
    Join3(e, CRLF, b, a);
  }

  lemma HeaderParsedIsCarried(block: Bytes, i: nat, j: nat)
    requires FindFrom(block, CRLF, 0) == Some(i) && FindFrom(block[..i], COLON_SPACE, 0) == Some(j)
    ensures Carried(Header(block[..j], block[j + 2..i]))
  {
    var line, h := block[..i], Header(block[..j], block[j + 2..i]);
    LineSplits(line, j);
    assert line[..j] == block[..j] && line[j + 2..] == block[j + 2..i];
    NotBefore(block, CRLF, i, i);
    NotBefore(line, COLON_SPACE, j, j);
  }

  /** In front of its first occurrence a string does not occur. */
  lemma NotBefore(h: Bytes, d: Bytes, i: nat, n: nat)
    requires FindFrom(h, d, 0) == Some(i) && n <= i && d != []
    ensures !Contains(h[..n], d)
  {
    if Contains(h[..n], d) {
      var k := FindFrom(h[..n], d, 0).value;
      assert h[k..k + |d|] == h[..n][k..k + |d|];
      assert OccursAt(h, d, k);
    }
  }

  /** Only header fields that fit on a line come out of a block. */
  lemma {:induction false} ParsedHeadersAreCarried(block: Bytes)
    requires ParsePart(block).Some?
    ensures forall h <- ParsePart(block).value.headers :: Carried(h)
    decreases |block|
  {
    var i := FindFrom(block, CRLF, 0).value;
    if i > 0 {
      var j := FindFrom(block[..i], COLON_SPACE, 0).value;
      HeaderParsedIsCarried(block, i, j);
      ParsedHeadersAreCarried(block[i + 2..]);
    }
  }

  lemma {:induction false} ParsedPartsAreCarried(blocks: seq<Bytes>)
    requires ParseParts(blocks).Some?
    ensures AllCarried(ParseParts(blocks).value)
  {
    if blocks != [] {
      ParsedHeadersAreCarried(blocks[0]);
      ParsedPartsAreCarried(blocks[1..]);
    }
  }

  lemma ParsedIsCarried(h: Bytes, boundary: Bytes)
    requires Parse(h, boundary).Some?
    ensures Parse(h, boundary).value != [] && AllCarried(Parse(h, boundary).value)
  {
    var rest := if StartsWith(h, DASHES + boundary) then h[2 + |boundary|..]
      else h[FindFrom(h, Delimiter(boundary), 0).value + |Delimiter(boundary)|..];
    ParsedPartsAreCarried(ParseBlocks(rest, boundary).value);
  }

  lemma CarriedRoundTrip(parts: seq<Part>, boundary: Bytes)
    requires parts != [] && AllCarried(parts) && CR !in boundary
    ensures Parse(Encoded(parts, boundary), boundary) == Some(parts) <==> DelimiterFree(parts, boundary)
  {
    var start, rest := DASHES + boundary, Rest(parts, boundary, 0);
    EncodedBegins(parts, boundary);
    Slices([], start, rest);
    assert [] + start == start && (start + rest)[..|start|] == start;
    BlocksParse(parts, boundary);
    assert |Blocks(parts)| > 0;
    if DelimiterFree(parts, boundary) {
      PartsParse(parts);
    } else if Parse(Encoded(parts, boundary), boundary).Some? {
      var blocks := ParseBlocks(rest, boundary).value;
      ParsedPartsPrint(blocks);
    }
  }

  /** For every list of parts and every boundary free of carriage returns, parsing what `encode` prints
      gives the parts back if and only if there is a part, every header field fits on a line with a
      key that can be told from its value, and no block between two boundaries contains the delimiter. */
  lemma ParseUndoesEncode(parts: seq<Part>, boundary: Bytes)
    requires CR !in boundary
    ensures Parse(Encoded(parts, boundary), boundary) == Some(parts)
       <==> parts != [] && AllCarried(parts) && DelimiterFree(parts, boundary)
  {
    if parts != [] && AllCarried(parts) {
      CarriedRoundTrip(parts, boundary);
    } else if Parse(Encoded(parts, boundary), boundary) == Some(parts) {
      ParsedIsCarried(Encoded(parts, boundary), boundary);
    }
  }

  // ---- a condition on headers and bodies alone ----

  ghost predicate BoundaryFree(parts: seq<Part>, boundary: Bytes) {
    forall p <- parts ::
      && !Contains(p.body, DASHES + boundary)
      && forall h <- p.headers :: !Contains(HeaderLine(h), DASHES + boundary)
  }

  lemma LineFree(h: Header, d: Bytes)
    requires !Contains(HeaderLine(h), d) && CR !in d && LF !in d && d != []
    ensures !Contains(HeaderLine(h) + CRLF, d)
  {
    ByteFree(CRLF, d);
    NotAcross(HeaderLine(h), CRLF, d, CR);
  }

  /** A byte string whose bytes all stay out of `d` cannot contain it. */
  lemma ByteFree(x: Bytes, d: Bytes)
    requires d != [] && forall c <- x :: c !in d
    ensures !Contains(x, d)
  {
    forall i ensures !OccursAt(x, d, i) {
      if 0 <= i <= |x| - |d| {
        assert x[i..i + |d|][0] == x[i] && d[0] in d && x[i] in x;
      }
    }
  }

  lemma {:induction false} HeadersFree(hs: seq<Header>, d: Bytes)
    requires CR !in d && LF !in d && d != []
    requires forall h <- hs :: !Contains(HeaderLine(h), d)
    ensures !Contains(HeaderLines(hs), d)
    ensures hs == [] || HeaderLines(hs)[|HeaderLines(hs)| - 1] == LF
  {
    if hs == [] {
      ByteFree([], d);
    } else {
      var n := |hs| - 1;
      var line := HeaderLine(hs[n]) + CRLF;
      HeadersFree(hs[..n], d);
      assert hs[n] in hs;
      LineFree(hs[n], d);
      NotAcross(HeaderLines(hs[..n]), line, d, LF);
      Join2(HeaderLines(hs[..n]), HeaderLine(hs[n]), CRLF);
    }
  }

  lemma BlockFree(p: Part, d: Bytes)
    requires CR !in d && LF !in d && d != []
    requires !Contains(p.body, d) && forall h <- p.headers :: !Contains(HeaderLine(h), d)
    ensures !Contains(Block(p), d)
  {
    HeadersFree(p.headers, d);
    ByteFree(CRLF, d);
    NotAcross(HeaderLines(p.headers), CRLF, d, CR);
    NotAcross(EncodedHeaders(p.headers), p.body, d, LF);
  }

  lemma DelimiterHoldsBoundary(x: Bytes, boundary: Bytes)
    requires !Contains(x, DASHES + boundary)
    ensures !Contains(x, Delimiter(boundary))
  {
    var b, d := DASHES + boundary, Delimiter(boundary);
    assert d == CRLF + b;
    forall i ensures !OccursAt(x, d, i) {
      if 0 <= i <= |x| - |d| {
        assert !OccursAt(x, b, i + 2);
        assert x[i + 2..i + |d|] == x[i..i + |d|][2..] && d[2..] == b;
      }
    }
  }

  /** When no header line and no body contains `--boundary`, the round trip succeeds. */
  lemma BoundaryFreePartsRoundTrip(parts: seq<Part>, boundary: Bytes)
    requires parts != [] && AllCarried(parts) && CR !in boundary && LF !in boundary && BoundaryFree(parts, boundary)
    ensures Parse(Encoded(parts, boundary), boundary) == Some(parts)
  {
    var d := DASHES + boundary;
    forall p <- parts ensures !Contains(Block(p), Delimiter(boundary)) {
      BlockFree(p, d);
      DelimiterHoldsBoundary(Block(p), boundary);
    }
    ParseUndoesEncode(parts, boundary);
  }

  // ---- the boundaries that the code draws ----

  function HexDigit(n: nat): bv8
    requires n < 16
  {
    if n < 10 then 48 + n as bv8 else 87 + n as bv8
  }

  function Hex8(n: nat, digits: nat): Bytes {
    if digits == 0 then [] else Hex8(n / 16, digits - 1) + [HexDigit(n % 16)]
  }

  /** The prefix "alamofire.boundary.". */
  const PREFIX: Bytes := [97, 108, 97, 109, 111, 102, 105, 114, 101, 46, 98, 111, 117, 110, 100, 97, 114, 121, 46]

  function RandomBoundary(a: nat, b: nat): Bytes { PREFIX + Hex8(a, 8) + Hex8(b, 8) }

  lemma {:induction false} HexHasNoBreak(n: nat, digits: nat)
    ensures CR !in Hex8(n, digits) && LF !in Hex8(n, digits) && |Hex8(n, digits)| == digits
  {
    if digits > 0 {
      HexHasNoBreak(n / 16, digits - 1);
      assert HexDigit(n % 16) != CR && HexDigit(n % 16) != LF;
    }
  }

  lemma RandomBoundaryHasNoBreak(a: nat, b: nat)
    ensures CR !in RandomBoundary(a, b) && LF !in RandomBoundary(a, b) && |RandomBoundary(a, b)| == 35
  {
    HexHasNoBreak(a, 8);
    HexHasNoBreak(b, 8);
  }
}
