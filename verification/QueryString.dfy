/** Percent-encoding (section 2.1 of RFC 3986) as Alamofire's parameter encoder applies it. */
module PercentEncoding {
  import opened Basics

  type Octet = n: int | 0 <= n < 256

  predicate IsAlphaOrDigit(o: Octet) {
    'a' as int <= o <= 'z' as int || 'A' as int <= o <= 'Z' as int || '0' as int <= o <= '9' as int
  }

  /** The query component of section 3.4 of RFC 3986 without its percent-encoded octets. */
  predicate QueryAllowed(o: Octet) {
    IsAlphaOrDigit(o) || o in Ascii("-._~") || o in Ascii("!$&'()*+,;=") || o in Ascii(":@") || o in Ascii("/?")
  }

  /** A string literal of the source, whose characters all are ASCII. */
  function Ascii(s: string): seq<Octet> {
    seq(|s|, i requires 0 <= i < |s| => if s[i] < 128 as char then s[i] as int else 0)
  }

  const GENERAL_DELIMITERS := Ascii(":#[]@")
  const SUB_DELIMITERS := Ascii("!$&'()*+,;=")

  predicate Allowed(o: Octet) { QueryAllowed(o) && o !in GENERAL_DELIMITERS && o !in SUB_DELIMITERS }

  const PERCENT: Octet := '%' as int
  const AMPERSAND: Octet := '&' as int
  const EQUALS: Octet := '=' as int

  function HexDigit(n: nat): Octet
    requires n < 16
  {
    if n < 10 then '0' as int + n else 'A' as int + (n - 10)
  }

  function DigitValue(o: Octet): Option<nat> {
    if '0' as int <= o <= '9' as int then Some(o - '0' as int)
    else if 'A' as int <= o <= 'F' as int then Some(o - 'A' as int + 10)
    else if 'a' as int <= o <= 'f' as int then Some(o - 'a' as int + 10)
    else None
  }

  function EscapeOctet(o: Octet): seq<Octet> {
    if Allowed(o) then [o] else [PERCENT, HexDigit(o / 16), HexDigit(o % 16)]
  }

  /** What adding percent encoding does to a whole string. */
  function EscapeAll(s: seq<Octet>): seq<Octet> {
    if s == [] then [] else EscapeOctet(s[0]) + EscapeAll(s[1..])
  }

  /** The inverse of section 2.1; fails on a percent sign that two hexadecimal digits do not follow. */
  function PercentDecode(s: seq<Octet>): Option<seq<Octet>> {
    if s == [] then Some([])
    else if s[0] != PERCENT then
      match PercentDecode(s[1..])
      case None => None
      case Some(rest) => Some([s[0]] + rest)
    else if |s| < 3 || DigitValue(s[1]).None? || DigitValue(s[2]).None? then None
    else
      match PercentDecode(s[3..])
      case None => None
      case Some(rest) => Some([16 * DigitValue(s[1]).value + DigitValue(s[2]).value] + rest)
  }

  lemma DigitReadsBack(n: nat)
    requires n < 16
    ensures DigitValue(HexDigit(n)) == Some(n) && HexDigit(n) != AMPERSAND && HexDigit(n) != EQUALS
  {
  }

  /** What is sent as it is: letters, digits and `-`, `.`, `_`, `~`, `/`, `?`. */
  lemma AllowedExactly(o: Octet)
    ensures Allowed(o) <==>
      97 <= o <= 122 || 65 <= o <= 90 || 48 <= o <= 57 || o in {45, 46, 95, 126, 47, 63}
  {
    assert Ascii("-._~") == [45, 46, 95, 126];
    assert Ascii("!$&'()*+,;=") == [33, 36, 38, 39, 40, 41, 42, 43, 44, 59, 61];
    assert Ascii(":@") == [58, 64] && Ascii("/?") == [47, 63];
    assert Ascii(":#[]@") == [58, 35, 91, 93, 64];
  }

  /** No octet that the query syntax reserves is sent as it is. */
  lemma ReservedIsNotAllowed(o: Octet)
    requires Allowed(o)
    ensures o != PERCENT && o != AMPERSAND && o != EQUALS && o < 128
  {
    assert SUB_DELIMITERS[2] == AMPERSAND && SUB_DELIMITERS[10] == EQUALS;
    PercentIsNotAllowed();
    OnlyAsciiAllowed(o);
  }

  lemma PercentIsNotAllowed()
    ensures !QueryAllowed(PERCENT)
  {
  }

  lemma OnlyAsciiAllowed(o: Octet)
    requires QueryAllowed(o)
    ensures o < 128
  {
  }

  lemma DecodePlain(o: Octet, rest: seq<Octet>)
    requires o != PERCENT && PercentDecode(rest).Some?
    ensures PercentDecode([o] + rest) == Some([o] + PercentDecode(rest).value)
  {
    assert ([o] + rest)[1..] == rest;
  }

  lemma DecodeTriplet(high: Octet, low: Octet, h: nat, l: nat, rest: seq<Octet>)
    requires DigitValue(high) == Some(h) && DigitValue(low) == Some(l) && PercentDecode(rest).Some?
    ensures 16 * h + l < 256
    ensures PercentDecode([PERCENT, high, low] + rest) == Some([16 * h + l] + PercentDecode(rest).value)
  {
    assert ([PERCENT, high, low] + rest)[3..] == rest;
  }

  lemma DecodeOne(o: Octet, rest: seq<Octet>)
    requires PercentDecode(rest).Some?
    ensures PercentDecode(EscapeOctet(o) + rest) == Some([o] + PercentDecode(rest).value)
  {
    if Allowed(o) {
      ReservedIsNotAllowed(o);
      DecodePlain(o, rest);
    } else {
      DigitReadsBack(o / 16);
      DigitReadsBack(o % 16);
      DecodeTriplet(HexDigit(o / 16), HexDigit(o % 16), o / 16, o % 16, rest);
    }
  }

  /** Decoding inverts the escaping of every string. */
  lemma {:induction false} DecodeUndoesEscape(s: seq<Octet>)
    ensures PercentDecode(EscapeAll(s)) == Some(s)
  {
    if s != [] {
      DecodeUndoesEscape(s[1..]);
      DecodeOne(s[0], EscapeAll(s[1..]));
      assert s == [s[0]] + s[1..];
    }
  }

  /** The separators of a query never appear in an escaped string. */
  lemma {:induction false} EscapeHidesSeparators(s: seq<Octet>)
    ensures AMPERSAND !in EscapeAll(s) && EQUALS !in EscapeAll(s)
  {
    if s != [] {
      EscapeHidesSeparators(s[1..]);
      if Allowed(s[0]) {
        ReservedIsNotAllowed(s[0]);
      } else {
        DigitReadsBack(s[0] / 16);
        DigitReadsBack(s[0] % 16);
      }
    }
  }

  lemma ConcatAssociates(a: seq<Octet>, b: seq<Octet>, c: seq<Octet>)
    ensures a + (b + c) == (a + b) + c
  {
  }

  lemma {:induction false} EscapeConcat(s: seq<Octet>, t: seq<Octet>)
    ensures EscapeAll(s + t) == EscapeAll(s) + EscapeAll(t)
  {
    if s == [] {
      assert s + t == t;
    } else {
      EscapeConcat(s[1..], t);
      assert (s + t)[1..] == s[1..] + t;
      ConcatAssociates(EscapeOctet(s[0]), EscapeAll(s[1..]), EscapeAll(t));
    }
  }
}

/** Nested parameters and the query string that stands for them. */
module QueryString {
  import opened Basics
  import opened PercentEncoding

  datatype ArrayEncoding = Brackets | NoBrackets
  datatype BoolEncoding = Numeric | Literal
  datatype URLEncoding = URLEncoding(arrayEncoding: ArrayEncoding, boolEncoding: BoolEncoding)

  /** A parameter value. A dictionary lists its entries in the order in which it enumerates them; any
      value that is neither a collection nor a Boolean is known by its description. */
  datatype Value =
    | Dictionary(entries: seq<(seq<Octet>, Value)>)
    | Array(items: seq<Value>)
    | Bool(bool)
    | Described(text: seq<Octet>)

  type Pair = (seq<Octet>, seq<Octet>)

  function ArrayKey(encoding: URLEncoding, key: seq<Octet>): seq<Octet> {
    if encoding.arrayEncoding.Brackets? then key + Ascii("[]") else key
  }

  function NestedKey(key: seq<Octet>, nested: seq<Octet>): seq<Octet> { key + Ascii("[") + nested + Ascii("]") }

  function BoolText(encoding: URLEncoding, b: bool): seq<Octet> {
    if encoding.boolEncoding.Numeric? then if b then Ascii("1") else Ascii("0")
    else if b then Ascii("true") else Ascii("false")
  }

  /** The leaves of a value in traversal order, each with the key that leads to it. */
  function Leaves(encoding: URLEncoding, key: seq<Octet>, value: Value): seq<Pair>
    decreases value, 1
  {
    match value
    case Dictionary(entries) => EntryLeaves(encoding, key, value, |entries|)
    case Array(items) => ItemLeaves(encoding, key, value, |items|)
    case Bool(b) => [(key, BoolText(encoding, b))]
    case Described(text) => [(key, text)]
  }

  function EntryLeaves(encoding: URLEncoding, key: seq<Octet>, value: Value, n: nat): seq<Pair>
    requires value.Dictionary? && n <= |value.entries|
    decreases value, 0, n
  {
    if n == 0 then [] else
      EntryLeaves(encoding, key, value, n - 1)
      + Leaves(encoding, NestedKey(key, value.entries[n - 1].0), value.entries[n - 1].1)
  }

  function ItemLeaves(encoding: URLEncoding, key: seq<Octet>, value: Value, n: nat): seq<Pair>
    requires value.Array? && n <= |value.items|
    decreases value, 0, n
  {
    if n == 0 then []
    else ItemLeaves(encoding, key, value, n - 1) + Leaves(encoding, ArrayKey(encoding, key), value.items[n - 1])
  }

  /** Scalars anywhere below a value. */
  function LeafCount(value: Value): nat
    decreases value, 1
  {
    match value
    case Dictionary(entries) => LeafCountOf(value, |entries|)
    case Array(items) => LeafCountOf(value, |items|)
    case _ => 1
  }

  function LeafCountOf(value: Value, n: nat): nat
    requires value.Dictionary? ==> n <= |value.entries|
    requires value.Array? ==> n <= |value.items|
    decreases value, 0, n
  {
    if n == 0 then 0
    else if value.Dictionary? then LeafCountOf(value, n - 1) + LeafCount(value.entries[n - 1].1)
    else if value.Array? then LeafCountOf(value, n - 1) + LeafCount(value.items[n - 1])
    else 0
  }

  ghost predicate OnePairPerLeaf(pairs: seq<Pair>, count: nat, key: seq<Octet>) {
    |pairs| == count && forall p :: p in pairs ==> key <= p.0
  }

  /** Every leaf gives one pair, and its key extends the key of the value that holds it. */
  lemma {:induction false} LeavesOnePairEach(encoding: URLEncoding, key: seq<Octet>, value: Value)
    ensures OnePairPerLeaf(Leaves(encoding, key, value), LeafCount(value), key)
    decreases value, 1
  {
    match value
    case Dictionary(entries) => EntriesOnePairEach(encoding, key, value, |entries|);
    case Array(items) => ItemsOnePairEach(encoding, key, value, |items|);
    case _ =>
  }

  lemma {:induction false} EntriesOnePairEach(encoding: URLEncoding, key: seq<Octet>, value: Value, n: nat)
    requires value.Dictionary? && n <= |value.entries|
    ensures OnePairPerLeaf(EntryLeaves(encoding, key, value, n), LeafCountOf(value, n), key)
    decreases value, 0, n
  {
    if n > 0 {
      EntriesOnePairEach(encoding, key, value, n - 1);
      LeavesOnePairEach(encoding, NestedKey(key, value.entries[n - 1].0), value.entries[n - 1].1);
    }
  }

  lemma {:induction false} ItemsOnePairEach(encoding: URLEncoding, key: seq<Octet>, value: Value, n: nat)
    requires value.Array? && n <= |value.items|
    ensures OnePairPerLeaf(ItemLeaves(encoding, key, value, n), LeafCountOf(value, n), key)
    decreases value, 0, n
  {
    if n > 0 {
      ItemsOnePairEach(encoding, key, value, n - 1);
      LeavesOnePairEach(encoding, ArrayKey(encoding, key), value.items[n - 1]);
    }
  }

  // ---- what the keys and texts say ----

  /** One way down into a value. */
  datatype Way = Entry(name: seq<Octet>) | Item

  /** A value that is no collection, and the way to it. */
  datatype Leaf = Leaf(path: seq<Way>, value: Value)

  function Under(way: Way, leaves: seq<Leaf>): seq<Leaf> {
    seq(|leaves|, i requires 0 <= i < |leaves| => Leaf([way] + leaves[i].path, leaves[i].value))
  }

  /** The leaves below a value in the order in which it lists them. */
  function LeavesOf(value: Value): seq<Leaf>
    decreases value, 1
  {
    match value
    case Dictionary(entries) => LeavesOfFirst(value, |entries|)
    case Array(items) => LeavesOfFirst(value, |items|)
    case _ => [Leaf([], value)]
  }

  function LeavesOfFirst(value: Value, n: nat): seq<Leaf>
    requires value.Dictionary? ==> n <= |value.entries|
    requires value.Array? ==> n <= |value.items|
    decreases value, 0, n
  {
    if n == 0 then []
    else if value.Dictionary? then
      LeavesOfFirst(value, n - 1) + Under(Entry(value.entries[n - 1].0), LeavesOf(value.entries[n - 1].1))
    else if value.Array? then LeavesOfFirst(value, n - 1) + Under(Item, LeavesOf(value.items[n - 1]))
    else []
  }

  /** A name stands in brackets, the octets 91 and 93; an item has an empty pair of them or nothing. */
  function WayText(way: Way, encoding: URLEncoding): seq<Octet> {
    match way
    case Entry(name) => [91] + name + [93]
    case Item => if encoding.arrayEncoding == Brackets then [91, 93] else []
  }

  function KeyText(key: seq<Octet>, path: seq<Way>, encoding: URLEncoding): seq<Octet>
    decreases path
  {
    if path == [] then key else KeyText(key + WayText(path[0], encoding), path[1..], encoding)
  }

  /** The texts of a Boolean are `1` and `0`, or `true` and `false`. */
  function ValueText(value: Value, encoding: URLEncoding): seq<Octet> {
    match value
    case Bool(b) =>
      if encoding.boolEncoding == Numeric then if b then [49] else [48]
      else if b then [116, 114, 117, 101] else [102, 97, 108, 115, 101]
    case Described(text) => text
    case _ => []
  }

  function Printed(key: seq<Octet>, leaves: seq<Leaf>, encoding: URLEncoding): seq<Pair> {
    seq(|leaves|, i requires 0 <= i < |leaves| =>
      (KeyText(key, leaves[i].path, encoding), ValueText(leaves[i].value, encoding)))
  }

  lemma PrintedUnder(key: seq<Octet>, way: Way, leaves: seq<Leaf>, encoding: URLEncoding)
    ensures Printed(key, Under(way, leaves), encoding) == Printed(key + WayText(way, encoding), leaves, encoding)
  {
    forall i | 0 <= i < |leaves|
      ensures KeyText(key, [way] + leaves[i].path, encoding)
           == KeyText(key + WayText(way, encoding), leaves[i].path, encoding)
    {
      assert ([way] + leaves[i].path)[1..] == leaves[i].path;
    }
  }

  lemma PrintedConcat(key: seq<Octet>, a: seq<Leaf>, b: seq<Leaf>, encoding: URLEncoding)
    ensures Printed(key, a + b, encoding) == Printed(key, a, encoding) + Printed(key, b, encoding)
  {
  }

  lemma WayKeys(key: seq<Octet>, name: seq<Octet>, encoding: URLEncoding)
    ensures NestedKey(key, name) == key + WayText(Entry(name), encoding)
    ensures ArrayKey(encoding, key) == key + WayText(Item, encoding)
  {
    assert Ascii("[") == [91] && Ascii("]") == [93] && Ascii("[]") == [91, 93];
    ConcatAssociates(key, [91] + name, [93]);
    ConcatAssociates(key, [91], name);
  }

  /** Every leaf is printed in its place, under the key that spells out the way to it and with the
      text of its value. */
  lemma {:induction false} LeavesArePrinted(encoding: URLEncoding, key: seq<Octet>, value: Value)
    ensures Leaves(encoding, key, value) == Printed(key, LeavesOf(value), encoding)
    decreases value, 1
  {
    match value
    case Dictionary(entries) => EntriesArePrinted(encoding, key, value, |entries|);
    case Array(items) => ItemsArePrinted(encoding, key, value, |items|);
    case Bool(b) => assert Ascii("1") == [49] && Ascii("0") == [48];
      assert Ascii("true") == [116, 114, 117, 101] && Ascii("false") == [102, 97, 108, 115, 101];
    case Described(_) =>
  }

  lemma {:induction false} EntriesArePrinted(encoding: URLEncoding, key: seq<Octet>, value: Value, n: nat)
    requires value.Dictionary? && n <= |value.entries|
    ensures EntryLeaves(encoding, key, value, n) == Printed(key, LeavesOfFirst(value, n), encoding)
    decreases value, 0, n
  {
    if n > 0 {
      var name, below := value.entries[n - 1].0, value.entries[n - 1].1;
      EntriesArePrinted(encoding, key, value, n - 1);
      LeavesArePrinted(encoding, NestedKey(key, name), below);
      WayKeys(key, name, encoding);
      PrintedUnder(key, Entry(name), LeavesOf(below), encoding);
      PrintedConcat(key, LeavesOfFirst(value, n - 1), Under(Entry(name), LeavesOf(below)), encoding);
    }
  }

  lemma {:induction false} ItemsArePrinted(encoding: URLEncoding, key: seq<Octet>, value: Value, n: nat)
    requires value.Array? && n <= |value.items|
    ensures ItemLeaves(encoding, key, value, n) == Printed(key, LeavesOfFirst(value, n), encoding)
    decreases value, 0, n
  {
    if n > 0 {
      var below := value.items[n - 1];
      ItemsArePrinted(encoding, key, value, n - 1);
      LeavesArePrinted(encoding, ArrayKey(encoding, key), below);
      WayKeys(key, [], encoding);
      PrintedUnder(key, Item, LeavesOf(below), encoding);
      PrintedConcat(key, LeavesOfFirst(value, n - 1), Under(Item, LeavesOf(below)), encoding);
    }
  }

  type Parameters = map<seq<Octet>, Value>

  /** The leaves of the values of `keys`, in that order. */
  function AllLeaves(encoding: URLEncoding, parameters: Parameters, keys: seq<seq<Octet>>): seq<Pair>
    requires forall k :: k in keys ==> k in parameters
  {
    if keys == [] then [] else
      AllLeaves(encoding, parameters, keys[..|keys| - 1])
      + Leaves(encoding, keys[|keys| - 1], parameters[keys[|keys| - 1]])
  }

  function Escaped(p: Pair): Pair { (EscapeAll(p.0), EscapeAll(p.1)) }

  function EscapedPairs(pairs: seq<Pair>): seq<Pair> { seq(|pairs|, i requires 0 <= i < |pairs| => Escaped(pairs[i])) }

  lemma EscapedConcat(a: seq<Pair>, b: seq<Pair>)
    ensures EscapedPairs(a + b) == EscapedPairs(a) + EscapedPairs(b)
  {
  }

  function Field(p: Pair): seq<Octet> { p.0 + [EQUALS] + p.1 }

  /** `key=value` pieces joined by `&`. */
  function Joined(components: seq<Pair>): seq<Octet> {
    if components == [] then []
    else if |components| == 1 then Field(components[0])
    else Field(components[0]) + [AMPERSAND] + Joined(components[1..])
  }

  // ---- the inverse ----

  /** The first position of an octet, or the length. */
  function Find(s: seq<Octet>, o: Octet): (i: nat)
    ensures i <= |s| && o !in s[..i] && (i < |s| ==> s[i] == o)
  {
    if s == [] || s[0] == o then 0 else 1 + Find(s[1..], o)
  }

  /** The non-empty pieces between separators. */
  function Fields(s: seq<Octet>): seq<seq<Octet>> {
    if s == [] then []
    else
      var i := Find(s, AMPERSAND);
      (if i == 0 then [] else [s[..i]]) + (if i < |s| then Fields(s[i + 1..]) else [])
  }

  function ParseField(f: seq<Octet>): Option<Pair> {
    var i := Find(f, EQUALS);
    if i == |f| then None
    else
      match (PercentDecode(f[..i]), PercentDecode(f[i + 1..]))
      case (Some(key), Some(value)) => Some((key, value))
      case _ => None
  }

  function ParseFields(fields: seq<seq<Octet>>): Option<seq<Pair>> {
    if fields == [] then Some([])
    else
      match (ParseField(fields[0]), ParseFields(fields[1..]))
      case (Some(p), Some(rest)) => Some([p] + rest)
      case _ => None
  }

  function Parse(query: seq<Octet>): Option<seq<Pair>> { ParseFields(Fields(query)) }

  lemma NotBefore(s: seq<Octet>, o: Octet, i: nat)
    requires i <= |s| && o !in s[..i]
    ensures forall k :: 0 <= k < i ==> s[k] != o
  {
    forall k | 0 <= k < i ensures s[k] != o { assert s[k] == s[..i][k]; }
  }

  lemma FindAt(s: seq<Octet>, o: Octet, i: nat)
    requires i <= |s| && o !in s[..i] && (i < |s| ==> s[i] == o)
    ensures Find(s, o) == i
  {
    NotBefore(s, o, i);
    NotBefore(s, o, Find(s, o));
  }

  lemma FieldParses(p: Pair)
    ensures ParseField(Field(Escaped(p))) == Some(p)
    ensures AMPERSAND !in Field(Escaped(p)) && Field(Escaped(p)) != []
  {
    var f := Field(Escaped(p));
    EscapeHidesSeparators(p.0);
    EscapeHidesSeparators(p.1);
    assert f[..|EscapeAll(p.0)|] == EscapeAll(p.0);
    FindAt(f, EQUALS, |EscapeAll(p.0)|);
    assert f[|EscapeAll(p.0)| + 1..] == EscapeAll(p.1);
    DecodeUndoesEscape(p.0);
    DecodeUndoesEscape(p.1);
  }

  lemma FieldsOfOne(f: seq<Octet>)
    requires f != [] && AMPERSAND !in f
    ensures Fields(f) == [f]
  {
    assert f[..|f|] == f;
    FindAt(f, AMPERSAND, |f|);
  }

  lemma FieldsStep(f: seq<Octet>, rest: seq<Octet>)
    requires f != [] && AMPERSAND !in f
    ensures Fields(f + [AMPERSAND] + rest) == [f] + Fields(rest)
  {
    var s := f + [AMPERSAND] + rest;
    assert s[..|f|] == f;
    FindAt(s, AMPERSAND, |f|);
    assert s[|f| + 1..] == rest;
  }

  lemma FirstComponent(pairs: seq<Pair>)
    requires pairs != []
    ensures Fields(Joined(EscapedPairs(pairs))) == [Field(Escaped(pairs[0]))] + Fields(Joined(EscapedPairs(pairs[1..])))
  {
    FieldParses(pairs[0]);
    assert EscapedPairs(pairs)[1..] == EscapedPairs(pairs[1..]);
    if |pairs| == 1 {
      FieldsOfOne(Field(Escaped(pairs[0])));
    } else {
      FieldsStep(Field(Escaped(pairs[0])), Joined(EscapedPairs(pairs[1..])));
    }
  }

  lemma ParseFirst(f: seq<Octet>, fields: seq<seq<Octet>>, p: Pair, rest: seq<Pair>)
    requires ParseField(f) == Some(p) && ParseFields(fields) == Some(rest)
    ensures ParseFields([f] + fields) == Some([p] + rest)
  {
    assert ([f] + fields)[1..] == fields;
  }

  /** Splitting a printed query on `&` and `=` and decoding the pieces gives back its pairs, whatever
      octets their keys and values hold. */
  lemma {:induction false} ParseUndoesPrint(pairs: seq<Pair>)
    ensures Parse(Joined(EscapedPairs(pairs))) == Some(pairs)
  {
    if pairs != [] {
      ParseUndoesPrint(pairs[1..]);
      FirstPairParses(pairs);
    }
  }

  lemma FirstPairParses(pairs: seq<Pair>)
    requires pairs != [] && Parse(Joined(EscapedPairs(pairs[1..]))) == Some(pairs[1..])
    ensures Parse(Joined(EscapedPairs(pairs))) == Some(pairs)
  {
    var f, fields := Field(Escaped(pairs[0])), Fields(Joined(EscapedPairs(pairs[1..])));
    FirstComponent(pairs);
    FieldParses(pairs[0]);
    ParseFirst(f, fields, pairs[0], pairs[1..]);
    assert pairs == [pairs[0]] + pairs[1..];
  }

  function NonEmpty(f: seq<Octet>): seq<seq<Octet>> { if f == [] then [] else [f] }

  lemma FirstField(first: seq<Octet>, rest: seq<Octet>)
    requires AMPERSAND !in first
    ensures Fields(first + [AMPERSAND] + rest) == NonEmpty(first) + Fields(rest)
  {
    if first == [] {
      var s := [AMPERSAND] + rest;
      FindAt(s, AMPERSAND, 0);
      assert s[1..] == rest && first + [AMPERSAND] + rest == s;
    } else {
      FieldsStep(first, rest);
    }
  }

  lemma AppendedToFirst(first: seq<Octet>, rest: seq<Octet>, query: seq<Octet>)
    requires AMPERSAND !in first && Fields(rest + [AMPERSAND] + query) == Fields(rest) + Fields(query)
    ensures Fields(first + [AMPERSAND] + rest + [AMPERSAND] + query)
         == Fields(first + [AMPERSAND] + rest) + Fields(query)
  {
    FirstField(first, rest);
    FirstField(first, rest + [AMPERSAND] + query);
    Regroup(first, [AMPERSAND], rest, [AMPERSAND], query);
    FieldListsAssociate(NonEmpty(first), Fields(rest), Fields(query));
  }

  lemma Regroup(a: seq<Octet>, b: seq<Octet>, c: seq<Octet>, d: seq<Octet>, e: seq<Octet>)
    ensures a + b + (c + d + e) == a + b + c + d + e
  {
  }

  lemma FieldListsAssociate(a: seq<seq<Octet>>, b: seq<seq<Octet>>, c: seq<seq<Octet>>)
    ensures a + (b + c) == a + b + c
  {
  }

  lemma SplitAtFirst(s: seq<Octet>) returns (first: seq<Octet>, rest: seq<Octet>)
    requires AMPERSAND in s
    ensures AMPERSAND !in first && s == first + [AMPERSAND] + rest
  {
    var i := Find(s, AMPERSAND);
    assert s[..|s|] == s;
    first, rest := s[..i], s[i + 1..];
  }

  /** A query appended to the one a URL already has adds its fields to it. */
  lemma {:induction false} FieldsOfAppended(existing: seq<Octet>, query: seq<Octet>)
    ensures Fields(existing + [AMPERSAND] + query) == Fields(existing) + Fields(query)
    decreases |existing|
  {
    if AMPERSAND !in existing {
      FirstField(existing, query);
      if existing != [] { FieldsOfOne(existing); }
    } else {
      var first, rest := SplitAtFirst(existing);
      FieldsOfAppended(rest, query);
      AppendedToFirst(first, rest, query);
    }
  }

  // ---- the order of the top-level keys ----

  /** Lexicographic order of octets. */
  predicate Le(a: seq<Octet>, b: seq<Octet>) {
    a == [] || (b != [] && (a[0] < b[0] || (a[0] == b[0] && Le(a[1..], b[1..]))))
  }

  lemma {:induction false} LeTotal(a: seq<Octet>, b: seq<Octet>)
    ensures Le(a, b) || Le(b, a)
  {
    if a != [] && b != [] { LeTotal(a[1..], b[1..]); }
  }

  lemma {:induction false} LeAntisymmetric(a: seq<Octet>, b: seq<Octet>)
    requires Le(a, b) && Le(b, a)
    ensures a == b
  {
    if a != [] && b != [] {
      LeAntisymmetric(a[1..], b[1..]);
      assert a == [a[0]] + a[1..] && b == [b[0]] + b[1..];
    }
  }

  lemma {:induction false} LeTransitive(a: seq<Octet>, b: seq<Octet>, c: seq<Octet>)
    requires Le(a, b) && Le(b, c)
    ensures Le(a, c)
  {
    if a != [] && b != [] && c != [] && a[0] == b[0] == c[0] { LeTransitive(a[1..], b[1..], c[1..]); }
  }

  /** The keys of a dictionary, each once, in ascending order. */
  ghost predicate SortedListing(order: seq<seq<Octet>>, keys: set<seq<Octet>>) {
    && (forall k :: k in order <==> k in keys)
    && (forall i, j :: 0 <= i < j < |order| ==> Le(order[i], order[j]) && order[i] != order[j])
  }

  lemma FirstIsLeast(order: seq<seq<Octet>>, keys: set<seq<Octet>>, k: seq<Octet>)
    requires SortedListing(order, keys) && k in keys
    ensures order != [] && Le(order[0], k)
  {
    LeTotal(k, k);
  }

  /** There is only one: whatever order the dictionary enumerates its keys in, they sort the same. */
  lemma {:induction false} SortedListingIsUnique(a: seq<seq<Octet>>, b: seq<seq<Octet>>, keys: set<seq<Octet>>)
    requires SortedListing(a, keys) && SortedListing(b, keys)
    ensures a == b
    decreases |a|
  {
    ListingOfNone(a, keys);
    ListingOfNone(b, keys);
    if a != [] {
      FirstIsLeast(a, keys, b[0]);
      FirstIsLeast(b, keys, a[0]);
      LeAntisymmetric(a[0], b[0]);
      TailListing(a, keys);
      TailListing(b, keys);
      SortedListingIsUnique(a[1..], b[1..], keys - {a[0]});
      assert a == [a[0]] + a[1..] && b == [b[0]] + b[1..];
    }
  }

  lemma ListingOfNone(a: seq<seq<Octet>>, keys: set<seq<Octet>>)
    requires SortedListing(a, keys)
    ensures a == [] <==> keys == {}
  {
    if a != [] { assert a[0] in keys; }
  }

  lemma TailListing(a: seq<seq<Octet>>, keys: set<seq<Octet>>)
    requires SortedListing(a, keys) && a != []
    ensures SortedListing(a[1..], keys - {a[0]})
  {
    forall k ensures k in a[1..] <==> k in keys - {a[0]} {
      if k in a && k != a[0] {
        var i :| 0 <= i < |a| && a[i] == k;
        assert a[1..][i - 1] == k;
      }
    }
  }

  /** The query of a dictionary: the leaves of its values, keys ascending. */
  ghost predicate IsQuery(encoding: URLEncoding, parameters: Parameters, q: seq<Octet>) {
    exists order ::
      SortedListing(order, parameters.Keys) && q == Joined(EscapedPairs(AllLeaves(encoding, parameters, order)))
  }

  /** The query depends only on the dictionary, and reads back as one pair for each leaf of the
      nested value, in traversal order with the top-level keys sorted. */
  lemma QueryRoundTrip(encoding: URLEncoding, parameters: Parameters, q: seq<Octet>, order: seq<seq<Octet>>)
    requires IsQuery(encoding, parameters, q) && SortedListing(order, parameters.Keys)
    ensures Parse(q) == Some(AllLeaves(encoding, parameters, order))
  {
    var order' :| SortedListing(order', parameters.Keys)
      && q == Joined(EscapedPairs(AllLeaves(encoding, parameters, order')));
    SortedListingIsUnique(order, order', parameters.Keys);
    ParseUndoesPrint(AllLeaves(encoding, parameters, order));
  }

  // ---- the encoder ----

  /** A string is a sequence of Characters, each of at least one octet; where they end is the business
      of the standard library. */
  type Character = c: seq<Octet> | c != [] witness [0]

  function Octets(text: seq<Character>): seq<Octet> {
    if text == [] then [] else text[0] + Octets(text[1..])
  }

  lemma {:induction false} OctetsConcat(a: seq<Character>, b: seq<Character>)
    ensures Octets(a + b) == Octets(a) + Octets(b)
  {
    if a == [] {
      assert a + b == b;
    } else {
      OctetsConcat(a[1..], b);
      assert (a + b)[1..] == a[1..] + b;
      ConcatAssociates(a[0], Octets(a[1..]), Octets(b));
    }
  }

  /** Escaping fifty Characters at a time gives what escaping the whole string gives. */
  method Escape(text: seq<Character>, wholeStringAvailable: bool) returns (escaped: seq<Octet>)
    ensures escaped == EscapeAll(Octets(text))
  {
    escaped := [];
    if wholeStringAvailable {
      escaped := EscapeAll(Octets(text));
    } else {
      var batchSize := 50;
      var index := 0;
      while index != |text|
        invariant 0 <= index <= |text| && escaped == EscapeAll(Octets(text[..index]))
        decreases |text| - index
      {
        var startIndex := index;
        var endIndex := if index + batchSize <= |text| then index + batchSize else |text|;
        var substring := text[startIndex..endIndex];
        NextBatch(text, startIndex, endIndex);
        escaped := escaped + EscapeAll(Octets(substring));
        index := endIndex;
      }
      assert text[..|text|] == text;
    }
  }

  lemma NextBatch(text: seq<Character>, start: nat, end: nat)
    requires start <= end <= |text|
    ensures EscapeAll(Octets(text[..end])) == EscapeAll(Octets(text[..start])) + EscapeAll(Octets(text[start..end]))
  {
    assert text[..end] == text[..start] + text[start..end];
    OctetsConcat(text[..start], text[start..end]);
    EscapeConcat(Octets(text[..start]), Octets(text[start..end]));
  }

  /** The encoder, the platform's division of strings into Characters, and whether the platform can
      escape whole strings. */
  class Encoder {
    const encoding: URLEncoding
    const characters: seq<Octet> -> seq<Character>
    const wholeStringAvailable: bool

    ghost predicate Valid() { forall s :: Octets(characters(s)) == s }

    constructor (encoding: URLEncoding, characters: seq<Octet> -> seq<Character>, wholeStringAvailable: bool)
      requires forall s :: Octets(characters(s)) == s
      ensures Valid() && this.encoding == encoding
    {
      this.encoding := encoding;
      this.characters := characters;
      this.wholeStringAvailable := wholeStringAvailable;
    }

    method EscapedPair(key: seq<Octet>, value: seq<Octet>) returns (p: Pair)
      requires Valid()
      ensures p == Escaped((key, value))
    {
      var k := Escape(characters(key), wholeStringAvailable);
      var v := Escape(characters(value), wholeStringAvailable);
      p := (k, v);
    }

    /** One escaped component for each leaf of the value. */
    method QueryComponents(key: seq<Octet>, value: Value) returns (components: seq<Pair>)
      requires Valid()
      ensures components == EscapedPairs(Leaves(encoding, key, value))
      decreases value
    {
      components := [];
      match value
      case Dictionary(entries) =>
        for i := 0 to |entries|
          invariant components == EscapedPairs(EntryLeaves(encoding, key, value, i))
        {
          var more := QueryComponents(NestedKey(key, entries[i].0), entries[i].1);
          EscapedConcat(EntryLeaves(encoding, key, value, i),
                        Leaves(encoding, NestedKey(key, entries[i].0), entries[i].1));
          components := components + more;
        }
      case Array(items) =>
        for i := 0 to |items|
          invariant components == EscapedPairs(ItemLeaves(encoding, key, value, i))
        {
          var more := QueryComponents(ArrayKey(encoding, key), items[i]);
          EscapedConcat(ItemLeaves(encoding, key, value, i), Leaves(encoding, ArrayKey(encoding, key), items[i]));
          components := components + more;
        }
      case Bool(b) =>
        var p := EscapedPair(key, BoolText(encoding, b));
        components := [p];
      case Described(text) =>
        var p := EscapedPair(key, text);
        components := [p];
    }

    /** The query of the parameters. */
    method Query(parameters: Parameters) returns (q: seq<Octet>)
      requires Valid()
      ensures IsQuery(encoding, parameters, q)
    {
      var keys := Sorted(parameters.Keys);
      var components: seq<Pair> := [];
      for i := 0 to |keys|
        invariant components == EscapedPairs(AllLeaves(encoding, parameters, keys[..i]))
      {
        var more := QueryComponents(keys[i], parameters[keys[i]]);
        assert keys[..i + 1][..i] == keys[..i];
        EscapedConcat(AllLeaves(encoding, parameters, keys[..i]), Leaves(encoding, keys[i], parameters[keys[i]]));
        components := components + more;
      }
      assert keys[..|keys|] == keys;
      q := Joined(components);
    }
  }

  /** Sorts by insertion. */
  method Sorted(keys: set<seq<Octet>>) returns (order: seq<seq<Octet>>)
    ensures SortedListing(order, keys)
  {
    order := [];
    var rest := keys;
    while rest != {}
      invariant rest <= keys && SortedListing(order, keys - rest)
    {
      var k :| k in rest;
      order := Insert(order, k, keys - rest);
      rest := rest - {k};
      assert keys - rest == (keys - (rest + {k})) + {k};
    }
    assert keys - rest == keys;
  }

  method Insert(order: seq<seq<Octet>>, k: seq<Octet>, ghost keys: set<seq<Octet>>) returns (r: seq<seq<Octet>>)
    requires SortedListing(order, keys) && k !in keys
    ensures SortedListing(r, keys + {k})
  {
    var i := 0;
    while i < |order| && Le(order[i], k)
      invariant 0 <= i <= |order| && (forall j :: 0 <= j < i ==> Le(order[j], k))
    {
      i := i + 1;
    }
    InsertedListing(order, k, i, keys);
    r := order[..i] + [k] + order[i..];
  }

  lemma InsertedListing(order: seq<seq<Octet>>, k: seq<Octet>, i: nat, keys: set<seq<Octet>>)
    requires SortedListing(order, keys) && k !in keys && i <= |order|
    requires (forall j :: 0 <= j < i ==> Le(order[j], k)) && (i < |order| ==> !Le(order[i], k))
    ensures SortedListing(order[..i] + [k] + order[i..], keys + {k})
  {
    forall j | i <= j < |order| ensures Le(k, order[j]) {
      LeTotal(k, order[i]);
      if i < j { LeTransitive(k, order[i], order[j]); }
    }
  }

  /** Appends the query of non-empty parameters to the query of the URL, if that has one. */
  method AppendQuery(encoder: Encoder, existing: Option<seq<Octet>>, parameters: Parameters)
    returns (query: Option<seq<Octet>>)
    requires encoder.Valid()
    ensures parameters == map[] ==> query == existing
    ensures parameters != map[] ==> query.Some? && (exists q ::
      IsQuery(encoder.encoding, parameters, q)
      && Fields(query.value) == (if existing.Some? then Fields(existing.value) else []) + Fields(q))
  {
    query := existing;
    if parameters != map[] {
      var q := encoder.Query(parameters);
      if existing.Some? {
        FieldsOfAppended(existing.value, q);
        query := Some(existing.value + [AMPERSAND] + q);
      } else {
        query := Some(q);
      }
    }
  }
}
