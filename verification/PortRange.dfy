/** The grammar of port ranges such as "1000-2000,3000" (pkg/config/types/types.go,
    pkg/util/util/util.go). */
module PortRange {
  import opened Wrappers
  import opened Text
  import opened Int64
  import Ports

  // ---------- printing and parsing ----------

  function Piece(r: Ports.PortsRange): string {
    if r.single > 0 then Itoa(r.single) else Itoa(r.start) + "-" + Itoa(r.end)
  }

  /** `PortsRangeSlice.String`. */
  function Printed(rs: seq<Ports.PortsRange>): string {
    Join(Pieces(rs), ',')
  }

  function Pieces(rs: seq<Ports.PortsRange>): (r: seq<string>)
    ensures |r| == |rs| && forall i :: 0 <= i < |rs| ==> r[i] == Piece(rs[i])
  {
    if rs == [] then [] else Pieces(rs[..|rs| - 1]) + [Piece(rs[|rs| - 1])]
  }

  /** One number, or two with a minus between them, the first not the larger. */
  function ParsePiece(s: string): Option<Ports.PortsRange> {
    var parts := Split(s, '-');
    if |parts| == 1 then
      var n := ParseInt(Trim(parts[0]));
      if n.None? then None else Some(Ports.PortsRange(0, 0, n.value))
    else if |parts| == 2 then
      var lo, hi := ParseInt(Trim(parts[0])), ParseInt(Trim(parts[1]));
      if lo.None? || hi.None? || hi.value < lo.value then None
      else Some(Ports.PortsRange(lo.value, hi.value, 0))
    else None
  }

  /** All of them, if none is missing. */
  function Collected<T>(xs: seq<Option<T>>): (r: Option<seq<T>>)
    ensures r.Some? <==> None !in xs
    ensures r.Some? ==> |r.value| == |xs| && forall i :: 0 <= i < |xs| ==> xs[i] == Some(r.value[i])
  {
    if xs == [] then Some([])
    else
      var k := |xs| - 1;
      var init := Collected(xs[..k]);
      if init.None? || xs[k].None? then None else Some(init.value + [xs[k].value])
  }

  function ParsePieces(ps: seq<string>): Option<seq<Ports.PortsRange>> {
    Collected(seq(|ps|, i requires 0 <= i < |ps| => ParsePiece(ps[i])))
  }

  /** `NewPortsRangeSliceFromString`. */
  function Parsed(s: string): Option<seq<Ports.PortsRange>> {
    ParsePieces(Split(Trim(s), ','))
  }

  // ---------- the round trip ----------

  /** A range that the printed form says all about. */
  predicate Normal(r: Ports.PortsRange) {
    (r.single > 0 && r.start == 0 && r.end == 0) || (r.single == 0 && 0 <= r.start <= r.end)
  }

  lemma ItoaMinus(n: int)
    ensures n < 0 ==> '-' in Itoa(n) && Itoa(n) == "-" + Decimal(-n)
    ensures n >= 0 ==> Digits(Itoa(n))
  {
    assert n < 0 ==> Itoa(n)[0] == '-';
  }

  lemma DigitsHaveNoSigns(s: string)
    requires Digits(s)
    ensures '-' !in s && ',' !in s
  {
  }

  lemma PrintedDigits(n: nat)
    requires n <= MAX_INT64
    ensures ParseInt(Trim(Itoa(n))) == Some(n) && '-' !in Itoa(n) && ',' !in Itoa(n)
  {
    ParseIntItoa(n);
    TrimDigits(Itoa(n));
    DigitsHaveNoSigns(Itoa(n));
  }

  /** A minus sign in front of either number makes three parts. */
  lemma MinusMakesThree(a: string, b: string)
    requires '-' in a || '-' in b
    ensures |Split(a + "-" + b, '-')| >= 3
  {
    PartsAdd(a, b, '-');
    MoreParts(a, '-');
    MoreParts(b, '-');
  }

  lemma {:induction false} MoreParts(s: string, sep: char)
    ensures |Split(s, sep)| >= 2 <==> sep in s
  {
    if s != [] {
      MoreParts(s[1..], sep);
      assert s == [s[0]] + s[1..];
    }
  }

  lemma {:induction false} PartsAdd(a: string, b: string, sep: char)
    ensures |Split(a + [sep] + b, sep)| == |Split(a, sep)| + |Split(b, sep)|
  {
    if a == [] {
      assert a + [sep] + b == [sep] + b && ([sep] + b)[1..] == b;
    } else {
      PartsAdd(a[1..], b, sep);
      assert (a + [sep] + b)[1..] == a[1..] + [sep] + b && (a + [sep] + b)[0] == a[0];
    }
  }

  lemma SingleRoundTripIff(r: Ports.PortsRange)
    requires Ports.RangeFits(r) && r.single > 0
    ensures ParsePiece(Piece(r)) == Some(Ports.PortsRange(0, 0, r.single))
  {
    PrintedDigits(r.single);
    SplitOne(Itoa(r.single), '-');
  }

  lemma SignedFails(r: Ports.PortsRange)
    requires r.single <= 0 && (r.start < 0 || r.end < 0)
    ensures ParsePiece(Piece(r)).None?
  {
    ItoaMinus(r.start);
    ItoaMinus(r.end);
    MinusMakesThree(Itoa(r.start), Itoa(r.end));
  }

  lemma TwoParts(lo: nat, hi: nat)
    requires lo <= MAX_INT64 && hi <= MAX_INT64
    ensures Split(Itoa(lo) + "-" + Itoa(hi), '-') == [Itoa(lo), Itoa(hi)]
  {
    PrintedDigits(lo);
    PrintedDigits(hi);
    SplitTwo(Itoa(lo), Itoa(hi), '-');
    SplitOne(Itoa(hi), '-');
  }

  lemma UnsignedRoundTripIff(r: Ports.PortsRange)
    requires Ports.RangeFits(r) && r.single <= 0 && r.start >= 0 && r.end >= 0
    ensures ParsePiece(Piece(r)) == if r.end < r.start then None else Some(Ports.PortsRange(r.start, r.end, 0))
  {
    TwoParts(r.start, r.end);
    PrintedDigits(r.start);
    PrintedDigits(r.end);
  }

  lemma PieceRoundTripIff(r: Ports.PortsRange)
    requires Ports.RangeFits(r)
    ensures ParsePiece(Piece(r)) == Some(r) <==> Normal(r)
  {
    if r.single > 0 {
      SingleRoundTripIff(r);
    } else if r.start < 0 || r.end < 0 {
      SignedFails(r);
    } else {
      UnsignedRoundTripIff(r);
    }
  }

  lemma PieceHasNoComma(r: Ports.PortsRange)
    ensures ',' !in Piece(r)
    ensures Piece(r) != [] && !Space(Piece(r)[0]) && !Space(Piece(r)[|Piece(r)| - 1])
  {
    NumberHasNoComma(r.single);
    NumberHasNoComma(r.start);
    NumberHasNoComma(r.end);
  }

  lemma NumberHasNoComma(n: int)
    ensures var s := Itoa(n); ',' !in s && s != [] && !Space(s[0]) && !Space(s[|s| - 1])
  {
    if n >= 0 {
      DigitsHaveNoSigns(Itoa(n));
      assert Digit(Itoa(n)[0]) && Digit(Itoa(n)[|Itoa(n)| - 1]);
    } else {
      var d := Decimal(-n);
      DigitsHaveNoSigns(d);
      assert Digit(d[|d| - 1]) && Itoa(n)[|Itoa(n)| - 1] == d[|d| - 1];
    }
  }

  /** What is printed begins and ends with a piece, so nothing is trimmed off. */
  lemma {:induction false} JoinKeepsEnds(ps: seq<string>)
    requires ps != [] && forall i :: 0 <= i < |ps| ==> ps[i] != [] && !Space(ps[i][0]) && !Space(ps[i][|ps[i]| - 1])
    ensures var s := Join(ps, ','); s != [] && !Space(s[0]) && !Space(s[|s| - 1])
  {
    if |ps| > 1 {
      JoinKeepsEnds(ps[1..]);
      var t := Join(ps[1..], ',');
      assert Join(ps, ',')[|ps[0]| + |t|] == t[|t| - 1];
    }
  }

  lemma PrintedInPieces(rs: seq<Ports.PortsRange>)
    requires rs != []
    ensures Parsed(Printed(rs)) == ParsePieces(Pieces(rs))
  {
    var ps := Pieces(rs);
    forall i | 0 <= i < |rs|
      ensures ',' !in ps[i] && ps[i] != [] && !Space(ps[i][0]) && !Space(ps[i][|ps[i]| - 1])
    {
      PieceHasNoComma(rs[i]);
    }
    JoinKeepsEnds(ps);
    SplitJoin(ps, ',');
  }

  /** The printed form parses back to the list exactly if the list is not empty and every range
      in it is in normal form. */
  lemma RoundTripIff(rs: seq<Ports.PortsRange>)
    requires forall i :: 0 <= i < |rs| ==> Ports.RangeFits(rs[i])
    ensures Parsed(Printed(rs)) == Some(rs) <==> rs != [] && forall i :: 0 <= i < |rs| ==> Normal(rs[i])
  {
    if rs != [] {
      PrintedInPieces(rs);
      var ps := Pieces(rs);
      var xs := seq(|ps|, i requires 0 <= i < |ps| => ParsePiece(ps[i]));
      forall i | 0 <= i < |rs| ensures xs[i] == Some(rs[i]) <==> Normal(rs[i]) {
        PieceRoundTripIff(rs[i]);
      }
      CollectedIs(xs, rs);
    }
  }

  lemma CollectedIs<T>(xs: seq<Option<T>>, rs: seq<T>)
    requires |xs| == |rs|
    ensures Collected(xs) == Some(rs) <==> forall i :: 0 <= i < |xs| ==> xs[i] == Some(rs[i])
  {
    if Collected(xs).Some? && Collected(xs).value != rs {
      var i :| 0 <= i < |rs| && Collected(xs).value[i] != rs[i];
      assert xs[i] != Some(rs[i]);
    }
  }

  // ---------- white space ----------

  lemma SpacesHaveNoSigns(s: string)
    requires AllSpace(s)
    ensures '-' !in s && ',' !in s
  {
  }

  lemma SpacedNumber(n: nat, a: string, b: string)
    requires n <= MAX_INT64 && AllSpace(a) && AllSpace(b)
    ensures ParseInt(Trim(a + Itoa(n) + b)) == Some(n) && '-' !in a + Itoa(n) + b
  {
    PrintedDigits(n);
    TrimIgnoresSpace(a, Itoa(n), b);
    SpacesHaveNoSigns(a);
    SpacesHaveNoSigns(b);
  }

  /** White space around the numbers of a piece does not matter. */
  lemma SpacedPieces(lo: nat, hi: nat, a: string, b: string, c: string, d: string)
    requires lo <= hi <= MAX_INT64 && AllSpace(a) && AllSpace(b) && AllSpace(c) && AllSpace(d)
    ensures ParsePiece(a + Itoa(lo) + b) == Some(Ports.PortsRange(0, 0, lo))
    ensures ParsePiece((a + Itoa(lo) + b) + "-" + (c + Itoa(hi) + d)) == Some(Ports.PortsRange(lo, hi, 0))
  {
    var x, y := a + Itoa(lo) + b, c + Itoa(hi) + d;
    SpacedNumber(lo, a, b);
    SpacedNumber(hi, c, d);
    SplitOne(x, '-');
    SplitOne(y, '-');
    SplitTwo(x, y, '-');
  }

  /** Nor does it around the whole. */
  lemma SpacedList(a: string, s: string, b: string)
    requires AllSpace(a) && AllSpace(b)
    ensures Parsed(a + s + b) == Parsed(s) && ParsedNumbers(a + s + b) == ParsedNumbers(s)
  {
    TrimIgnoresSpace(a, s, b);
  }

  // ---------- what parses is in normal form ----------

  lemma {:induction false} TrimmedLeftIsInside(s: string, c: char)
    requires c !in s
    ensures c !in TrimLeft(s)
  {
    if s != [] && Space(s[0]) {
      TrimmedLeftIsInside(s[1..], c);
    }
  }

  lemma {:induction false} TrimmedRightIsInside(s: string, c: char)
    requires c !in s
    ensures c !in TrimRight(s)
  {
    if s != [] && Space(s[|s| - 1]) {
      TrimmedRightIsInside(s[..|s| - 1], c);
    }
  }

  lemma {:induction false} ValueNotNegative(s: string)
    requires forall i :: 0 <= i < |s| ==> Digit(s[i])
    ensures ValueOf(s) >= 0
  {
    if s != [] {
      ValueNotNegative(s[..|s| - 1]);
    }
  }

  lemma NoMinusNotNegative(part: string)
    requires '-' !in part && ParseInt(Trim(part)).Some?
    ensures 0 <= ParseInt(Trim(part)).value <= MAX_INT64
  {
    TrimmedLeftIsInside(part, '-');
    TrimmedRightIsInside(TrimLeft(part), '-');
    var s := Trim(part);
    assert s != [] ==> s[0] in s;
    var digits := if s != [] && s[0] == '+' then s[1..] else s;
    if Digits(digits) {
      ValueNotNegative(digits);
    }
  }

  lemma ParsedPieceIsNormal(s: string)
    requires ParsePiece(s).Some?
    ensures Normal(ParsePiece(s).value) && Ports.RangeFits(ParsePiece(s).value)
  {
    var parts := Split(s, '-');
    NoMinusNotNegative(parts[0]);
    if |parts| == 2 {
      NoMinusNotNegative(parts[1]);
    }
  }

  lemma ParsedIsNormal(s: string)
    requires Parsed(s).Some?
    ensures Parsed(s).value != [] && forall i :: 0 <= i < |Parsed(s).value| ==> Normal(Parsed(s).value[i]) && Ports.RangeFits(Parsed(s).value[i])
  {
    var ps := Split(Trim(s), ',');
    var rs := Parsed(s).value;
    var xs := seq(|ps|, i requires 0 <= i < |ps| => ParsePiece(ps[i]));
    assert Collected(xs) == Some(rs);
    forall i | 0 <= i < |rs| ensures Normal(rs[i]) && Ports.RangeFits(rs[i]) {
      assert xs[i] == Some(rs[i]) && xs[i] == ParsePiece(ps[i]);
      ParsedPieceIsNormal(ps[i]);
    }
  }

  /** Printing what was parsed and parsing it again changes nothing. */
  lemma ReparsesToTheSame(s: string)
    requires Parsed(s).Some?
    ensures Parsed(Printed(Parsed(s).value)) == Parsed(s)
  {
    ParsedIsNormal(s);
    RoundTripIff(Parsed(s).value);
  }

  // ---------- the expanded form ----------

  function Expansion(r: Ports.PortsRange): seq<int> {
    if r.single != 0 then [r.single] else Upward(r.start, r.end)
  }

  function Expansions(rs: seq<Ports.PortsRange>): seq<int> {
    if rs == [] then [] else Expansions(rs[..|rs| - 1]) + Expansion(rs[|rs| - 1])
  }

  datatype Numbers = Invalid | NeverEnds | Listed(ns: seq<int>)

  /** What the loop over one piece appends; nothing if it never ends. */
  ghost function Written(r: Ports.PortsRange): Option<seq<int>> {
    if r.single != 0 then Some([r.single]) else Counted(r.start, r.end)
  }

  /** What `ParseRangeNumbers` has after these pieces. */
  ghost function NumbersOf(ps: seq<string>): Numbers {
    if ps == [] then Listed([])
    else
      var k := |ps| - 1;
      var init, last := NumbersOf(ps[..k]), ParsePiece(ps[k]);
      if !init.Listed? then init
      else if last.None? then Invalid
      else if Written(last.value).None? then NeverEnds
      else Listed(init.ns + Written(last.value).value)
  }

  predicate Endless(r: Ports.PortsRange) {
    r.single == 0 && r.end == MAX_INT64
  }

  /** Exactly a range up to the largest 64-bit number is never written out. */
  lemma WrittenIff(r: Ports.PortsRange)
    requires Ports.RangeFits(r)
    ensures Written(r) == if Endless(r) then None else Some(Expansion(r))
  {
    CountsForEverIff(r.start, r.end);
  }

  ghost function ParsedNumbers(s: string): Numbers {
    NumbersOf(Split(Trim(s), ','))
  }

  lemma {:induction false} PiecesAndNumbers(ps: seq<string>)
    ensures var p, n := ParsePieces(ps), NumbersOf(ps);
            && (p.None? ==> !n.Listed?)
            && (p.Some? ==> n == if exists r :: r in p.value && Endless(r) then NeverEnds else Listed(Expansions(p.value)))
  {
    if ps != [] {
      var k := |ps| - 1;
      PiecesAndNumbers(ps[..k]);
      ParsePiecesLast(ps);
      if ParsePiece(ps[k]).Some? {
        ParsedPieceIsNormal(ps[k]);
        WrittenIff(ParsePiece(ps[k]).value);
      }
    }
  }

  lemma ParsePiecesLast(ps: seq<string>)
    requires ps != []
    ensures var k := |ps| - 1;
            var init, last := ParsePieces(ps[..k]), ParsePiece(ps[k]);
            ParsePieces(ps) == if init.None? || last.None? then None else Some(init.value + [last.value])
  {
    var k := |ps| - 1;
    var xs := seq(|ps|, i requires 0 <= i < |ps| => ParsePiece(ps[i]));
    var ys := seq(k, i requires 0 <= i < k => ParsePiece(ps[..k][i]));
    assert xs[..k] == ys;
  }

  /** What a piece does to the loop. */
  datatype Kind = Bad | Fine | Forever

  function KindOf(s: string): Kind {
    var r := ParsePiece(s);
    if r.None? then Bad else if Endless(r.value) then Forever else Fine
  }

  function KindsOf(ps: seq<string>): (r: seq<Kind>)
    ensures |r| == |ps| && forall i :: 0 <= i < |ps| ==> r[i] == KindOf(ps[i])
  {
    seq(|ps|, i requires 0 <= i < |ps| => KindOf(ps[i]))
  }

  /** Some piece goes on for ever, and every piece before it parses. */
  ghost predicate SomeForever(ks: seq<Kind>) {
    exists i :: 0 <= i < |ks| && ks[i] == Forever && Bad !in ks[..i]
  }

  lemma SomeForeverStep(ks: seq<Kind>)
    requires ks != []
    ensures var k := |ks| - 1; SomeForever(ks) <==> SomeForever(ks[..k]) || (ks[k] == Forever && Bad !in ks[..k])
  {
    var k := |ks| - 1;
    var init := ks[..k];
    assert forall i :: 0 <= i < k ==> init[i] == ks[i] && init[..i] == ks[..i];
  }

  /** A piece is a range up to the largest number, and every piece before it parses. */
  ghost predicate SomeEndless(ps: seq<string>) {
    SomeForever(KindsOf(ps))
  }

  lemma AllParseIff(ps: seq<string>)
    ensures ParsePieces(ps).Some? <==> Bad !in KindsOf(ps)
  {
    var xs := seq(|ps|, i requires 0 <= i < |ps| => ParsePiece(ps[i]));
    assert ParsePieces(ps) == Collected(xs);
    if ParsePieces(ps).None? {
      var j :| 0 <= j < |xs| && xs[j] == None;
      assert KindsOf(ps)[j] == Bad;
    } else {
      forall j | 0 <= j < |ps| ensures KindsOf(ps)[j] != Bad {
        assert xs[j] == ParsePiece(ps[j]) && xs[j] in xs;
      }
    }
  }

  lemma NumbersTell(ps: seq<string>)
    ensures NumbersOf(ps).Listed? ==> Bad !in KindsOf(ps)
    ensures NumbersOf(ps) == Invalid ==> Bad in KindsOf(ps)
  {
    PiecesAndNumbers(ps);
    AllParseIff(ps);
  }

  /** What the last piece decides. */
  lemma LastPiece(ps: seq<string>)
    requires ps != []
    ensures var k := |ps| - 1;
            var init := NumbersOf(ps[..k]);
            && (init.Listed? ==> (NumbersOf(ps) == NeverEnds <==> KindOf(ps[k]) == Forever))
            && (!init.Listed? ==> NumbersOf(ps) == init)
  {
    var k := |ps| - 1;
    if ParsePiece(ps[k]).Some? {
      ParsedPieceIsNormal(ps[k]);
      WrittenIff(ParsePiece(ps[k]).value);
    }
  }

  lemma {:induction false} NeverEndsIff(ps: seq<string>)
    ensures NumbersOf(ps) == NeverEnds <==> SomeEndless(ps)
  {
    if ps != [] {
      NeverEndsIff(ps[..|ps| - 1]);
      NumbersTell(ps[..|ps| - 1]);
      assert KindsOf(ps)[..|ps| - 1] == KindsOf(ps[..|ps| - 1]);
      SomeForeverStep(KindsOf(ps));
      LastPiece(ps);
    }
  }

  /** For every string, `ParseRangeNumbers` never ends exactly if one of its pieces is a range up to
      the largest 64-bit number and every piece before that one parses. Otherwise it fails on
      exactly the strings that do not parse as ranges, and on the others lists the ranges
      written out. */
  lemma NumbersAgree(s: string)
    ensures ParsedNumbers(s) == NeverEnds <==> SomeEndless(Split(Trim(s), ','))
    ensures ParsedNumbers(s) == Invalid ==> Parsed(s).None?
    ensures ParsedNumbers(s).Listed? ==> Parsed(s).Some? && ParsedNumbers(s).ns == Expansions(Parsed(s).value)
    ensures Parsed(s).Some? ==> (ParsedNumbers(s) == NeverEnds <==> exists r :: r in Parsed(s).value && Endless(r))
  {
    PiecesAndNumbers(Split(Trim(s), ','));
    NeverEndsIff(Split(Trim(s), ','));
  }

  ghost predicate SomeHas(rs: seq<Ports.PortsRange>, n: int) {
    exists i :: 0 <= i < |rs| && n in Expansion(rs[i])
  }

  lemma SomeHasStep(rs: seq<Ports.PortsRange>, n: int)
    requires rs != []
    ensures SomeHas(rs, n) <==> SomeHas(rs[..|rs| - 1], n) || n in Expansion(rs[|rs| - 1])
  {
    var k := |rs| - 1;
    assert forall i :: 0 <= i < k ==> rs[..k][i] == rs[i];
  }

  lemma {:induction false} ExpansionsHave(rs: seq<Ports.PortsRange>, n: int)
    ensures n in Expansions(rs) <==> SomeHas(rs, n)
  {
    if rs != [] {
      ExpansionsHave(rs[..|rs| - 1], n);
      SomeHasStep(rs, n);
    }
  }

  /** A new allocator for a string that parses comes into being exactly if `ParseRangeNumbers`
      ends on it, and then its free ports are exactly those numbers. */
  lemma AllowedAreTheNumbers(s: string, n: int)
    requires Parsed(s).Some?
    ensures ParsedNumbers(s).Listed? <==>
            forall i :: 0 <= i < |Parsed(s).value| ==> Ports.RangeEnds(Parsed(s).value[i])
    ensures ParsedNumbers(s).Listed? ==> (n in Ports.Allowed(Parsed(s).value) <==> n in ParsedNumbers(s).ns)
  {
    ParsedIsNormal(s);
    NumbersAgree(s);
    var rs := Parsed(s).value;
    ExpansionsHave(rs, n);
    forall i | 0 <= i < |rs|
      ensures n in Expansion(rs[i]) <==> n in Ports.RangePorts(rs[i])
      ensures Endless(rs[i]) <==> !Ports.RangeEnds(rs[i])
    {
      Ports.RangeEndsIff(rs[i]);
    }
  }

  /** `ParseRangeNumbers` and `NewManager` never come back from a range up to 2^63 - 1 in decimal
      notation, such as "1-9223372036854775807". */
  lemma NeverComesBack(lo: nat)
    requires lo <= MAX_INT64
    ensures var s, r := Itoa(lo) + "-" + Itoa(MAX_INT64), Ports.PortsRange(lo, MAX_INT64, 0);
            Parsed(s) == Some([r]) && ParsedNumbers(s) == NeverEnds && !Ports.RangeEnds(r)
  {
    var s, r := Itoa(lo) + "-" + Itoa(MAX_INT64), Ports.PortsRange(lo, MAX_INT64, 0);
    assert Pieces([r]) == [s] by { assert Pieces([r])[0] == Piece(r); }
    assert Printed([r]) == s;
    RoundTripIff([r]);
    NumbersAgree(s);
    assert r in [r] && Endless(r);
    Ports.RangeEndsIff(r);
  }

  // ---------- the loops ----------

  method PrintRanges(p: seq<Ports.PortsRange>) returns (s: string)
    ensures s == Printed(p)
  {
    if |p| == 0 {
      return "";
    }
    var strs: seq<string> := [];
    for i := 0 to |p|
      invariant |strs| == i && forall k :: 0 <= k < i ==> strs[k] == Piece(p[k])
    {
      if p[i].single > 0 {
        strs := strs + [Itoa(p[i].single)];
      } else {
        strs := strs + [Itoa(p[i].start) + "-" + Itoa(p[i].end)];
      }
    }
    assert strs == Pieces(p);
    return Join(strs, ',');
  }

  method NewPortsRangeSlice(str: string) returns (r: Option<seq<Ports.PortsRange>>)
    ensures r == Parsed(str)
  {
    var out: seq<Ports.PortsRange> := [];
    var pieces := Split(Trim(str), ',');
    for i := 0 to |pieces|
      invariant ParsePieces(pieces[..i]) == Some(out)
    {
      assert pieces[..i + 1][..i] == pieces[..i];
      ParsePiecesLast(pieces[..i + 1]);
      var piece := ReadPiece(pieces[i]);
      if piece.None? {
        StaysInvalid(pieces, i + 1);
        return None;
      }
      out := out + [piece.value];
    }
    assert pieces[..|pieces|] == pieces;
    return Some(out);
  }

  lemma StaysInvalid(ps: seq<string>, k: nat)
    requires k <= |ps| && ParsePieces(ps[..k]).None?
    ensures ParsePieces(ps).None?
  {
    var xs := seq(|ps|, i requires 0 <= i < |ps| => ParsePiece(ps[i]));
    var ys := seq(k, i requires 0 <= i < k => ParsePiece(ps[..k][i]));
    var i :| 0 <= i < k && ys[i] == None;
    assert xs[i] == None;
  }

  method ReadPiece(s: string) returns (r: Option<Ports.PortsRange>)
    ensures r == ParsePiece(s)
  {
    var numArray := Split(s, '-');
    if |numArray| == 1 {
      var singleNum := ParseInt(Trim(numArray[0]));
      if singleNum.None? {
        return None;
      }
      return Some(Ports.PortsRange(0, 0, singleNum.value));
    } else if |numArray| == 2 {
      var minNum := ParseInt(Trim(numArray[0]));
      if minNum.None? {
        return None;
      }
      var maxNum := ParseInt(Trim(numArray[1]));
      if maxNum.None? || maxNum.value < minNum.value {
        return None;
      }
      return Some(Ports.PortsRange(minNum.value, maxNum.value, 0));
    } else {
      return None;
    }
  }

  datatype Progress = Failed | Unfinished | Finished(numbers: seq<int>)

  /** Each counting loop is given up after `budget` rounds. However large the budget, the answer
      is `Unfinished` on a string on which the source never ends; with a budget of all 64-bit
      numbers it is only then. A single "0" is the same as the range from 0 to 0. */
  method ParseRangeNumbers(str: string, budget: nat) returns (r: Progress)
    ensures r.Finished? ==> ParsedNumbers(str) == Listed(r.numbers)
    ensures r.Failed? ==> ParsedNumbers(str) == Invalid
    ensures ParsedNumbers(str) == NeverEnds ==> r == Unfinished
    ensures budget >= WORD && r == Unfinished ==> ParsedNumbers(str) == NeverEnds
  {
    var numbers: seq<int> := [];
    var pieces := Split(Trim(str), ',');
    for k := 0 to |pieces|
      invariant NumbersOf(pieces[..k]) == Listed(numbers)
    {
      NumbersStep(pieces, k);
      var piece := ReadPiece(pieces[k]);
      if piece.None? {
        return Failed;
      }
      ParsedPieceIsNormal(pieces[k]);
      if piece.value.single != 0 {
        numbers := numbers + [piece.value.single];
      } else {
        var done;
        numbers, done := CountUp(numbers, piece.value.start, piece.value.end, budget);
        if !done {
          return Unfinished;
        }
      }
    }
    assert pieces[..|pieces|] == pieces;
    return Finished(numbers);
  }

  lemma NumbersStep(ps: seq<string>, k: nat)
    requires k < |ps| && NumbersOf(ps[..k]).Listed?
    ensures var last := ParsePiece(ps[k]);
            && (last.None? ==> NumbersOf(ps) == Invalid)
            && (last.Some? && Written(last.value).None? ==> NumbersOf(ps) == NeverEnds)
            && (last.Some? && Written(last.value).Some? ==>
                  NumbersOf(ps[..k + 1]) == Listed(NumbersOf(ps[..k]).ns + Written(last.value).value))
  {
    assert ps[..k + 1][..k] == ps[..k];
    if !NumbersOf(ps[..k + 1]).Listed? {
      NotListedStays(ps, k + 1);
    }
  }

  lemma {:induction false} NotListedStays(ps: seq<string>, k: nat)
    requires k <= |ps| && !NumbersOf(ps[..k]).Listed?
    ensures NumbersOf(ps) == NumbersOf(ps[..k])
  {
    if k < |ps| {
      var init := ps[..|ps| - 1];
      assert init[..k] == ps[..k];
      NotListedStays(init, k);
    } else {
      assert ps[..k] == ps;
    }
  }
}
