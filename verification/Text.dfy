/** The parts of Go's `strings` and `strconv` that the system's formats rest on. */
module Text {
  import opened Wrappers
  import opened Int64

  /** `strings.Split` at one character. */
  function Split(s: string, sep: char): (r: seq<string>)
    ensures |r| >= 1
    ensures forall i :: 0 <= i < |r| ==> sep !in r[i]
  {
    if s == [] then [[]]
    else
      var rest := Split(s[1..], sep);
      if s[0] == sep then [[]] + rest else [[s[0]] + rest[0]] + rest[1..]
  }

  /** `strings.Join` with one character. */
  function Join(parts: seq<string>, sep: char): string {
    if parts == [] then []
    else if |parts| == 1 then parts[0]
    else parts[0] + [sep] + Join(parts[1..], sep)
  }

  lemma {:induction false} JoinSplit(s: string, sep: char)
    ensures Join(Split(s, sep), sep) == s
  {
    if s != [] {
      JoinSplit(s[1..], sep);
      var rest := Split(s[1..], sep);
      if s[0] == sep {
        assert ([[]] + rest)[1..] == rest;
      } else {
        assert ([[s[0]] + rest[0]] + rest[1..])[1..] == rest[1..];
      }
    }
  }

  /** Putting a part without the separator in front puts it in front of the first part. */
  lemma {:induction false} SplitAfter(a: string, s: string, sep: char)
    requires sep !in a
    ensures Split(a + s, sep) == [a + Split(s, sep)[0]] + Split(s, sep)[1..]
  {
    var r := Split(s, sep);
    if a == [] {
      assert a + s == s;
      assert a + r[0] == r[0] && [r[0]] + r[1..] == r;
    } else {
      assert (a + s)[0] == a[0] && (a + s)[1..] == a[1..] + s;
      SplitAfter(a[1..], s, sep);
      assert a + r[0] == [a[0]] + (a[1..] + r[0]);
    }
  }

  lemma SplitOne(a: string, sep: char)
    requires sep !in a
    ensures Split(a, sep) == [a]
  {
    SplitAfter(a, [], sep);
    assert a + [] == a;
  }

  lemma SplitTwo(a: string, s: string, sep: char)
    requires sep !in a
    ensures Split(a + [sep] + s, sep) == [a] + Split(s, sep)
  {
    var t := [sep] + s;
    assert a + [sep] + s == a + t && t[1..] == s;
    assert Split(t, sep) == [[]] + Split(s, sep);
    SplitAfter(a, t, sep);
    assert a + [] == a;
  }

  lemma {:induction false} SplitJoin(parts: seq<string>, sep: char)
    requires parts != [] && forall i :: 0 <= i < |parts| ==> sep !in parts[i]
    ensures Split(Join(parts, sep), sep) == parts
  {
    if |parts| == 1 {
      SplitOne(parts[0], sep);
    } else {
      SplitJoin(parts[1..], sep);
      SplitTwo(parts[0], Join(parts[1..], sep), sep);
    }
  }

  // ---------- order ----------

  /** Lexicographic order, as Go compares strings. */
  predicate Less(a: string, b: string) {
    b != [] && (a == [] || a[0] < b[0] || (a[0] == b[0] && Less(a[1..], b[1..])))
  }

  lemma {:induction false} LessIrreflexive(a: string)
    ensures !Less(a, a)
  {
    if a != [] { LessIrreflexive(a[1..]); }
  }

  lemma {:induction false} LessTransitive(a: string, b: string, c: string)
    requires Less(a, b) && Less(b, c)
    ensures Less(a, c)
  {
    if a != [] && a[0] == b[0] && b[0] == c[0] { LessTransitive(a[1..], b[1..], c[1..]); }
  }

  lemma {:induction false} LessTotal(a: string, b: string)
    requires a != b
    ensures Less(a, b) || Less(b, a)
  {
    if a != [] && b != [] && a[0] == b[0] {
      assert a == [a[0]] + a[1..] && b == [b[0]] + b[1..];
      LessTotal(a[1..], b[1..]);
    }
  }

  // ---------- trimming ----------

  /** `unicode.IsSpace`. */
  predicate Space(c: char) {
    var k := c as int;
    || k == 0x20 || 9 <= k <= 13 || k == 0x85 || k == 0xA0 || k == 0x1680 || 0x2000 <= k <= 0x200A
    || k == 0x2028 || k == 0x2029 || k == 0x202F || k == 0x205F || k == 0x3000
  }

  function TrimLeft(s: string): string {
    if s != [] && Space(s[0]) then TrimLeft(s[1..]) else s
  }

  function TrimRight(s: string): string {
    if s != [] && Space(s[|s| - 1]) then TrimRight(s[..|s| - 1]) else s
  }

  /** `strings.TrimSpace`. */
  function Trim(s: string): string {
    TrimRight(TrimLeft(s))
  }

  // ---------- decimal numbers ----------

  predicate Digit(c: char) {
    '0' <= c <= '9'
  }

  predicate Digits(s: string) {
    s != [] && forall i :: 0 <= i < |s| ==> Digit(s[i])
  }

  function ValueOf(s: string): (r: int)
    requires forall i :: 0 <= i < |s| ==> Digit(s[i])
  {
    if s == [] then 0 else 10 * ValueOf(s[..|s| - 1]) + (s[|s| - 1] as int - '0' as int)
  }

  /** `strconv.ParseInt(s, 10, 64)`. */
  function ParseInt(s: string): (r: Option<int>) {
    var digits := if s != [] && (s[0] == '+' || s[0] == '-') then s[1..] else s;
    if !Digits(digits) then None
    else
      var v := ValueOf(digits);
      if s[0] == '-' then (if v <= MAX_INT64 + 1 then Some(-v) else None)
      else if v <= MAX_INT64 then Some(v) else None
  }

  function Decimal(n: nat): (r: string)
    ensures Digits(r)
  {
    var last := [('0' as int + n % 10) as char];
    if n < 10 then last else Decimal(n / 10) + last
  }

  /** `strconv.Itoa`. */
  function Itoa(n: int): string {
    if n < 0 then "-" + Decimal(-n) else Decimal(n)
  }

  lemma {:induction false} DecimalValue(n: nat)
    ensures ValueOf(Decimal(n)) == n
  {
    var r := Decimal(n);
    var last := [('0' as int + n % 10) as char];
    if n < 10 {
      assert r[..0] == [];
    } else {
      DecimalValue(n / 10);
      assert r[..|r| - 1] == Decimal(n / 10);
    }
  }

  lemma ParseIntItoa(n: nat)
    requires n <= MAX_INT64
    ensures Itoa(n) == Decimal(n) && ParseInt(Itoa(n)) == Some(n)
  {
    DecimalValue(n);
    assert Digit(Decimal(n)[0]);
  }

  /** Every number of 64 bits is read back as printed, and no other is accepted. */
  lemma ParsesPrinted(n: int)
    ensures ParseInt(Itoa(n)) == if Fits(n) then Some(n) else None
  {
    if n >= 0 {
      DecimalValue(n);
      assert Digit(Decimal(n)[0]);
    } else {
      DecimalValue(-n);
      assert Itoa(n)[1..] == Decimal(-n);
    }
  }

  /** A plus sign changes nothing. */
  lemma PlusIsAccepted(n: nat)
    ensures ParseInt("+" + Itoa(n)) == ParseInt(Itoa(n))
  {
    assert ("+" + Decimal(n))[1..] == Decimal(n);
    assert Digit(Decimal(n)[0]);
  }

  /** Blanks, tabs and line ends are space; signs, separators and digits are not. */
  lemma SpaceMeans(c: char)
    ensures c in " \t\n\r" ==> Space(c)
    ensures c in "+-,." || Digit(c) || 'a' <= c <= 'z' || 'A' <= c <= 'Z' ==> !Space(c)
  {
  }

  predicate AllSpace(s: string) {
    forall i :: 0 <= i < |s| ==> Space(s[i])
  }

  lemma {:induction false} TrimLeftSkips(a: string, s: string)
    requires AllSpace(a)
    ensures TrimLeft(a + s) == TrimLeft(s)
  {
    if a == [] {
      assert a + s == s;
    } else {
      assert (a + s)[1..] == a[1..] + s;
      TrimLeftSkips(a[1..], s);
    }
  }

  lemma {:induction false} TrimRightSkips(s: string, b: string)
    requires AllSpace(b)
    ensures TrimRight(s + b) == TrimRight(s)
    decreases |b|
  {
    if b == [] {
      assert s + b == s;
    } else {
      var k := |b| - 1;
      assert (s + b)[..|s + b| - 1] == s + b[..k] && (s + b)[|s + b| - 1] == b[k];
      TrimRightSkips(s, b[..k]);
    }
  }

  lemma {:induction false} TrimLeftOfRest(s: string, b: string)
    requires AllSpace(b)
    ensures TrimLeft(s + b) == if AllSpace(s) then [] else TrimLeft(s) + b
  {
    if s == [] {
      assert s + b == b;
      TrimLeftSkips(b, []);
      assert b + [] == b;
    } else {
      assert (s + b)[1..] == s[1..] + b && (s + b)[0] == s[0];
      if Space(s[0]) {
        TrimLeftOfRest(s[1..], b);
        assert AllSpace(s) <==> AllSpace(s[1..]) by {
          assert forall i :: 1 <= i < |s| ==> s[i] == s[1..][i - 1];
          assert forall i :: 0 <= i < |s[1..]| ==> s[1..][i] == s[i + 1];
        }
      }
    }
  }

  lemma {:induction false} TrimLeftOfSpace(s: string)
    requires AllSpace(s)
    ensures TrimLeft(s) == []
  {
    TrimLeftSkips(s, []);
    assert s + [] == s;
  }

  /** White space around a text does not matter, and none is left. */
  lemma TrimIgnoresSpace(a: string, s: string, b: string)
    requires AllSpace(a) && AllSpace(b)
    ensures Trim(a + s + b) == Trim(s)
  {
    assert a + s + b == a + (s + b);
    TrimLeftSkips(a, s + b);
    TrimLeftOfRest(s, b);
    if AllSpace(s) {
      TrimLeftOfSpace(s);
    } else {
      TrimRightSkips(TrimLeft(s), b);
    }
  }

  lemma TrimDigits(s: string)
    requires Digits(s)
    ensures Trim(s) == s
  {
    assert Digit(s[0]) && Digit(s[|s| - 1]);
  }
}
