/** Lists without repetitions, and taking an element out of them. */
module Sequences {

  ghost predicate Distinct<T>(s: seq<T>) {
    forall i, j :: 0 <= i < j < |s| ==> s[i] != s[j]
  }

  /** `s` without the first `x`. */
  function Without<T(==)>(s: seq<T>, x: T): (r: seq<T>)
    ensures forall k :: 0 <= k < |r| ==> r[k] in s
    ensures forall k :: 0 <= k < |s| && s[k] != x ==> s[k] in r
  {
    if s == [] then []
    else if s[0] == x then s[1..]
    else [s[0]] + Without(s[1..], x)
  }

  lemma {:induction false} WithoutDrops<T>(s: seq<T>, x: T)
    requires Distinct(s)
    ensures Distinct(Without(s, x)) && x !in Without(s, x)
    ensures |Without(s, x)| == |s| - (if x in s then 1 else 0)
  {
    if s != [] {
      var rest := s[1..];
      assert s == [s[0]] + rest;
      assert s[0] !in rest;
      if s[0] != x {
        WithoutDrops(rest, x);
      }
    }
  }

  /** What the removing loop has to know in its round `i`. */
  lemma WithoutFrom<T>(s: seq<T>, x: T, i: nat)
    requires i < |s|
    ensures Without(s[i..], x) == if s[i] == x then s[i + 1..] else [s[i]] + Without(s[i + 1..], x)
    ensures s[..i] + ([s[i]] + Without(s[i + 1..], x)) == s[..i + 1] + Without(s[i + 1..], x)
  {
    var tail := s[i..];
    assert tail[0] == s[i] && tail[1..] == s[i + 1..];
    Shifted(s, i, Without(s[i + 1..], x));
  }

  lemma Shifted<T>(s: seq<T>, i: nat, t: seq<T>)
    requires i < |s|
    ensures s[..i] + ([s[i]] + t) == s[..i + 1] + t
  {
    assert s[..i + 1] == s[..i] + [s[i]];
  }

  lemma AppendNew<T>(s: seq<T>, x: T)
    ensures Distinct(s) && x !in s ==> Distinct(s + [x])
  {
  }
}
