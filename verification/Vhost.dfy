/** Virtual-host routing (pkg/util/vhost/router.go, http.go, vhost.go): the index of routes,
    and the lookup by host, path and HTTP user.

    Lower-casing is that of ASCII letters.
 */
module Vhost {
  import opened Wrappers
  import opened Text

  /** A route is identified by its lower-case domain, its location and its user. */
  datatype Key = Key(domain: string, location: string, user: string)

  datatype Router<P> = Router(key: Key, payload: P)

  function LowerChar(c: char): char {
    if 'A' <= c <= 'Z' then c - 'A' + 'a' else c
  }

  function Lower(s: string): (r: string)
    ensures |r| == |s| && forall i :: 0 <= i < |s| ==> r[i] == LowerChar(s[i])
  {
    seq(|s|, i requires 0 <= i < |s| => LowerChar(s[i]))
  }

  // ---------- the order of locations ----------

  /** A proper prefix is smaller. */
  lemma {:induction false} PrefixLess(a: string, b: string)
    requires a <= b && a != b
    ensures Less(a, b)
  {
    if a != [] { PrefixLess(a[1..], b[1..]); }
  }

  /** Of two prefixes of one path the lexicographically greater is the longer. */
  lemma GreaterPrefixIsLonger(a: string, b: string, path: string)
    requires a <= path && b <= path && Less(a, b)
    ensures |a| < |b|
  {
    if |b| <= |a| {
      assert b <= a;
      if a == b {
        LessIrreflexive(a);
      } else {
        PrefixLess(b, a);
        LessTransitive(a, b, a);
        LessIrreflexive(a);
      }
    }
  }

  ghost predicate Descending<P>(rs: seq<Router<P>>) {
    forall i, j :: 0 <= i < j < |rs| ==> Less(rs[j].key.location, rs[i].key.location)
  }

  ghost predicate Unique<P>(rs: seq<Router<P>>) {
    forall i, j :: 0 <= i < j < |rs| ==> rs[i].key.location != rs[j].key.location
  }

  /** Puts `r` in front of the first smaller location. */
  function InsertDescending<P>(rs: seq<Router<P>>, r: Router<P>): (t: seq<Router<P>>)
    ensures r in t && forall i :: 0 <= i < |rs| ==> rs[i] in t
    ensures forall i :: 0 <= i < |t| ==> t[i] == r || t[i] in rs
    ensures |t| == |rs| + 1
  {
    if rs == [] then [r]
    else if Less(rs[0].key.location, r.key.location) then [r] + rs
    else [rs[0]] + InsertDescending(rs[1..], r)
  }

  lemma GreaterInFront<P>(r: Router<P>, rs: seq<Router<P>>)
    requires Descending(rs) && forall j :: 0 <= j < |rs| ==> Less(rs[j].key.location, r.key.location)
    ensures Descending([r] + rs)
  {
  }

  lemma {:induction false} InsertKeepsDescending<P>(rs: seq<Router<P>>, r: Router<P>)
    requires Descending(rs) && forall i :: 0 <= i < |rs| ==> rs[i].key.location != r.key.location
    ensures Descending(InsertDescending(rs, r))
  {
    if rs != [] {
      if Less(rs[0].key.location, r.key.location) {
        forall j | 0 <= j < |rs| ensures Less(rs[j].key.location, r.key.location) {
          if j > 0 { LessTransitive(rs[j].key.location, rs[0].key.location, r.key.location); }
        }
        GreaterInFront(r, rs);
      } else {
        LessTotal(rs[0].key.location, r.key.location);
        InsertKeepsDescending(rs[1..], r);
        var tail := InsertDescending(rs[1..], r);
        forall j | 0 <= j < |tail| ensures Less(tail[j].key.location, rs[0].key.location) {
          if tail[j] != r {
            var k :| 0 <= k < |rs[1..]| && rs[1..][k] == tail[j];
            assert rs[k + 1] == tail[j];
          }
        }
        GreaterInFront(rs[0], tail);
      }
    }
  }

  /** The list after `slices.SortFunc`, greatest location first. */
  function SortDescending<P>(rs: seq<Router<P>>): (t: seq<Router<P>>)
    ensures forall i :: 0 <= i < |rs| ==> rs[i] in t
    ensures forall i :: 0 <= i < |t| ==> t[i] in rs
    ensures |t| == |rs|
  {
    if rs == [] then []
    else InsertDescending(SortDescending(rs[..|rs| - 1]), rs[|rs| - 1])
  }

  lemma {:induction false} InsertIsPermutation<P>(rs: seq<Router<P>>, r: Router<P>)
    ensures multiset(InsertDescending(rs, r)) == multiset(rs) + multiset{r}
  {
    if rs != [] && !Less(rs[0].key.location, r.key.location) {
      InsertIsPermutation(rs[1..], r);
      assert rs == [rs[0]] + rs[1..];
    }
  }

  /** Sorting loses and invents nothing. */
  lemma {:induction false} SortIsPermutation<P>(rs: seq<Router<P>>)
    ensures multiset(SortDescending(rs)) == multiset(rs)
  {
    if rs != [] {
      SortIsPermutation(rs[..|rs| - 1]);
      InsertIsPermutation(SortDescending(rs[..|rs| - 1]), rs[|rs| - 1]);
      assert rs == rs[..|rs| - 1] + [rs[|rs| - 1]];
    }
  }

  lemma {:induction false} SortIsDescending<P>(rs: seq<Router<P>>)
    requires Unique(rs)
    ensures Descending(SortDescending(rs))
  {
    if rs != [] {
      var init := rs[..|rs| - 1];
      var last := rs[|rs| - 1];
      SortIsDescending(init);
      forall i | 0 <= i < |SortDescending(init)|
        ensures SortDescending(init)[i].key.location != last.key.location
      {
        assert SortDescending(init)[i] in SortDescending(init);
        var k :| 0 <= k < |init| && init[k] == SortDescending(init)[i];
        assert rs[k] == init[k];
      }
      InsertKeepsDescending(SortDescending(init), last);
    }
  }

  // ---------- what a lookup means ----------

  /** The longest live location among the first `n` characters of the path. */
  function Longest<P>(live: map<Key, P>, domain: string, user: string, path: string, n: nat): (r: Option<Key>)
    requires n <= |path|
    ensures r.Some? ==> r.value in live && r.value.domain == domain && r.value.user == user
                        && r.value.location <= path && |r.value.location| <= n
  {
    if Key(domain, path[..n], user) in live then Some(Key(domain, path[..n], user))
    else if n == 0 then None
    else Longest(live, domain, user, path, n - 1)
  }

  lemma {:induction false} LongestIsLongest<P>(live: map<Key, P>, path: string, n: nat, k: Key)
    requires n <= |path| && k in live && k.location <= path && |k.location| <= n
    ensures var r := Longest(live, k.domain, k.user, path, n); r.Some? && |k.location| <= |r.value.location|
  {
    if |k.location| == n {
      assert k == Key(k.domain, path[..n], k.user);
    } else {
      LongestIsLongest(live, path, n - 1, k);
    }
  }

  /** Within a host pattern, the exact user before the empty one. */
  function Find<P>(live: map<Key, P>, pattern: string, path: string, user: string): Option<Key> {
    var r := Longest(live, Lower(pattern), user, path, |path|);
    if r.Some? then r else Longest(live, Lower(pattern), "", path, |path|)
  }

  function FirstFound<P>(live: map<Key, P>, patterns: seq<string>, path: string, user: string): (r: Option<Key>)
    ensures r.Some? ==> r.value in live
  {
    if patterns == [] then None
    else
      var r := Find(live, patterns[0], path, user);
      if r.Some? then r else FirstFound(live, patterns[1..], path, user)
  }

  // ---------- host patterns ----------

  predicate HasDot(s: string) {
    '.' in s
  }

  /** The wildcard hosts that the loop tries: at least two labels stay. */
  function Wildcards(labels: seq<string>): seq<string> {
    if |labels| < 3 then []
    else [Join(["*"] + labels[1..], '.')] + Wildcards(labels[1..])
  }

  function Patterns(host: string): seq<string> {
    [host] + Wildcards(Split(host, '.')) + ["*"]
  }

  /** The lookup of both `getVhost` and `getListener`. */
  function Lookup<P>(live: map<Key, P>, host: string, path: string, user: string): (r: Option<Key>)
    ensures r.Some? ==> r.value in live
  {
    FirstFound(live, Patterns(host), path, user)
  }

  // ---------- the most specific route ----------

  /** A wildcard for `host`: "*" for everything before a dot that has another dot after it. */
  ghost predicate WildcardAt(pattern: string, host: string, i: nat) {
    i < |host| && host[i] == '.' && HasDot(host[i + 1..]) && pattern == "*" + host[i..]
  }

  ghost predicate IsWildcard(pattern: string, host: string) {
    exists i: nat :: WildcardAt(pattern, host, i)
  }

  ghost predicate HostMatches(domain: string, host: string) {
    domain == Lower(host) || domain == "*" || exists w :: IsWildcard(w, host) && domain == Lower(w)
  }

  ghost predicate Matches(k: Key, host: string, path: string, user: string) {
    HostMatches(k.domain, host) && k.location <= path && (k.user == user || k.user == "")
  }

  /** The exact host first, longer wildcards before shorter ones, "*" last. */
  function HostRank(domain: string, host: string): nat {
    if domain == Lower(host) then |host| + 2 else if domain == "*" then 0 else |domain|
  }

  predicate AtLeastAsSpecific(a: Key, b: Key, host: string, user: string) {
    var ha, hb := HostRank(a.domain, host), HostRank(b.domain, host);
    || ha > hb
    || (ha == hb && a.user == user && b.user != user)
    || (ha == hb && a.user == b.user && |a.location| >= |b.location|)
  }

  lemma {:induction false} HasDotIffLabels(labels: seq<string>)
    requires |labels| >= 1 && forall i :: 0 <= i < |labels| ==> !HasDot(labels[i])
    ensures HasDot(Join(labels, '.')) <==> |labels| >= 2
  {
    if |labels| >= 2 {
      assert Join(labels, '.')[|labels[0]|] == '.';
    }
  }

  lemma SuffixOfTail(head: string, tail: string, i: nat)
    requires i <= |tail|
    ensures (head + "." + tail)[|head| + 1 + i..] == tail[i..]
  {
  }

  lemma WildcardFromTail(head: string, tail: string, w: string, i: nat)
    requires WildcardAt(w, tail, i)
    ensures WildcardAt(w, head + "." + tail, |head| + 1 + i)
  {
    SuffixOfTail(head, tail, i);
    SuffixOfTail(head, tail, i + 1);
  }

  lemma DotAfterHead(head: string, tail: string, i: nat)
    requires !HasDot(head) && i <= |head| + |tail| && (head + "." + tail)[i] == '.'
    ensures i >= |head|
  {
    var host := head + "." + tail;
    assert forall k :: 0 <= k < |head| ==> host[k] in head;
  }

  lemma WildcardToTail(head: string, tail: string, w: string, i: nat)
    requires !HasDot(head) && WildcardAt(w, head + "." + tail, i)
    ensures i >= |head|
    ensures i == |head| ==> HasDot(tail) && w == "*" + "." + tail
    ensures i > |head| ==> WildcardAt(w, tail, i - |head| - 1)
  {
    DotAfterHead(head, tail, i);
    SuffixOfTail(head, tail, i - |head|);
    if i == |head| {
      assert (head + "." + tail)[i..] == "." + tail;
    } else {
      SuffixOfTail(head, tail, i - |head| - 1);
      assert (head + "." + tail)[i] == tail[i - |head| - 1];
    }
  }

  lemma WildcardAtFirstDot(head: string, tail: string)
    requires !HasDot(head) && HasDot(tail)
    ensures IsWildcard("*" + "." + tail, head + "." + tail)
  {
    var host := head + "." + tail;
    assert host[|head|..] == "." + tail && host[|head| + 1..] == tail;
    assert WildcardAt("*" + "." + tail, host, |head|);
  }

  lemma WildcardIsOfTail(head: string, tail: string, w: string)
    requires !HasDot(head) && IsWildcard(w, head + "." + tail)
    ensures IsWildcard(w, tail) || (HasDot(tail) && w == "*" + "." + tail)
  {
    var i: nat :| WildcardAt(w, head + "." + tail, i);
    WildcardToTail(head, tail, w, i);
  }

  /** The wildcards of a host are those of its tail and the one at its first dot. */
  lemma WildcardsOfTail(head: string, tail: string, w: string)
    requires !HasDot(head)
    ensures IsWildcard(w, head + "." + tail) <==> IsWildcard(w, tail) || (HasDot(tail) && w == "*" + "." + tail)
  {
    if IsWildcard(w, head + "." + tail) {
      WildcardIsOfTail(head, tail, w);
    } else {
      if HasDot(tail) {
        WildcardAtFirstDot(head, tail);
      }
      if i: nat :| WildcardAt(w, tail, i) {
        WildcardFromTail(head, tail, w, i);
      }
    }
  }

  /** The loop's wildcards are the wildcards of the host. */
  lemma {:induction false} WildcardsAreWildcards(labels: seq<string>, w: string)
    requires |labels| >= 1 && forall i :: 0 <= i < |labels| ==> !HasDot(labels[i])
    ensures w in Wildcards(labels) <==> IsWildcard(w, Join(labels, '.'))
  {
    if |labels| == 1 {
      assert forall i: nat :: i < |labels[0]| ==> labels[0][i] in labels[0];
    } else {
      WildcardsOfTail(labels[0], Join(labels[1..], '.'), w);
      WildcardsAreWildcards(labels[1..], w);
      HasDotIffLabels(labels[1..]);
      if |labels| >= 3 {
        assert (["*"] + labels[1..])[1..] == labels[1..];
        assert Join(["*"] + labels[1..], '.') == "*" + "." + Join(labels[1..], '.');
      }
    }
  }

  /** Earlier wildcards are longer. */
  lemma {:induction false} WildcardsShrink(labels: seq<string>, w: string)
    requires w in Wildcards(labels)
    ensures |w| <= |Join(labels, '.')| + 1
    ensures |labels| >= 3 && (w == Wildcards(labels)[0] || |w| < |Wildcards(labels)[0]|)
  {
    assert (["*"] + labels[1..])[1..] == labels[1..];
    assert Join(["*"] + labels[1..], '.') == "*" + "." + Join(labels[1..], '.');
    if w != Wildcards(labels)[0] {
      assert w in Wildcards(labels[1..]);
      WildcardsShrink(labels[1..], w);
    }
  }

  // ---------- the lookup finds the most specific match ----------

  lemma FindIsBest<P>(live: map<Key, P>, pattern: string, path: string, user: string, k: Key)
    requires k in live && k.domain == Lower(pattern) && k.location <= path && (k.user == user || k.user == "")
    ensures Find(live, pattern, path, user).Some?
    ensures var b := Find(live, pattern, path, user).value;
            (b.user == user && k.user != user) || (b.user == k.user && |b.location| >= |k.location|)
  {
    LongestIsLongest(live, path, |path|, k);
  }

  lemma FoundMatches<P>(live: map<Key, P>, pattern: string, path: string, user: string)
    requires Find(live, pattern, path, user).Some?
    ensures var r := Find(live, pattern, path, user).value;
            && r in live && r.domain == Lower(pattern) && r.location <= path
            && (r.user == user || r.user == "")
  {
  }

  /** What a scan over wildcards finds, against any live route of one of them. */
  lemma {:induction false} WildcardScan<P>(live: map<Key, P>, labels: seq<string>, path: string, user: string)
    ensures var r := FirstFound(live, Wildcards(labels), path, user);
            && (r.Some? ==> exists w :: w in Wildcards(labels) && Find(live, w, path, user) == r)
            && (forall w :: w in Wildcards(labels) && Find(live, w, path, user).Some? ==>
                  r.Some? && |r.value.domain| >= |w| && (|r.value.domain| == |w| ==> r == Find(live, w, path, user)))
  {
    var ws := Wildcards(labels);
    if |labels| >= 3 {
      var rest := Wildcards(labels[1..]);
      assert ws[1..] == rest;
      WildcardScan(live, labels[1..], path, user);
      var r := FirstFound(live, ws, path, user);
      forall w | w in ws && Find(live, w, path, user).Some?
        ensures r.Some? && |r.value.domain| >= |w| && (|r.value.domain| == |w| ==> r == Find(live, w, path, user))
      {
        WildcardsShrink(labels, w);
      }
      if Find(live, ws[0], path, user).Some? {
        assert ws[0] in ws;
      } else if r.Some? {
        var w :| w in rest && Find(live, w, path, user) == r;
        assert w in ws;
      }
    }
  }

  lemma {:induction false} FirstFoundConcat<P>(live: map<Key, P>, a: seq<string>, b: seq<string>, path: string, user: string)
    ensures FirstFound(live, a + b, path, user)
            == if FirstFound(live, a, path, user).Some? then FirstFound(live, a, path, user)
               else FirstFound(live, b, path, user)
  {
    if a == [] {
      assert a + b == b;
    } else {
      assert (a + b)[1..] == a[1..] + b;
      FirstFoundConcat(live, a[1..], b, path, user);
    }
  }

  /** The lookup in three parts: the host itself, its wildcards, "*". */
  lemma LookupInParts<P>(live: map<Key, P>, host: string, path: string, user: string)
    ensures Lookup(live, host, path, user) ==
            var exact := Find(live, host, path, user);
            var wild := FirstFound(live, Wildcards(Split(host, '.')), path, user);
            if exact.Some? then exact else if wild.Some? then wild else Find(live, "*", path, user)
  {
    var ws := Wildcards(Split(host, '.'));
    FirstFoundConcat(live, [host] + ws, ["*"], path, user);
    FirstFoundConcat(live, [host], ws, path, user);
    assert FirstFound(live, [host][1..], path, user) == None;
    assert FirstFound(live, ["*"][1..], path, user) == None;
  }

  lemma WildcardLength(w: string, host: string)
    requires IsWildcard(w, host)
    ensures 2 <= |w| <= |host| + 1
  {
  }

  lemma WildcardRank(domain: string, host: string)
    requires HostMatches(domain, host) && domain != Lower(host) && domain != "*"
    ensures HostRank(domain, host) == |domain| && 2 <= |domain| <= |host| + 1
  {
    var w :| IsWildcard(w, host) && domain == Lower(w);
    WildcardLength(w, host);
  }

  /** What the scan over the wildcards of a host finds is one of its wildcards. */
  lemma WildFound<P>(live: map<Key, P>, host: string, path: string, user: string)
    requires FirstFound(live, Wildcards(Split(host, '.')), path, user).Some?
    ensures var r := FirstFound(live, Wildcards(Split(host, '.')), path, user);
            exists w :: IsWildcard(w, host) && Find(live, w, path, user) == r
  {
    JoinSplit(host, '.');
    WildcardScan(live, Split(host, '.'), path, user);
    var r := FirstFound(live, Wildcards(Split(host, '.')), path, user);
    var w :| w in Wildcards(Split(host, '.')) && Find(live, w, path, user) == r;
    WildcardsAreWildcards(Split(host, '.'), w);
  }

  /** And it is found under the longest wildcard that has a match. */
  lemma WildBeats<P>(live: map<Key, P>, host: string, path: string, user: string, w: string)
    requires IsWildcard(w, host) && Find(live, w, path, user).Some?
    ensures var r := FirstFound(live, Wildcards(Split(host, '.')), path, user);
            r.Some? && |r.value.domain| >= |w| && (|r.value.domain| == |w| ==> r == Find(live, w, path, user))
  {
    JoinSplit(host, '.');
    WildcardsAreWildcards(Split(host, '.'), w);
    WildcardScan(live, Split(host, '.'), path, user);
  }

  /** The route found is live and matches. */
  lemma LookupMatches<P>(live: map<Key, P>, host: string, path: string, user: string)
    requires Lookup(live, host, path, user).Some?
    ensures var r := Lookup(live, host, path, user).value; r in live && Matches(r, host, path, user)
  {
    LookupInParts(live, host, path, user);
    if Find(live, host, path, user).Some? {
      FoundMatches(live, host, path, user);
    } else if FirstFound(live, Wildcards(Split(host, '.')), path, user).Some? {
      WildFound(live, host, path, user);
      var w :| IsWildcard(w, host) && Find(live, w, path, user) == Lookup(live, host, path, user);
      FoundMatches(live, w, path, user);
    } else {
      assert Lower("*") == "*";
      FoundMatches(live, "*", path, user);
    }
  }

  lemma ExactBeats<P>(live: map<Key, P>, host: string, path: string, user: string, k: Key)
    requires k in live && Matches(k, host, path, user) && Find(live, host, path, user).Some?
    ensures AtLeastAsSpecific(Find(live, host, path, user).value, k, host, user)
  {
    FoundMatches(live, host, path, user);
    if k.domain == Lower(host) {
      FindIsBest(live, host, path, user, k);
    } else if k.domain != "*" {
      WildcardRank(k.domain, host);
    }
  }

  lemma WildFoundRank<P>(live: map<Key, P>, host: string, path: string, user: string)
    requires Find(live, host, path, user).None?
    requires FirstFound(live, Wildcards(Split(host, '.')), path, user).Some?
    ensures var r := FirstFound(live, Wildcards(Split(host, '.')), path, user).value;
            HostRank(r.domain, host) == |r.domain| >= 2
  {
    var r := FirstFound(live, Wildcards(Split(host, '.')), path, user).value;
    WildFound(live, host, path, user);
    var v :| IsWildcard(v, host) && Find(live, v, path, user) == Some(r);
    FoundMatches(live, v, path, user);
    WildcardLength(v, host);
    if r.domain == Lower(host) {
      FindIsBest(live, host, path, user, r);
    }
  }

  lemma WildcardBeats<P>(live: map<Key, P>, host: string, path: string, user: string, k: Key)
    requires k in live && Matches(k, host, path, user) && k.domain != Lower(host)
    requires Find(live, host, path, user).None?
    requires FirstFound(live, Wildcards(Split(host, '.')), path, user).Some?
    ensures AtLeastAsSpecific(FirstFound(live, Wildcards(Split(host, '.')), path, user).value, k, host, user)
  {
    WildFoundRank(live, host, path, user);
    if k.domain != "*" {
      WildcardRank(k.domain, host);
      var w :| IsWildcard(w, host) && k.domain == Lower(w);
      FindIsBest(live, w, path, user, k);
      WildBeats(live, host, path, user, w);
    }
  }

  /** Every live route that matches is at most as specific as the one found. */
  lemma LookupBeats<P>(live: map<Key, P>, host: string, path: string, user: string, k: Key)
    requires k in live && Matches(k, host, path, user)
    ensures Lookup(live, host, path, user).Some?
    ensures AtLeastAsSpecific(Lookup(live, host, path, user).value, k, host, user)
  {
    LookupInParts(live, host, path, user);
    if k.domain == Lower(host) {
      FindIsBest(live, host, path, user, k);
    }
    if Find(live, host, path, user).Some? {
      ExactBeats(live, host, path, user, k);
    } else if FirstFound(live, Wildcards(Split(host, '.')), path, user).Some? {
      WildcardBeats(live, host, path, user, k);
    } else {
      if k.domain != "*" {
        var w :| IsWildcard(w, host) && k.domain == Lower(w);
        FindIsBest(live, w, path, user, k);
        WildBeats(live, host, path, user, w);
      }
      assert Lower("*") == "*";
      FindIsBest(live, "*", path, user, k);
      FoundMatches(live, "*", path, user);
    }
  }

  /** Two matches that are each at least as specific as the other are the same route, so
      the most specific match is one route. */
  lemma MostSpecificIsUnique(a: Key, b: Key, host: string, path: string, user: string)
    requires Matches(a, host, path, user) && Matches(b, host, path, user)
    requires AtLeastAsSpecific(a, b, host, user) && AtLeastAsSpecific(b, a, host, user)
    ensures a == b
  {
    SameRankSameDomain(a.domain, b.domain, host);
    assert a.location == path[..|a.location|] && b.location == path[..|b.location|];
  }

  lemma SameRankSameDomain(a: string, b: string, host: string)
    requires HostMatches(a, host) && HostMatches(b, host) && HostRank(a, host) == HostRank(b, host)
    ensures a == b
  {
    if a != Lower(host) && a != "*" {
      WildcardRank(a, host);
    }
    if b != Lower(host) && b != "*" {
      WildcardRank(b, host);
    }
    if a != Lower(host) && a != "*" && b != Lower(host) && b != "*" {
      var w :| IsWildcard(w, host) && a == Lower(w);
      var v :| IsWildcard(v, host) && b == Lower(v);
      var i: nat :| WildcardAt(w, host, i);
      var j: nat :| WildcardAt(v, host, j);
      assert |w| == 1 + |host| - i && |v| == 1 + |host| - j;
    }
  }

  // ---------- upper and lower case ----------

  /** The same letter, or an ASCII letter and its capital. */
  predicate SameLetter(c: char, d: char) {
    || c == d
    || ('A' <= c <= 'Z' && d as int == c as int + 32)
    || ('A' <= d <= 'Z' && c as int == d as int + 32)
  }

  predicate SameButCase(s: string, t: string) {
    |s| == |t| && forall i :: 0 <= i < |s| ==> SameLetter(s[i], t[i])
  }

  ghost predicate AllSameButCase(a: seq<string>, b: seq<string>) {
    |a| == |b| && forall i :: 0 <= i < |a| ==> SameButCase(a[i], b[i])
  }

  lemma SameLower(s: string, t: string)
    requires SameButCase(s, t)
    ensures Lower(s) == Lower(t)
  {
    forall i | 0 <= i < |s| ensures Lower(s)[i] == Lower(t)[i] {
      assert SameLetter(s[i], t[i]);
    }
  }

  lemma {:induction false} SplitSameButCase(s: string, t: string)
    requires SameButCase(s, t)
    ensures AllSameButCase(Split(s, '.'), Split(t, '.'))
  {
    if s != [] {
      assert SameButCase(s[1..], t[1..]) by {
        assert forall i :: 0 <= i < |s[1..]| ==> s[1..][i] == s[i + 1] && t[1..][i] == t[i + 1];
      }
      SplitSameButCase(s[1..], t[1..]);
      assert SameLetter(s[0], t[0]);
      InFrontSameButCase(s[0], t[0], Split(s[1..], '.'), Split(t[1..], '.'));
    }
  }

  lemma InFrontSameButCase(c: char, d: char, a: seq<string>, b: seq<string>)
    requires SameLetter(c, d) && AllSameButCase(a, b) && a != []
    ensures AllSameButCase([[]] + a, [[]] + b)
    ensures AllSameButCase([[c] + a[0]] + a[1..], [[d] + b[0]] + b[1..])
  {
    assert SameButCase(a[0], b[0]);
    assert SameButCase([c] + a[0], [d] + b[0]);
  }

  lemma {:induction false} JoinSameButCase(a: seq<string>, b: seq<string>)
    requires AllSameButCase(a, b)
    ensures SameButCase(Join(a, '.'), Join(b, '.'))
  {
    if |a| >= 2 {
      JoinSameButCase(a[1..], b[1..]);
      ConcatSameButCase(a[0] + ".", b[0] + ".", Join(a[1..], '.'), Join(b[1..], '.'));
    }
  }

  lemma ConcatSameButCase(s: string, t: string, x: string, y: string)
    requires SameButCase(s, t) && SameButCase(x, y)
    ensures SameButCase(s + x, t + y)
  {
  }

  lemma {:induction false} WildcardsSameButCase(a: seq<string>, b: seq<string>)
    requires AllSameButCase(a, b)
    ensures AllSameButCase(Wildcards(a), Wildcards(b))
  {
    if |a| >= 3 {
      assert AllSameButCase(a[1..], b[1..]);
      WildcardsSameButCase(a[1..], b[1..]);
      JoinSameButCase(["*"] + a[1..], ["*"] + b[1..]);
    }
  }

  lemma {:induction false} FirstFoundSameButCase<P>(live: map<Key, P>, a: seq<string>, b: seq<string>, path: string, user: string)
    requires AllSameButCase(a, b)
    ensures FirstFound(live, a, path, user) == FirstFound(live, b, path, user)
  {
    if a != [] {
      SameLower(a[0], b[0]);
      FirstFoundSameButCase(live, a[1..], b[1..], path, user);
    }
  }

  /** Hosts that differ only in the case of ASCII letters find the same route. */
  lemma CaseDoesNotMatter<P>(live: map<Key, P>, host: string, host': string, path: string, user: string)
    requires SameButCase(host, host')
    ensures Lookup(live, host, path, user) == Lookup(live, host', path, user)
  {
    SplitSameButCase(host, host');
    WildcardsSameButCase(Split(host, '.'), Split(host', '.'));
    assert AllSameButCase(Patterns(host), Patterns(host'));
    FirstFoundSameButCase(live, Patterns(host), Patterns(host'), path, user);
  }

  /** Letters that differ otherwise are told apart. */
  lemma LowerTellsApart(c: char, d: char)
    ensures LowerChar(c) == LowerChar(d) <==> SameLetter(c, d)
  {
  }

  // ---------- lookups while routes come and go ----------

  /** The lookup with the read lock taken anew for every Get: `lives(t)` is what is live at the
      moment of Get `t`. The moment and the route found. */
  function FirstFoundOver<P>(lives: nat -> map<Key, P>, t: nat, patterns: seq<string>, path: string, user: string)
    : (r: Option<(nat, Key)>)
    decreases |patterns|
  {
    if patterns == [] then None
    else
      var a := Longest(lives(t), Lower(patterns[0]), user, path, |path|);
      if a.Some? then Some((t, a.value))
      else
        var b := Longest(lives(t + 1), Lower(patterns[0]), "", path, |path|);
        if b.Some? then Some((t + 1, b.value))
        else FirstFoundOver(lives, t + 2, patterns[1..], path, user)
  }

  function LookupOver<P>(lives: nat -> map<Key, P>, host: string, path: string, user: string): Option<(nat, Key)> {
    FirstFoundOver(lives, 0, Patterns(host), path, user)
  }

  /** If nothing changes it is the lookup. */
  lemma {:induction false} FoundWhenStill<P>(
    lives: nat -> map<Key, P>, live: map<Key, P>, t: nat, patterns: seq<string>, path: string, user: string)
    requires forall i: nat :: lives(i) == live
    ensures var r, q := FirstFoundOver(lives, t, patterns, path, user), FirstFound(live, patterns, path, user);
            (r.Some? <==> q.Some?) && (r.Some? ==> r.value.1 == q.value)
    decreases |patterns|
  {
    if patterns != [] {
      assert lives(t) == live && lives(t + 1) == live;
      FoundWhenStill(lives, live, t + 2, patterns[1..], path, user);
    }
  }

  /** The patterns are tried from the most to the least specific. */
  ghost predicate Ranked(patterns: seq<string>, host: string) {
    forall i, j :: 0 <= i < j < |patterns| ==> HostRank(Lower(patterns[i]), host) >= HostRank(Lower(patterns[j]), host)
  }

  ghost predicate AllMatch(patterns: seq<string>, host: string) {
    forall i :: 0 <= i < |patterns| ==> HostMatches(Lower(patterns[i]), host)
  }

  ghost predicate HasDomain(patterns: seq<string>, domain: string) {
    exists i :: 0 <= i < |patterns| && Lower(patterns[i]) == domain
  }

  lemma TailRanked(patterns: seq<string>, host: string)
    requires patterns != [] && Ranked(patterns, host) && AllMatch(patterns, host)
    ensures Ranked(patterns[1..], host) && AllMatch(patterns[1..], host)
  {
    var tail := patterns[1..];
    forall i, j | 0 <= i < j < |tail| ensures HostRank(Lower(tail[i]), host) >= HostRank(Lower(tail[j]), host) {
      assert tail[i] == patterns[i + 1] && tail[j] == patterns[j + 1];
    }
    forall i | 0 <= i < |tail| ensures HostMatches(Lower(tail[i]), host) {
      assert tail[i] == patterns[i + 1];
    }
  }

  /** What is found was live at its moment, and matches. */
  lemma {:induction false} FoundOver<P>(
    lives: nat -> map<Key, P>, t: nat, patterns: seq<string>, host: string, path: string, user: string)
    requires AllMatch(patterns, host) && FirstFoundOver(lives, t, patterns, path, user).Some?
    ensures var (m, k) := FirstFoundOver(lives, t, patterns, path, user).value;
            t <= m < t + 2 * |patterns| && k in lives(m) && Matches(k, host, path, user)
    decreases |patterns|
  {
    if Longest(lives(t), Lower(patterns[0]), user, path, |path|).None?
       && Longest(lives(t + 1), Lower(patterns[0]), "", path, |path|).None? {
      FoundOver(lives, t + 2, patterns[1..], host, path, user);
    }
  }

  /** A route that is live at two moments and belongs to the pattern tried at them. */
  lemma FoundHere<P>(a: map<Key, P>, b: map<Key, P>, path: string, user: string, q: Key)
    requires q in a && q in b && q.location <= path && (q.user == user || q.user == "")
    ensures var r, s := Longest(a, q.domain, user, path, |path|), Longest(b, q.domain, "", path, |path|);
            && (r.Some? && q.user == user ==> |q.location| <= |r.value.location|)
            && (r.None? ==> q.user == "" && q.user != user && s.Some? && |q.location| <= |s.value.location|)
  {
    if q.user == user {
      LongestIsLongest(a, path, |path|, q);
    } else {
      LongestIsLongest(b, path, |path|, q);
    }
  }

  /** An earlier pattern with another domain is more specific. */
  lemma EarlierIsMoreSpecific(patterns: seq<string>, host: string, q: Key)
    requires patterns != [] && Ranked(patterns, host) && AllMatch(patterns, host)
    requires Lower(patterns[0]) != q.domain && HasDomain(patterns, q.domain)
    ensures HostRank(Lower(patterns[0]), host) > HostRank(q.domain, host)
    ensures HasDomain(patterns[1..], q.domain)
  {
    var i :| 0 <= i < |patterns| && Lower(patterns[i]) == q.domain;
    assert patterns[1..][i - 1] == patterns[i];
    assert HasDomain(patterns[1..], q.domain);
    if HostRank(Lower(patterns[0]), host) == HostRank(q.domain, host) {
      SameRankSameDomain(Lower(patterns[0]), q.domain, host);
    }
  }

  lemma {:induction false} OverBeats<P>(
    lives: nat -> map<Key, P>, t: nat, patterns: seq<string>, host: string, path: string, user: string, q: Key)
    requires Ranked(patterns, host) && AllMatch(patterns, host)
    requires Matches(q, host, path, user) && HasDomain(patterns, q.domain)
    requires forall i: nat :: t <= i < t + 2 * |patterns| ==> q in lives(i)
    ensures FirstFoundOver(lives, t, patterns, path, user).Some?
    ensures AtLeastAsSpecific(FirstFoundOver(lives, t, patterns, path, user).value.1, q, host, user)
    decreases |patterns|
  {
    if Lower(patterns[0]) == q.domain {
      FoundHere(lives(t), lives(t + 1), path, user, q);
    } else {
      EarlierIsMoreSpecific(patterns, host, q);
      TailRanked(patterns, host);
      if Longest(lives(t), Lower(patterns[0]), user, path, |path|).None?
         && Longest(lives(t + 1), Lower(patterns[0]), "", path, |path|).None? {
        OverBeats(lives, t + 2, patterns[1..], host, path, user, q);
      }
    }
  }

  // ---------- the patterns of a host are ranked ----------

  /** A wildcard that is the host itself stands for its first label. */
  lemma WildcardIsHost(w: string, host: string, i: nat)
    requires WildcardAt(w, host, i) && Lower(w) == Lower(host)
    ensures i == 1 && host[0] == '*'
  {
    assert |w| == 1 + |host| - i && |Lower(w)| == |w| && |Lower(host)| == |host|;
    assert Lower(w)[0] == LowerChar('*') && Lower(host)[0] == LowerChar(host[0]);
  }

  /** A wildcard that is the host itself is the longest one. */
  lemma HostIsLongest(v: string, w: string, host: string)
    requires IsWildcard(v, host) && IsWildcard(w, host) && Lower(w) == Lower(host)
    ensures |v| <= |w|
  {
    var i: nat :| WildcardAt(v, host, i);
    var j: nat :| WildcardAt(w, host, j);
    WildcardIsHost(w, host, j);
    assert |v| == 1 + |host| - i && |w| == 1 + |host| - j;
  }

  lemma LongerRanksHigher(v: string, w: string, host: string)
    requires IsWildcard(v, host) && IsWildcard(w, host) && |v| > |w|
    ensures HostRank(Lower(v), host) >= HostRank(Lower(w), host)
  {
    WildcardLength(v, host);
    WildcardLength(w, host);
    assert Lower(w) != Lower(host) by {
      if Lower(w) == Lower(host) {
        HostIsLongest(v, w, host);
      }
    }
    assert |Lower(v)| == |v| && |Lower(w)| == |w|;
  }

  lemma {:induction false} WildcardsGetShorter(labels: seq<string>, i: nat, j: nat)
    requires i < j < |Wildcards(labels)|
    ensures |Wildcards(labels)[i]| > |Wildcards(labels)[j]|
  {
    if i == 0 {
      WildcardsShrink(labels, Wildcards(labels)[j]);
      FirstIsOnly(labels, j);
    } else {
      WildcardsGetShorter(labels[1..], i - 1, j - 1);
    }
  }

  lemma FirstIsOnly(labels: seq<string>, j: nat)
    requires 0 < j < |Wildcards(labels)|
    ensures Wildcards(labels)[j] != Wildcards(labels)[0]
  {
    var w := Wildcards(labels)[j];
    assert w == Wildcards(labels[1..])[j - 1] && w in Wildcards(labels[1..]);
    WildcardsShrink(labels[1..], w);
    assert (["*"] + labels[1..])[1..] == labels[1..];
    assert Wildcards(labels)[0] == "*" + "." + Join(labels[1..], '.');
  }

  lemma PatternMatches(host: string, p: string)
    requires p in Patterns(host)
    ensures HostMatches(Lower(p), host)
  {
    JoinSplit(host, '.');
    assert Lower("*") == "*";
    if p in Wildcards(Split(host, '.')) {
      WildcardsAreWildcards(Split(host, '.'), p);
    }
  }

  lemma MatchHasPattern(host: string, domain: string)
    requires HostMatches(domain, host)
    ensures HasDomain(Patterns(host), domain)
  {
    var ps := Patterns(host);
    if domain == Lower(host) {
      assert ps[0] == host;
    } else if domain == "*" {
      assert ps[|ps| - 1] == "*" && Lower("*") == "*";
    } else {
      var w :| IsWildcard(w, host) && domain == Lower(w);
      WildcardIsPattern(host, w);
    }
  }

  lemma WildcardIsPattern(host: string, w: string)
    requires IsWildcard(w, host)
    ensures HasDomain(Patterns(host), Lower(w))
  {
    JoinSplit(host, '.');
    var ws := Wildcards(Split(host, '.'));
    WildcardsAreWildcards(Split(host, '.'), w);
    var i :| 0 <= i < |ws| && ws[i] == w;
    assert Patterns(host)[i + 1] == w;
  }

  lemma PatternsRanked(host: string)
    ensures Ranked(Patterns(host), host) && AllMatch(Patterns(host), host)
  {
    var ps := Patterns(host);
    forall i, j | 0 <= i < j < |ps| ensures HostRank(Lower(ps[i]), host) >= HostRank(Lower(ps[j]), host) {
      PatternsRankedAt(host, i, j);
    }
    forall i | 0 <= i < |ps| ensures HostMatches(Lower(ps[i]), host) {
      PatternMatches(host, ps[i]);
    }
  }

  lemma PatternsRankedAt(host: string, i: nat, j: nat)
    requires i < j < |Patterns(host)|
    ensures HostRank(Lower(Patterns(host)[i]), host) >= HostRank(Lower(Patterns(host)[j]), host)
  {
    var ws, ps := Wildcards(Split(host, '.')), Patterns(host);
    assert Lower("*") == "*";
    if i == 0 {
      PatternMatches(host, ps[j]);
      RankAtMost(Lower(ps[j]), host);
    } else if j == |ps| - 1 {
      StarRanksLast(host);
    } else {
      assert ps[i] == ws[i - 1] && ps[j] == ws[j - 1];
      JoinSplit(host, '.');
      WildcardsAreWildcards(Split(host, '.'), ps[i]);
      WildcardsAreWildcards(Split(host, '.'), ps[j]);
      WildcardsGetShorter(Split(host, '.'), i - 1, j - 1);
      LongerRanksHigher(ps[i], ps[j], host);
    }
  }

  lemma RankAtMost(domain: string, host: string)
    requires HostMatches(domain, host)
    ensures HostRank(domain, host) <= |host| + 2
  {
    if domain != Lower(host) && domain != "*" {
      WildcardRank(domain, host);
    }
  }

  /** A host that has wildcards is not the star itself. */
  lemma StarRanksLast(host: string)
    requires |Patterns(host)| > 2
    ensures HostRank("*", host) == 0
  {
    var ws := Wildcards(Split(host, '.'));
    JoinSplit(host, '.');
    assert ws[0] in ws;
    WildcardsAreWildcards(Split(host, '.'), ws[0]);
    var i: nat :| WildcardAt(ws[0], host, i);
    assert |host| >= 2;
    assert |Lower(host)| == |host|;
  }

  /** With routes added and deleted between the Gets of one lookup, the route found was live at one
      of its moments and matches, and it is at least as specific as every match that was live
      throughout; if none is found, none was live throughout. */
  lemma LookupOverBeats<P>(lives: nat -> map<Key, P>, host: string, path: string, user: string)
    ensures var r := LookupOver(lives, host, path, user);
            var n := 2 * |Patterns(host)|;
            && (r.Some? ==> r.value.0 < n && r.value.1 in lives(r.value.0) && Matches(r.value.1, host, path, user))
            && (forall q :: Matches(q, host, path, user) && (forall i: nat :: i < n ==> q in lives(i)) ==>
                  r.Some? && AtLeastAsSpecific(r.value.1, q, host, user))
  {
    PatternsRanked(host);
    if LookupOver(lives, host, path, user).Some? {
      FoundOver(lives, 0, Patterns(host), host, path, user);
    }
    forall q | Matches(q, host, path, user) && forall i: nat :: i < 2 * |Patterns(host)| ==> q in lives(i)
      ensures LookupOver(lives, host, path, user).Some?
      ensures AtLeastAsSpecific(LookupOver(lives, host, path, user).value.1, q, host, user)
    {
      MatchHasPattern(host, q.domain);
      OverBeats(lives, 0, Patterns(host), host, path, user, q);
    }
  }

  // ---------- the mutable index ----------

  /** A list of one domain and user: sorted, without duplicates, and all live. */
  ghost predicate ListOk<P>(rs: seq<Router<P>>, domain: string, user: string, live: map<Key, P>) {
    && Descending(rs)
    && forall i :: 0 <= i < |rs| ==>
         && rs[i].key.domain == domain && rs[i].key.user == user
         && rs[i].key in live && live[rs[i].key] == rs[i].payload
  }

  lemma OnlyHitAsLong<P>(rs: seq<Router<P>>, i: nat, path: string, r: Router<P>)
    requires Descending(rs) && i < |rs| && r in rs && r.key.location <= path
    requires rs[i].key.location <= path && forall j :: 0 <= j < i ==> !(rs[j].key.location <= path)
    requires |rs[i].key.location| <= |r.key.location|
    ensures r == rs[i]
  {
    var j :| 0 <= j < |rs| && rs[j] == r;
    if j > i {
      GreaterPrefixIsLonger(rs[j].key.location, rs[i].key.location, path);
    }
  }

  /** In a descending list the first location that is a prefix of the path is the longest
      live one. */
  lemma FirstHitIsLongest<P>(
    rs: seq<Router<P>>, i: nat, domain: string, user: string, path: string, live: map<Key, P>)
    requires ListOk(rs, domain, user, live) && i < |rs|
    requires forall k :: k in live && k.domain == domain && k.user == user ==> Router(k, live[k]) in rs
    requires rs[i].key.location <= path && forall j :: 0 <= j < i ==> !(rs[j].key.location <= path)
    ensures Longest(live, domain, user, path, |path|) == Some(rs[i].key)
  {
    LongestIsLongest(live, path, |path|, rs[i].key);
    var best := Longest(live, domain, user, path, |path|).value;
    assert Router(best, live[best]) in rs;
    OnlyHitAsLong(rs, i, path, Router(best, live[best]));
  }

  lemma NoHitNoMatch<P>(rs: seq<Router<P>>, domain: string, user: string, path: string, live: map<Key, P>)
    requires forall k :: k in live && k.domain == domain && k.user == user ==> Router(k, live[k]) in rs
    requires forall j :: 0 <= j < |rs| ==> !(rs[j].key.location <= path)
    ensures Longest(live, domain, user, path, |path|).None?
  {
  }

  function Others<P>(rs: seq<Router<P>>, location: string): (t: seq<Router<P>>)
    ensures forall i :: 0 <= i < |t| ==> t[i] in rs && t[i].key.location != location
    ensures forall i :: 0 <= i < |rs| && rs[i].key.location != location ==> rs[i] in t
  {
    if rs == [] then []
    else
      var n := |rs| - 1;
      var init := Others(rs[..n], location);
      if rs[n].key.location != location then init + [rs[n]] else init
  }

  lemma NewLocationIsUnique<P>(rs: seq<Router<P>>, r: Router<P>, live: map<Key, P>)
    requires ListOk(rs, r.key.domain, r.key.user, live) && r.key !in live
    ensures Unique(rs + [r])
  {
    var all := rs + [r];
    forall i, j | 0 <= i < j < |all| ensures all[i].key.location != all[j].key.location {
      if j < |rs| {
        LessIrreflexive(rs[i].key.location);
      } else {
        assert all[i] == rs[i] && rs[i].key in live;
      }
    }
  }

  /** Two live sets that differ at most in `k`. */
  ghost predicate SameElsewhere<P>(live: map<Key, P>, live': map<Key, P>, k: Key) {
    forall x :: x != k ==> (x in live <==> x in live') && (x in live && x in live' ==> live[x] == live'[x])
  }

  /** The list of one domain and user. */
  function Listed<P>(index: map<string, map<string, seq<Router<P>>>>, domain: string, user: string): seq<Router<P>> {
    if domain in index && user in index[domain] then index[domain][user] else []
  }

  /** The index holds exactly the live routes. */
  ghost predicate IndexOk<P>(index: map<string, map<string, seq<Router<P>>>>, live: map<Key, P>) {
    && (forall d, u {:trigger Listed(index, d, u)} :: ListOk(Listed(index, d, u), d, u, live))
    && (forall k :: k in live ==> Router(k, live[k]) in Listed(index, k.domain, k.user))
  }

  lemma ListedIsComplete<P>(index: map<string, map<string, seq<Router<P>>>>, live: map<Key, P>, domain: string, user: string)
    requires IndexOk(index, live)
    ensures ListOk(Listed(index, domain, user), domain, user, live)
    ensures forall k :: k in live && k.domain == domain && k.user == user ==>
                          Router(k, live[k]) in Listed(index, domain, user)
  {
  }

  ghost predicate LocationIn<P>(rs: seq<Router<P>>, location: string) {
    exists i :: 0 <= i < |rs| && rs[i].key.location == location
  }

  lemma ExistsIff<P>(rs: seq<Router<P>>, domain: string, location: string, user: string, live: map<Key, P>)
    requires ListOk(rs, domain, user, live)
    requires forall k :: k in live && k.domain == domain && k.user == user ==> Router(k, live[k]) in rs
    ensures LocationIn(rs, location) <==> Key(domain, location, user) in live
  {
    var k := Key(domain, location, user);
    if i :| 0 <= i < |rs| && rs[i].key.location == location {
      assert rs[i].key == k;
    }
    if k in live {
      var i :| 0 <= i < |rs| && rs[i] == Router(k, live[k]);
      assert rs[i].key.location == location;
    }
  }

  lemma OtherListOk<P>(rs: seq<Router<P>>, domain: string, user: string, live: map<Key, P>, live': map<Key, P>, k: Key)
    requires ListOk(rs, domain, user, live) && (k.domain != domain || k.user != user)
    requires SameElsewhere(live, live', k)
    ensures ListOk(rs, domain, user, live')
  {
    forall i | 0 <= i < |rs| ensures rs[i].key in live' && live'[rs[i].key] == rs[i].payload {
      assert rs[i].key != k;
    }
  }

  lemma ListedAfter<P>(
    index: map<string, map<string, seq<Router<P>>>>, d: string, u: string,
    byUser: map<string, seq<Router<P>>>, rs: seq<Router<P>>, d': string, u': string)
    requires byUser == if d in index then index[d] else map[]
    ensures Listed(index[d := byUser[u := rs]], d', u') == if d' == d && u' == u then rs else Listed(index, d', u')
  {
  }

  /** Replacing the list of one domain and user replaces the live routes of that list. */
  lemma ReplaceList<P>(
    index: map<string, map<string, seq<Router<P>>>>, live: map<Key, P>, live': map<Key, P>,
    k: Key, byUser: map<string, seq<Router<P>>>, rs: seq<Router<P>>)
    requires IndexOk(index, live) && SameElsewhere(live, live', k)
    requires byUser == if k.domain in index then index[k.domain] else map[]
    requires ListOk(rs, k.domain, k.user, live')
    requires forall x :: x in live' && x.domain == k.domain && x.user == k.user ==> Router(x, live'[x]) in rs
    ensures IndexOk(index[k.domain := byUser[k.user := rs]], live')
  {
    var index' := index[k.domain := byUser[k.user := rs]];
    forall d, u ensures ListOk(Listed(index', d, u), d, u, live') {
      ListedAfter(index, k.domain, k.user, byUser, rs, d, u);
      if d != k.domain || u != k.user {
        OtherListOk(Listed(index, d, u), d, u, live, live', k);
      }
    }
    forall x | x in live' ensures Router(x, live'[x]) in Listed(index', x.domain, x.user) {
      ListedAfter(index, k.domain, k.user, byUser, rs, x.domain, x.user);
      StillListed(index, live, live', k, x);
    }
  }

  lemma StillListed<P>(
    index: map<string, map<string, seq<Router<P>>>>, live: map<Key, P>, live': map<Key, P>, k: Key, x: Key)
    requires forall y :: y in live ==> Router(y, live[y]) in Listed(index, y.domain, y.user)
    requires SameElsewhere(live, live', k) && x in live'
    ensures x.domain != k.domain || x.user != k.user ==> Router(x, live'[x]) in Listed(index, x.domain, x.user)
  {
  }

  lemma AddedOk<P>(rs: seq<Router<P>>, r: Router<P>, live: map<Key, P>)
    requires ListOk(rs, r.key.domain, r.key.user, live) && r.key !in live
    ensures ListOk(SortDescending(rs + [r]), r.key.domain, r.key.user, live[r.key := r.payload])
  {
    var t := SortDescending(rs + [r]);
    NewLocationIsUnique(rs, r, live);
    SortIsDescending(rs + [r]);
    forall i | 0 <= i < |t|
      ensures t[i].key.domain == r.key.domain && t[i].key.user == r.key.user
      ensures t[i].key in live[r.key := r.payload] && live[r.key := r.payload][t[i].key] == t[i].payload
    {
      assert t[i] in rs + [r];
    }
  }

  lemma SmallerAtEnd<P>(rs: seq<Router<P>>, r: Router<P>)
    requires Descending(rs) && forall i :: 0 <= i < |rs| ==> Less(r.key.location, rs[i].key.location)
    ensures Descending(rs + [r])
  {
  }

  lemma LastIsSmallest<P>(rs: seq<Router<P>>, r: Router<P>)
    requires rs != [] && Descending(rs) && r in rs[..|rs| - 1]
    ensures Less(rs[|rs| - 1].key.location, r.key.location)
  {
    var k :| 0 <= k < |rs| - 1 && rs[k] == r;
  }

  lemma {:induction false} OthersKeepsDescending<P>(rs: seq<Router<P>>, location: string)
    requires Descending(rs)
    ensures Descending(Others(rs, location))
  {
    if rs != [] {
      var n := |rs| - 1;
      OthersKeepsDescending(rs[..n], location);
      var init := Others(rs[..n], location);
      forall i | 0 <= i < |init| ensures Less(rs[n].key.location, init[i].key.location) {
        LastIsSmallest(rs, init[i]);
      }
      SmallerAtEnd(init, rs[n]);
    }
  }

  lemma RemovedOk<P>(rs: seq<Router<P>>, domain: string, user: string, location: string, live: map<Key, P>)
    requires ListOk(rs, domain, user, live)
    ensures ListOk(Others(rs, location), domain, user, live - {Key(domain, location, user)})
  {
    OthersKeepsDescending(rs, location);
    var t := Others(rs, location);
    forall i | 0 <= i < |t|
      ensures t[i].key.domain == domain && t[i].key.user == user
      ensures t[i].key in live && live[t[i].key] == t[i].payload && t[i].key != Key(domain, location, user)
    {
      assert t[i] in rs;
    }
  }

  lemma AddedListed<P>(rs: seq<Router<P>>, r: Router<P>, live: map<Key, P>, x: Key)
    requires forall k :: k in live && k.domain == r.key.domain && k.user == r.key.user ==> Router(k, live[k]) in rs
    requires x in live[r.key := r.payload] && x.domain == r.key.domain && x.user == r.key.user
    ensures Router(x, live[r.key := r.payload][x]) in SortDescending(rs + [r])
  {
    if x == r.key {
      assert (rs + [r])[|rs|] in SortDescending(rs + [r]);
    } else {
      var i :| 0 <= i < |rs| && rs[i] == Router(x, live[x]);
      assert (rs + [r])[i] in SortDescending(rs + [r]);
    }
  }

  lemma RemovedListed<P>(rs: seq<Router<P>>, k: Key, live: map<Key, P>)
    requires forall x :: x in live && x.domain == k.domain && x.user == k.user ==> Router(x, live[x]) in rs
    ensures SameElsewhere(live, live - {k}, k)
    ensures forall x :: x in live - {k} && x.domain == k.domain && x.user == k.user ==>
              Router(x, (live - {k})[x]) in Others(rs, k.location)
  {
    forall x | x in live - {k} && x.domain == k.domain && x.user == k.user
      ensures Router(x, (live - {k})[x]) in Others(rs, k.location)
    {
      var i :| 0 <= i < |rs| && rs[i] == Router(x, live[x]);
      assert x.location != k.location;
    }
  }

  /** Deleting a key from the index. */
  lemma DeleteFromIndex<P>(index: map<string, map<string, seq<Router<P>>>>, live: map<Key, P>, k: Key)
    requires IndexOk(index, live)
    ensures k.domain in index && k.user in index[k.domain] ==>
              IndexOk(index[k.domain := index[k.domain][k.user := Others(index[k.domain][k.user], k.location)]], live - {k})
    ensures k.domain !in index || k.user !in index[k.domain] ==> live - {k} == live
  {
    var rs := Listed(index, k.domain, k.user);
    assert ListOk(rs, k.domain, k.user, live);
    if k.domain in index && k.user in index[k.domain] {
      RemovedOk(rs, k.domain, k.user, k.location, live);
      RemovedListed(rs, k, live);
      ReplaceList(index, live, live - {k}, k, index[k.domain], Others(rs, k.location));
    } else {
      assert k !in live;
    }
  }

  class Routers<P> {
    ghost var Live: map<Key, P>
    var indexByDomain: map<string, map<string, seq<Router<P>>>>

    ghost predicate Valid()
      reads this
    {
      IndexOk(indexByDomain, Live)
    }

    constructor ()
      ensures Valid() && Live == map[]
    {
      indexByDomain := map[];
      Live := map[];
    }

    method Exist(domain: string, location: string, user: string) returns (found: bool)
      requires Valid()
      ensures found <==> Key(domain, location, user) in Live
    {
      var routers := Listed(indexByDomain, domain, user);
      ListedIsComplete(indexByDomain, Live, domain, user);
      found := HasLocation(routers, location);
      ExistsIff(routers, domain, location, user, Live);
    }

    static method HasLocation(routers: seq<Router<P>>, location: string) returns (found: bool)
      ensures found <==> LocationIn(routers, location)
    {
      for i := 0 to |routers|
        invariant !LocationIn(routers[..i], location)
      {
        if routers[i].key.location == location {
          return true;
        }
        assert routers[..i + 1] == routers[..i] + [routers[i]];
      }
      assert routers[..|routers|] == routers;
      return false;
    }

    /** Adds a route exactly when its key is not live. */
    method Add(domain: string, location: string, user: string, payload: P) returns (ok: bool)
      requires Valid()
      modifies this
      ensures Valid()
      ensures ok <==> Key(Lower(domain), location, user) !in old(Live)
      ensures Live == if ok then old(Live)[Key(Lower(domain), location, user) := payload] else old(Live)
    {
      var lower := Lower(domain);
      var exists' := Exist(lower, location, user);
      if exists' {
        return false;
      }
      var byUser := if lower in indexByDomain then indexByDomain[lower] else map[];
      var vrs := if user in byUser then byUser[user] else [];
      assert vrs == Listed(indexByDomain, lower, user);
      var vr := Router(Key(lower, location, user), payload);
      var sorted := SortDescending(vrs + [vr]);
      AddedOk(vrs, vr, Live);
      forall x | x in Live[vr.key := payload] && x.domain == lower && x.user == user
        ensures Router(x, Live[vr.key := payload][x]) in sorted
      {
        AddedListed(vrs, vr, Live, x);
      }
      ReplaceList(indexByDomain, Live, Live[vr.key := payload], vr.key, byUser, sorted);
      indexByDomain := indexByDomain[lower := byUser[user := sorted]];
      Live := Live[vr.key := payload];
      return true;
    }

    static method Filter(vrs: seq<Router<P>>, location: string) returns (kept: seq<Router<P>>)
      ensures kept == Others(vrs, location)
    {
      kept := [];
      for i := 0 to |vrs|
        invariant kept == Others(vrs[..i], location)
      {
        assert vrs[..i + 1][..i] == vrs[..i];
        if vrs[i].key.location != location {
          kept := kept + [vrs[i]];
        }
      }
      assert vrs[..|vrs|] == vrs;
    }

    /** Removes exactly that key. */
    method Del(domain: string, location: string, user: string)
      requires Valid()
      modifies this
      ensures Valid()
      ensures Live == old(Live) - {Key(Lower(domain), location, user)}
    {
      var lower := Lower(domain);
      DeleteFromIndex(indexByDomain, Live, Key(lower, location, user));
      if lower !in indexByDomain || user !in indexByDomain[lower] {
        return;
      }
      var kept := Filter(indexByDomain[lower][user], location);
      indexByDomain := indexByDomain[lower := indexByDomain[lower][user := kept]];
      Live := Live - {Key(lower, location, user)};
    }

    /** The longest live location of that host and user that is a prefix of the path. */
    method Get(host: string, path: string, user: string) returns (r: Option<Router<P>>)
      requires Valid()
      ensures var best := Longest(Live, Lower(host), user, path, |path|);
              r == if best.Some? then Some(Router(best.value, Live[best.value])) else None
    {
      var lower := Lower(host);
      var vrs := Listed(indexByDomain, lower, user);
      ListedIsComplete(indexByDomain, Live, lower, user);
      var i := FirstHit(vrs, path);
      if i < |vrs| {
        FirstHitIsLongest(vrs, i, lower, user, path, Live);
        return Some(vrs[i]);
      }
      NoHitNoMatch(vrs, lower, user, path, Live);
      return None;
    }

    static method FirstHit(vrs: seq<Router<P>>, path: string) returns (i: nat)
      ensures i <= |vrs| && (i < |vrs| ==> vrs[i].key.location <= path)
      ensures forall k :: 0 <= k < i ==> !(vrs[k].key.location <= path)
    {
      for k := 0 to |vrs|
        invariant forall j :: 0 <= j < k ==> !(vrs[j].key.location <= path)
      {
        if vrs[k].key.location <= path {
          return k;
        }
      }
      return |vrs|;
    }

    method FindRouter(pattern: string, path: string, user: string) returns (r: Option<Router<P>>)
      requires Valid()
      ensures var k := Find(Live, pattern, path, user);
              r == if k.Some? then Some(Router(k.value, Live[k.value])) else None
    {
      r := Get(pattern, path, user);
      if r.None? {
        r := Get(pattern, path, "");
      }
    }

    /** `HTTPReverseProxy.getVhost`. */
    method GetVhost(host: string, path: string, user: string) returns (r: Option<Router<P>>)
      requires Valid()
      ensures var k := Lookup(Live, host, path, user);
              r == if k.Some? then Some(Router(k.value, Live[k.value])) else None
    {
      LookupInParts(Live, host, path, user);
      r := FindRouter(host, path, user);
      if r.Some? {
        return;
      }
      var domainSplit := Split(host, '.');
      while |domainSplit| >= 3
        invariant FirstFound(Live, Wildcards(domainSplit), path, user)
                  == FirstFound(Live, Wildcards(Split(host, '.')), path, user)
      {
        domainSplit := domainSplit[0 := "*"];
        assert domainSplit == ["*"] + domainSplit[1..];
        var domain := Join(domainSplit, '.');
        r := FindRouter(domain, path, user);
        if r.Some? {
          return;
        }
        domainSplit := domainSplit[1..];
      }
      r := FindRouter("*", path, user);
    }

    /** `Muxer.getListener` hands out the payload, here a listener. */
    method GetListener(name: string, path: string, user: string) returns (l: Option<P>)
      requires Valid()
      ensures var k := Lookup(Live, name, path, user);
              l == if k.Some? then Some(Live[k.value]) else None
    {
      LookupInParts(Live, name, path, user);
      var r := FindRouter(name, path, user);
      if r.Some? {
        return Some(r.value.payload);
      }
      var domainSplit := Split(name, '.');
      while |domainSplit| >= 3
        invariant FirstFound(Live, Wildcards(domainSplit), path, user)
                  == FirstFound(Live, Wildcards(Split(name, '.')), path, user)
      {
        domainSplit := domainSplit[0 := "*"];
        assert domainSplit == ["*"] + domainSplit[1..];
        r := FindRouter(Join(domainSplit, '.'), path, user);
        if r.Some? {
          return Some(r.value.payload);
        }
        domainSplit := domainSplit[1..];
      }
      r := FindRouter("*", path, user);
      if r.Some? {
        return Some(r.value.payload);
      }
      return None;
    }
  }
}
