/** Go's 64-bit integers: wrap-around, and the loop `for i := lo; i <= hi; i++` on them. */
module Int64 {
  import opened Wrappers

  const MAX_INT64 := 0x7FFF_FFFF_FFFF_FFFF
  const WORD := 0x1_0000_0000_0000_0000

  predicate Fits(x: int) {
    -MAX_INT64 - 1 <= x <= MAX_INT64
  }

  /** Two's complement of 64 bits. */
  function Wrap(x: int): (r: int)
    ensures Fits(r) && (Fits(x) ==> r == x)
  {
    (x + 0x8000_0000_0000_0000) % 0x1_0000_0000_0000_0000 - 0x8000_0000_0000_0000
  }

  lemma ModMinus(x: int, q: int)
    ensures (x - q * WORD) % WORD == x % WORD
  {
    var y := x - q * WORD;
    assert x == WORD * (x / WORD) + x % WORD && y == WORD * (y / WORD) + y % WORD;
    assert WORD * (x / WORD - q - y / WORD) == y % WORD - x % WORD;
  }

  lemma WrapAdds(a: int, b: int)
    ensures Wrap(Wrap(a) + b) == Wrap(a + b)
  {
    var x := a + 0x8000_0000_0000_0000;
    assert Wrap(a) + b + 0x8000_0000_0000_0000 == (x + b) - (x / WORD) * WORD;
    ModMinus(x + b, x / WORD);
  }

  // ---------- counting up ----------

  /** The loop variable after `k` rounds. */
  function Counter(lo: int, k: nat): int {
    if k == 0 then lo else Wrap(Counter(lo, k - 1) + 1)
  }

  /** What the loop body has seen in `k` rounds. */
  function Visited(lo: int, k: nat): seq<int> {
    if k == 0 then [] else Visited(lo, k - 1) + [Counter(lo, k - 1)]
  }

  /** The guard holds for `k` rounds and then fails. */
  ghost predicate RunsFor(lo: int, hi: int, k: nat) {
    (forall j: nat :: j < k ==> Counter(lo, j) <= hi) && Counter(lo, k) > hi
  }

  ghost predicate Ends(lo: int, hi: int) {
    exists k: nat :: RunsFor(lo, hi, k)
  }

  /** What the loop lists; nothing if it never ends. */
  ghost function Counted(lo: int, hi: int): Option<seq<int>> {
    if Ends(lo, hi) then
      var k: nat :| RunsFor(lo, hi, k);
      Some(Visited(lo, k))
    else None
  }

  function Upward(lo: int, hi: int): (r: seq<int>)
    ensures forall n :: n in r <==> lo <= n <= hi
    decreases hi - lo
  {
    if lo > hi then [] else Upward(lo, hi - 1) + [hi]
  }

  lemma {:induction false} CounterFits(lo: int, k: nat)
    requires Fits(lo)
    ensures Fits(Counter(lo, k))
  {
  }

  /** Until it reaches the largest number, the counter just counts. */
  lemma {:induction false} CounterCounts(lo: int, k: nat)
    requires Fits(lo) && lo + k <= MAX_INT64
    ensures Counter(lo, k) == lo + k && Visited(lo, k) == Upward(lo, lo + k - 1)
  {
    if k > 0 {
      CounterCounts(lo, k - 1);
    }
  }

  /** The guard holds for ever exactly if the upper bound is the largest number; otherwise the
      loop ends, and has listed the numbers from `lo` to `hi`. */
  lemma CountsForEverIff(lo: int, hi: int)
    requires Fits(lo) && Fits(hi)
    ensures (forall k: nat :: Counter(lo, k) <= hi) <==> hi == MAX_INT64
    ensures Counted(lo, hi) == if hi == MAX_INT64 then None else Some(Upward(lo, hi))
  {
    forall k: nat ensures Fits(Counter(lo, k)) {
      CounterFits(lo, k);
    }
    if hi != MAX_INT64 {
      var n: nat := if lo > hi then 0 else hi + 1 - lo;
      CountsUpTo(lo, hi, n);
      assert Counter(lo, n) > hi;
      forall k: nat | RunsFor(lo, hi, k) ensures k == n {
        assert k < n ==> Counter(lo, k) <= hi;
      }
    }
  }

  lemma CountsUpTo(lo: int, hi: int, n: nat)
    requires Fits(lo) && Fits(hi) && hi != MAX_INT64 && n == if lo > hi then 0 else hi + 1 - lo
    ensures RunsFor(lo, hi, n) && Visited(lo, n) == Upward(lo, hi)
  {
    forall j: nat | j < n ensures Counter(lo, j) <= hi {
      CounterCounts(lo, j);
    }
    CounterCounts(lo, n);
  }

  /** The loop itself, given up after `budget` rounds. */
  method CountUp(numbers: seq<int>, lo: int, hi: int, budget: nat) returns (r: seq<int>, done: bool)
    requires Fits(lo) && Fits(hi)
    ensures done ==> Counted(lo, hi).Some? && r == numbers + Counted(lo, hi).value
    ensures !done ==> forall k: nat :: k <= budget ==> Counter(lo, k) <= hi
    ensures !done && budget >= WORD ==> Counted(lo, hi).None?
  {
    r := numbers;
    var i := lo;
    var rounds: nat := 0;
    while i <= hi && rounds < budget
      invariant rounds <= budget && i == Counter(lo, rounds) && r == numbers + Visited(lo, rounds)
      invariant forall j: nat :: j < rounds ==> Counter(lo, j) <= hi
      decreases budget - rounds
    {
      r := r + [i];
      i := Wrap(i + 1);
      rounds := rounds + 1;
    }
    done := i > hi;
    if done {
      OnlyOnce(lo, hi, rounds);
    } else if budget >= WORD {
      GivenUp(lo, hi, budget);
    }
  }

  /** As many rounds as there are numbers are enough for a loop that ends. */
  lemma GivenUp(lo: int, hi: int, budget: nat)
    requires Fits(lo) && Fits(hi) && budget >= WORD && forall k: nat :: k <= budget ==> Counter(lo, k) <= hi
    ensures Counted(lo, hi).None?
  {
    CountsForEverIff(lo, hi);
    if hi != MAX_INT64 {
      var n: nat := if lo > hi then 0 else hi + 1 - lo;
      CountsUpTo(lo, hi, n);
    }
  }

  lemma OnlyOnce(lo: int, hi: int, k: nat)
    requires RunsFor(lo, hi, k)
    ensures Counted(lo, hi) == Some(Visited(lo, k))
  {
    forall j: nat | RunsFor(lo, hi, j) ensures j == k {
      assert j < k ==> Counter(lo, j) <= hi;
      assert k < j ==> Counter(lo, k) <= hi;
    }
  }
}
