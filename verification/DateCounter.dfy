/** The per-day rolling counter (pkg/util/metric/date_counter.go). A date is a day number; every
    call brings the day on which it happens. */
module DateCounter {
  import opened Int64

  /** An amount added on a day; a call that only reads adds zero. */
  datatype Entry = Entry(day: int, amount: int)

  function LastDay(h: seq<Entry>, start: int): int {
    if h == [] then start else h[|h| - 1].day
  }

  function Ahead(d: int): (r: nat) {
    if d > 0 then d else 0
  }

  /** The days the clock has moved forward over these calls, backward moves not taken off. */
  function Passed(h: seq<Entry>, start: int): (r: nat)
    decreases |h|
  {
    if h == [] then 0
    else
      var k := |h| - 1;
      Passed(h[..k], start) + Ahead(h[k].day - LastDay(h[..k], start))
  }

  /** The net amount added while that many days had passed. */
  function NetAt(h: seq<Entry>, start: int, passed: int): int
    decreases |h|
  {
    if h == [] then 0
    else
      var k := |h| - 1;
      NetAt(h[..k], start, passed) + if Passed(h, start) == passed then h[k].amount else 0
  }

  /** The net amount added on that day. */
  function RecordedOn(h: seq<Entry>, day: int): int
    decreases |h|
  {
    if h == [] then 0
    else
      var k := |h| - 1;
      RecordedOn(h[..k], day) + if h[k].day == day then h[k].amount else 0
  }

  /** No call is dated before the call that precedes it. */
  ghost predicate Forward(h: seq<Entry>) {
    forall i :: 1 <= i < |h| ==> h[i - 1].day <= h[i].day
  }

  lemma {:induction false} NothingAhead(h: seq<Entry>, start: int, passed: int)
    requires passed > Passed(h, start) || passed < 0
    ensures NetAt(h, start, passed) == 0
    decreases |h|
  {
    if h != [] {
      NothingAhead(h[..|h| - 1], start, passed);
    }
  }

  /** From the first call on, the days passed and the day number differ by a constant. */
  lemma {:induction false} ForwardCountsDays(h: seq<Entry>, start: int, day: int)
    requires h != [] && Forward(h)
    ensures var ahead := Passed(h[..1], start) - h[0].day;
            && Passed(h, start) == LastDay(h, start) + ahead
            && RecordedOn(h, day) == NetAt(h, start, day + ahead)
    decreases |h|
  {
    var k := |h| - 1;
    if k == 0 {
      assert h[..1] == h && h[..0] == [];
    } else {
      ForwardCountsDays(h[..k], start, day);
      assert h[..k][..1] == h[..1];
      assert h[k - 1].day <= h[k].day;
    }
  }

  /** The number that a counter with these calls behind it holds in place `i`: the amount of the
      `i`-th last day that passed. */
  function Held(h: seq<Entry>, start: int, i: nat): int {
    Wrap(NetAt(h, start, Passed(h, start) - i))
  }

  /** The number that it should hold: the net amount recorded `i` days before the last call. */
  function Wanted(h: seq<Entry>, start: int, i: nat): int {
    Wrap(RecordedOn(h, LastDay(h, start) - i))
  }

  ghost predicate Holds(counts: seq<int>, h: seq<Entry>, start: int) {
    forall i: nat :: i < |counts| ==> counts[i] == Held(h, start, i)
  }

  lemma HeldIsWanted(h: seq<Entry>, start: int, i: nat)
    requires Forward(h)
    ensures Held(h, start, i) == Wanted(h, start, i)
  {
    if h != [] {
      ForwardCountsDays(h, start, LastDay(h, start) - i);
    }
  }

  /** If no call is dated before the one before it, the counts are the amounts recorded on each
      of the last days. */
  lemma HoldsDays(counts: seq<int>, h: seq<Entry>, start: int)
    requires Holds(counts, h, start) && Forward(h)
    ensures forall i: nat :: i < |counts| ==> counts[i] == Wanted(h, start, i)
  {
    forall i: nat | i < |counts| ensures counts[i] == Wanted(h, start, i) {
      HeldIsWanted(h, start, i);
    }
  }

  // ---------- exactly when the days are right ----------

  /** Calls on these days with these amounts. */
  function Calls(days: seq<int>, amounts: seq<int>): (h: seq<Entry>)
    requires |days| == |amounts|
    ensures |h| == |days|
  {
    seq(|days|, i requires 0 <= i < |days| => Entry(days[i], amounts[i]))
  }

  /** All along, whatever the amounts, every number kept is the one wanted. */
  ghost predicate AlwaysRight(days: seq<int>, start: int, reserve: nat) {
    forall amounts, k: nat, i: nat {:trigger Held(Calls(days, amounts)[..k], start, i)} ::
      |amounts| == |days| && k <= |days| && i < reserve ==>
        Held(Calls(days, amounts)[..k], start, i) == Wanted(Calls(days, amounts)[..k], start, i)
  }

  /** A counter is right after every call, whatever the amounts, exactly if no call is dated
      before the call that precedes it. */
  lemma AlwaysRightIff(days: seq<int>, start: int, reserve: nat)
    requires reserve >= 1
    ensures AlwaysRight(days, start, reserve) <==> forall k :: 1 <= k < |days| ==> days[k - 1] <= days[k]
  {
    if forall k :: 1 <= k < |days| ==> days[k - 1] <= days[k] {
      forall amounts, k: nat, i: nat | |amounts| == |days| && k <= |days| && i < reserve
        ensures Held(Calls(days, amounts)[..k], start, i) == Wanted(Calls(days, amounts)[..k], start, i)
      {
        HeldIsWanted(Calls(days, amounts)[..k], start, i);
      }
    } else {
      var k :| 1 <= k < |days| && days[k - 1] > days[k];
      var amounts := seq(|days|, i => if i == k - 1 then 1 else 0);
      BackwardIsWrong(Calls(days, amounts)[..k + 1], start);
      assert Held(Calls(days, amounts)[..k + 1], start, 0) != Wanted(Calls(days, amounts)[..k + 1], start, 0);
    }
  }

  /** An amount recorded just before the clock goes back counts for the earlier day. */
  lemma BackwardIsWrong(h: seq<Entry>, start: int)
    requires |h| >= 2 && h[|h| - 1].day < h[|h| - 2].day && h[|h| - 1].amount == 0 && h[|h| - 2].amount == 1
    requires forall i :: 0 <= i < |h| - 2 ==> h[i].amount == 0
    ensures Held(h, start, 0) == 1 && Wanted(h, start, 0) == 0
  {
    var k := |h| - 1;
    var init := h[..k];
    var early := init[..k - 1];
    NothingYet(early, start, Passed(init, start), h[k].day);
    assert Passed(h, start) == Passed(init, start);
    assert NetAt(init, start, Passed(init, start)) == 1;
    assert RecordedOn(init, h[k].day) == 0;
  }

  lemma {:induction false} NothingYet(h: seq<Entry>, start: int, passed: int, day: int)
    requires forall i :: 0 <= i < |h| ==> h[i].amount == 0
    ensures NetAt(h, start, passed) == 0 && RecordedOn(h, day) == 0
    decreases |h|
  {
    if h != [] {
      NothingYet(h[..|h| - 1], start, passed, day);
    }
  }

  /** A clock that goes back and forth moves an amount to another day. */
  lemma ClockBackMovesAmounts()
    ensures var h := [Entry(5, 1), Entry(4, 2), Entry(5, 0)];
            Holds([0, 3], h, 5) && RecordedOn(h, 5) == 1 && RecordedOn(h, 4) == 2
  {
    var h1 := [Entry(5, 1)];
    var h2 := h1 + [Entry(4, 2)];
    var h := h2 + [Entry(5, 0)];
    assert h == [Entry(5, 1), Entry(4, 2), Entry(5, 0)];
    assert h[..2] == h2 && h2[..1] == h1 && h1[..0] == [];
    assert Passed(h1, 5) == 0 && Passed(h2, 5) == 0 && Passed(h, 5) == 1;
    assert NetAt(h1, 5, 0) == 1 && NetAt(h2, 5, 0) == 3;
    assert NetAt(h1, 5, 1) == 0 && NetAt(h2, 5, 1) == 0;
    assert RecordedOn(h1, 5) == 1 && RecordedOn(h1, 4) == 0;
    assert RecordedOn(h2, 5) == 1 && RecordedOn(h2, 4) == 2;
  }

  /** The counts moved `d` days on, with room for a new day. */
  function Shifted(counts: seq<int>, d: nat): (r: seq<int>)
    ensures |r| == |counts|
  {
    seq(|counts|, i requires 0 <= i < |counts| => if i < d then 0 else counts[i - d])
  }

  /** Moving on and adding to the first number is one more call in the history. */
  lemma ShiftThenAdd(counts: seq<int>, h: seq<Entry>, start: int, e: Entry)
    requires counts != [] && Holds(counts, h, start)
    ensures var c := Shifted(counts, Ahead(e.day - LastDay(h, start)));
            Holds(c[0 := Wrap(c[0] + e.amount)], h + [e], start)
  {
    var d := Ahead(e.day - LastDay(h, start));
    var c, t := Shifted(counts, d), h + [e];
    assert t[..|h|] == h;
    assert Passed(t, start) == Passed(h, start) + d;
    forall i: nat | i < |c| ensures c[i] == Wrap(NetAt(h, start, Passed(t, start) - i)) {
      if i < d {
        NothingAhead(h, start, Passed(t, start) - i);
      } else {
        assert counts[i - d] == Held(h, start, i - d);
      }
    }
    assert forall i: nat {:trigger Held(t, start, i)} :: 1 <= i < |c| ==>
        Held(t, start, i) == Wrap(NetAt(h, start, Passed(t, start) - i));
    WrapAdds(NetAt(h, start, Passed(t, start)), e.amount);
  }

  class StandardDateCounter {
    const reserveDays: int
    var counts: array<int>
    var lastUpdateDate: int
    /** The calls since the counter was made or cleared, and the day it was. */
    ghost var History: seq<Entry>
    ghost var Start: int

    ghost predicate Valid()
      reads this, counts
    {
      && counts.Length == reserveDays && reserveDays >= 1
      && lastUpdateDate == LastDay(History, Start)
      && Holds(counts[..], History, Start)
    }

    /** `NewDateCounter`: at least one day is kept. */
    constructor (reserve: int, today: int)
      ensures Valid() && fresh(counts) && History == [] && Start == today
      ensures reserveDays == if reserve <= 0 then 1 else reserve
    {
      var n := if reserve <= 0 then 1 else reserve;
      reserveDays := n;
      counts := new int[n](_ => 0);
      lastUpdateDate := today;
      History, Start := [], today;
    }

    method Rotate(today: int)
      requires counts.Length == reserveDays && reserveDays >= 1
      modifies this`counts, this`lastUpdateDate
      ensures counts == old(counts) || fresh(counts)
      ensures lastUpdateDate == today
      ensures counts[..] == Shifted(old(counts[..]), Ahead(today - old(lastUpdateDate)))
    {
      var days := today - lastUpdateDate;
      lastUpdateDate := today;
      if days <= 0 {
        return;
      }
      if days >= reserveDays {
        counts := new int[reserveDays](_ => 0);
        return;
      }
      var newCounts := new int[reserveDays](_ => 0);
      for i := days to reserveDays
        modifies newCounts
        invariant forall k :: 0 <= k < i ==> newCounts[k] == if k < days then 0 else counts[k - days]
        invariant forall k :: i <= k < reserveDays ==> newCounts[k] == 0
      {
        newCounts[i] := counts[i - days];
      }
      counts := newCounts;
    }

    /** A call on that day, adding `amount`. */
    method Record(today: int, amount: int)
      requires Valid()
      modifies this, counts
      ensures Valid() && (counts == old(counts) || fresh(counts))
      ensures History == old(History) + [Entry(today, amount)] && Start == old(Start)
    {
      ghost var before := counts[..];
      ghost var e := Entry(today, amount);
      ShiftThenAdd(before, History, Start, e);
      Rotate(today);
      AddToToday(amount);
      History := History + [e];
    }

    method AddToToday(amount: int)
      requires counts.Length > 0
      modifies counts
      ensures counts[..] == old(counts[..])[0 := Wrap(old(counts[0]) + amount)]
    {
      counts[0] := Wrap(counts[0] + amount);
    }

    method Inc(today: int, count: int)
      requires Valid()
      modifies this, counts
      ensures Valid() && (counts == old(counts) || fresh(counts))
      ensures History == old(History) + [Entry(today, count)] && Start == old(Start)
    {
      Record(today, count);
    }

    method Dec(today: int, count: int)
      requires Valid()
      modifies this, counts
      ensures Valid() && (counts == old(counts) || fresh(counts))
      ensures History == old(History) + [Entry(today, -count)] && Start == old(Start)
    {
      Record(today, -count);
    }

    /** Reading moves the days on and changes no amount. */
    method Look(today: int)
      requires Valid()
      modifies this, counts
      ensures Valid() && (counts == old(counts) || fresh(counts))
      ensures History == old(History) + [Entry(today, 0)] && Start == old(Start)
    {
      ghost var before := counts[..];
      ShiftThenAdd(before, History, Start, Entry(today, 0));
      Rotate(today);
      assert Wrap(0) == 0;
      assert counts[..][0 := Wrap(counts[0])] == counts[..];
      History := History + [Entry(today, 0)];
    }

    method TodayCount(today: int) returns (r: int)
      requires Valid()
      modifies this, counts
      ensures Valid() && (counts == old(counts) || fresh(counts))
      ensures History == old(History) + [Entry(today, 0)] && Start == old(Start)
      ensures Forward(History) ==> r == Wrap(RecordedOn(History, today))
    {
      Look(today);
      r := counts[0];
      if Forward(History) {
        HeldIsWanted(History, Start, 0);
      }
    }

    /** A negative number of days makes the source panic. */
    method GetLastDaysCount(today: int, lastdays: nat) returns (r: array<int>)
      requires Valid()
      modifies this, counts
      ensures Valid() && (counts == old(counts) || fresh(counts)) && fresh(r) && r != counts
      ensures History == old(History) + [Entry(today, 0)] && Start == old(Start)
      ensures r.Length == if lastdays > reserveDays then reserveDays else lastdays
      ensures forall i :: 0 <= i < r.Length ==> r[i] == counts[i]
      ensures Forward(History) ==> forall i: nat :: i < r.Length ==> r[i] == Wanted(History, Start, i)
    {
      var n := if lastdays > reserveDays then reserveDays else lastdays;
      Look(today);
      ghost var now := counts[..];
      r := FirstCounts(n);
      if Forward(History) {
        HoldsDays(now, History, Start);
      }
    }

    method FirstCounts(n: nat) returns (r: array<int>)
      requires n <= counts.Length
      ensures fresh(r) && r[..] == counts[..n]
    {
      r := new int[n];
      for i := 0 to n
        invariant forall k :: 0 <= k < i ==> r[k] == counts[k]
      {
        r[i] := counts[i];
      }
    }

    method Clear()
      requires Valid()
      modifies this`History, this`Start, counts
      ensures Valid() && counts == old(counts) && History == [] && Start == lastUpdateDate
    {
      for i := 0 to reserveDays
        invariant forall k :: 0 <= k < i ==> counts[k] == 0
      {
        counts[i] := 0;
      }
      History, Start := [], lastUpdateDate;
    }
  }
}
