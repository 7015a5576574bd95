/** The visitor manager (client/visitor/visitor_manager.go): stored configurations, the visitors
    that could be started from them, and the periodic restart of those that could not. */
module Visitors {
  import opened Configs
  import opened Managers

  datatype State = State(cfgs: map<string, Config>, visitors: map<string, Running>)

  /** `UpdateAll`. `up` has the names whose visitor can be started now. */
  ghost function Renewed(s: State, cs: seq<Config>, up: set<string>, now: nat): State {
    State(
      map n | n in NamesOf(cs) :: if Unchanged(s, cs, n) then s.cfgs[n] else First(cs, n),
      map n | n in NamesOf(cs) && (if Unchanged(s, cs, n) then n in s.visitors else n in up) ::
        if Unchanged(s, cs, n) then s.visitors[n] else Running(First(cs, n), now))
  }

  ghost predicate Unchanged(s: State, cs: seq<Config>, n: string)
    requires Named(cs, n)
  {
    n in s.cfgs && s.cfgs[n] == Last(cs, n)
  }

  /** One round of `keepVisitorsRunning`. */
  function Ticked(s: State, up: set<string>, now: nat): State {
    State(
      s.cfgs,
      map n | n in s.cfgs && (n in s.visitors || n in up) ::
        if n in s.visitors then s.visitors[n] else Running(s.cfgs[n], now))
  }

  datatype Event = Update(cs: seq<Config>, up: set<string>) | Tick(up: set<string>)

  ghost function Step(s: State, e: Event, now: nat): State {
    match e
    case Update(cs, up) => Renewed(s, cs, up, now)
    case Tick(up) => Ticked(s, up, now)
  }

  /** The state after these events; the k-th event happens at time k. */
  ghost function After(events: seq<Event>): State
    decreases |events|
  {
    if events == [] then State(map[], map[])
    else
      var k := |events| - 1;
      Step(After(events[..k]), events[k], k)
  }

  /** A running visitor was started, before now, from the configuration now stored under its name. */
  ghost predicate Inv(s: State, now: nat) {
    && (forall n :: n in s.cfgs ==> s.cfgs[n].name == n)
    && (forall n :: n in s.visitors ==> n in s.cfgs && s.visitors[n].cfg == s.cfgs[n] && s.visitors[n].since < now)
  }

  lemma {:induction false} HistoryKeepsInv(events: seq<Event>)
    ensures Inv(After(events), |events|)
    decreases |events|
  {
    if events != [] {
      HistoryKeepsInv(events[..|events| - 1]);
    }
  }

  /** What was not started by this event ran before it. */
  lemma StartedBefore(s: State, e: Event, now: nat, n: string)
    requires Inv(s, now) && n in Step(s, e, now).visitors && Step(s, e, now).visitors[n].since < now
    ensures n in s.visitors && s.visitors[n] == Step(s, e, now).visitors[n]
  {
  }

  /** Over any history a visitor that runs now has run without a break since its start, and its
      stored configuration has been the same all along. */
  lemma {:induction false} RunsWithoutBreak(events: seq<Event>, n: string, i: nat)
    requires n in After(events).visitors
    requires After(events).visitors[n].since < i <= |events|
    ensures var v := After(events).visitors[n];
            && n in After(events[..i]).visitors && After(events[..i]).visitors[n] == v
            && n in After(events[..i]).cfgs && After(events[..i]).cfgs[n] == v.cfg
    decreases |events|
  {
    HistoryKeepsInv(events);
    var k := |events| - 1;
    if i == |events| {
      assert events[..i] == events;
    } else {
      HistoryKeepsInv(events[..k]);
      StartedBefore(After(events[..k]), events[k], k, n);
      RunsWithoutBreak(events[..k], n, i);
      assert events[..k][..i] == events[..i];
    }
  }

  /** An update with a merged list stores exactly the from-scratch set and leaves alone every
      visitor whose configuration is the same. */
  lemma RenewMeetsTarget(s: State, cs: seq<Config>, up: set<string>, now: nat, target: map<string, Config>)
    requires Lists(cs, target) && Inv(s, now)
    ensures Renewed(s, cs, up, now).cfgs == target
    ensures forall n :: n in target && n in s.cfgs && s.cfgs[n] == target[n] ==>
              (n in Renewed(s, cs, up, now).visitors <==> n in s.visitors)
    ensures forall n :: n in target && !(n in s.cfgs && s.cfgs[n] == target[n]) ==>
              (n in Renewed(s, cs, up, now).visitors <==> n in up)
    ensures forall n :: n in Renewed(s, cs, up, now).visitors ==>
              n in target && Renewed(s, cs, up, now).visitors[n] ==
              if n in s.visitors && s.cfgs[n] == target[n] then s.visitors[n] else Running(target[n], now)
  {
    forall n
      ensures Named(cs, n) <==> n in target
      ensures n in target ==> First(cs, n) == target[n] && Last(cs, n) == target[n]
    {
      ListsEnds(cs, target, n);
    }
    assert Renewed(s, cs, up, now).cfgs.Keys == target.Keys;
  }

  /** A round starts exactly the stored visitors that do not run and can be started. */
  lemma RoundStarts(events: seq<Event>, up: set<string>, n: string)
    ensures var s, t := After(events), After(events + [Tick(up)]);
            && t.cfgs == s.cfgs
            && (n in t.visitors <==> n in s.cfgs && (n in s.visitors || n in up))
            && (n in t.visitors ==> t.visitors[n] == if n in s.visitors then s.visitors[n] else Running(s.cfgs[n], |events|))
  {
    HistoryKeepsInv(events);
    var all := events + [Tick(up)];
    assert all[..|events|] == events;
  }

  /** Whatever failed before, a round in which every start succeeds has every stored visitor
      running, and those that ran are not touched. */
  lemma RoundCatchesUp(events: seq<Event>, up: set<string>)
    requires After(events).cfgs.Keys <= up
    ensures var s, t := After(events), After(events + [Tick(up)]);
            && Configurations(t.visitors) == s.cfgs
            && (forall n :: n in s.visitors ==> t.visitors[n] == s.visitors[n])
  {
    HistoryKeepsInv(events);
    var all := events + [Tick(up)];
    assert all[..|events|] == events;
  }

  // ---------- the loops ----------

  /** The deleting loop of `UpdateAll`, once it has visited all but `todo`. */
  ghost function VisitorsPruned(s: State, keyed: map<string, Config>, todo: set<string>): State {
    State(
      map n | n in s.cfgs && (n in todo || (n in keyed && keyed[n] == s.cfgs[n])) :: s.cfgs[n],
      map n | n in s.visitors && n in s.cfgs && (n in todo || (n in keyed && keyed[n] == s.cfgs[n])) :: s.visitors[n])
  }

  ghost function Started(s: State, c: Config, up: set<string>, now: nat): State {
    if c.name in s.cfgs then s
    else State(
        s.cfgs[c.name := c],
        if c.name in up then s.visitors[c.name := Running(c, now)] else s.visitors)
  }

  /** The adding loop of `UpdateAll`, after the first `k` configurations. */
  ghost function VisitorsFilled(s: State, cs: seq<Config>, up: set<string>, now: nat, k: nat): State
    requires k <= |cs|
  {
    if k == 0 then s else Started(VisitorsFilled(s, cs, up, now, k - 1), cs[k - 1], up, now)
  }

  /** `r` has what `s` stores and, for every other name in `before`, its first configuration. */
  ghost predicate VisitorsFilledBy(r: State, s: State, before: seq<Config>, up: set<string>, now: nat, n: string) {
    && (n in r.cfgs <==> n in s.cfgs || Named(before, n))
    && (n in r.cfgs ==> r.cfgs[n] == if n in s.cfgs then s.cfgs[n] else First(before, n))
    && (n in r.visitors <==> if n in s.cfgs then n in s.visitors else Named(before, n) && n in up)
    && (n in r.visitors ==> r.visitors[n] == if n in s.cfgs then s.visitors[n] else Running(First(before, n), now))
  }

  lemma StartOne(r: State, s: State, before: seq<Config>, up: set<string>, now: nat, c: Config, n: string)
    requires VisitorsFilledBy(r, s, before, up, now, n)
    ensures VisitorsFilledBy(Started(r, c, up, now), s, before + [c], up, now, n)
  {
    NamedExtended(before, c, n);
  }

  lemma {:induction false} VisitorsFilledPrefix(s: State, cs: seq<Config>, up: set<string>, now: nat, k: nat, n: string)
    requires k <= |cs| && s.visitors.Keys <= s.cfgs.Keys
    ensures VisitorsFilledBy(VisitorsFilled(s, cs, up, now, k), s, cs[..k], up, now, n)
  {
    if k > 0 {
      VisitorsFilledPrefix(s, cs, up, now, k - 1, n);
      StartOne(VisitorsFilled(s, cs, up, now, k - 1), s, cs[..k - 1], up, now, cs[k - 1], n);
      assert cs[..k - 1] + [cs[k - 1]] == cs[..k];
    }
  }

  lemma VisitorsFilledAt(s: State, keyed: map<string, Config>, cs: seq<Config>, up: set<string>, now: nat, n: string)
    requires LastOf(keyed, cs) && s.visitors.Keys <= s.cfgs.Keys
    ensures var r, u := VisitorsFilled(VisitorsPruned(s, keyed, {}), cs, up, now, |cs|), Renewed(s, cs, up, now);
            && (n in r.cfgs <==> n in u.cfgs) && (n in r.cfgs ==> r.cfgs[n] == u.cfgs[n])
            && (n in r.visitors <==> n in u.visitors) && (n in r.visitors ==> r.visitors[n] == u.visitors[n])
  {
    assert cs[..|cs|] == cs;
    VisitorsFilledPrefix(VisitorsPruned(s, keyed, {}), cs, up, now, |cs|, n);
  }

  lemma SameState(r: State, u: State)
    requires forall n :: (n in r.cfgs <==> n in u.cfgs) && (n in r.cfgs ==> r.cfgs[n] == u.cfgs[n])
    requires forall n :: (n in r.visitors <==> n in u.visitors) && (n in r.visitors ==> r.visitors[n] == u.visitors[n])
    ensures r == u
  {
    assert r.cfgs == u.cfgs && r.visitors == u.visitors;
  }

  lemma VisitorsPrunedThenFilled(s: State, keyed: map<string, Config>, cs: seq<Config>, up: set<string>, now: nat)
    requires LastOf(keyed, cs) && s.visitors.Keys <= s.cfgs.Keys
    ensures VisitorsFilled(VisitorsPruned(s, keyed, {}), cs, up, now, |cs|) == Renewed(s, cs, up, now)
  {
    var r, u := VisitorsFilled(VisitorsPruned(s, keyed, {}), cs, up, now, |cs|), Renewed(s, cs, up, now);
    forall n
      ensures (n in r.cfgs <==> n in u.cfgs) && (n in r.cfgs ==> r.cfgs[n] == u.cfgs[n])
      ensures (n in r.visitors <==> n in u.visitors) && (n in r.visitors ==> r.visitors[n] == u.visitors[n])
    {
      VisitorsFilledAt(s, keyed, cs, up, now, n);
    }
    SameState(r, u);
  }

  /** Visiting `name` drops it or leaves everything as it is. */
  lemma PrunedStep(s: State, keyed: map<string, Config>, todo: set<string>, name: string)
    requires name in todo && name in s.cfgs
    ensures var r := VisitorsPruned(s, keyed, todo);
            && name in r.cfgs && r.cfgs[name] == s.cfgs[name]
            && VisitorsPruned(s, keyed, todo - {name}) ==
               if name !in keyed || s.cfgs[name] != keyed[name]
               then State(r.cfgs - {name}, r.visitors - {name}) else r
  {
    var r := VisitorsPruned(s, keyed, todo);
    var t := if name !in keyed || s.cfgs[name] != keyed[name]
             then State(r.cfgs - {name}, r.visitors - {name}) else r;
    SameState(VisitorsPruned(s, keyed, todo - {name}), t);
  }

  class VisitorManager {
    var cfgs: map<string, Config>
    var visitors: map<string, Running>
    /** The visitors that run and were not closed. */
    var alive: set<Running>

    ghost function Model(): State
      reads this
    {
      State(cfgs, visitors)
    }

    ghost predicate Valid()
      reads this
    {
      && visitors.Keys <= cfgs.Keys && Keyed(visitors) && alive == visitors.Values
      && (forall n :: n in cfgs ==> cfgs[n].name == n)
    }

    constructor ()
      ensures Valid() && Model() == After([])
    {
      cfgs, visitors, alive := map[], map[], {};
    }

    /** A visitor that cannot be created or run is not recorded. */
    method StartVisitor(c: Config, up: set<string>, now: nat)
      requires Keyed(visitors) && alive == visitors.Values && c.name !in visitors
      modifies this`visitors, this`alive
      ensures Keyed(visitors) && alive == visitors.Values
      ensures visitors == if c.name in up then old(visitors)[c.name := Running(c, now)] else old(visitors)
    {
      if c.name in up {
        var v := Running(c, now);
        AddedValues(visitors, c.name, v);
        visitors := visitors[c.name := v];
        alive := alive + {v};
      }
    }

    method UpdateAll(cs: seq<Config>, up: set<string>, now: nat)
      requires Valid()
      modifies this
      ensures Valid()
      ensures Model() == Renewed(old(Model()), cs, up, now)
    {
      var keyed := KeyByName(cs);
      Prune(keyed);
      ghost var kept := Model();
      for k := 0 to |cs|
        invariant Valid()
        invariant Model() == VisitorsFilled(kept, cs, up, now, k)
      {
        if cs[k].name !in cfgs {
          cfgs := cfgs[cs[k].name := cs[k]];
          StartVisitor(cs[k], up, now);
        }
      }
      VisitorsPrunedThenFilled(old(Model()), keyed, cs, up, now);
    }

    method Prune(keyed: map<string, Config>)
      requires Valid()
      modifies this
      ensures Valid()
      ensures Model() == VisitorsPruned(old(Model()), keyed, {})
    {
      var todo := cfgs.Keys;
      assert Model() == VisitorsPruned(Model(), keyed, todo);
      while todo != {}
        invariant todo <= old(cfgs).Keys
        invariant Valid()
        invariant Model() == VisitorsPruned(old(Model()), keyed, todo)
      {
        var name :| name in todo;
        PrunedStep(old(Model()), keyed, todo, name);
        todo := todo - {name};
        if name !in keyed || cfgs[name] != keyed[name] {
          Drop(name);
        }
      }
    }

    method Drop(name: string)
      requires Valid()
      modifies this
      ensures Valid()
      ensures Model() == State(old(cfgs) - {name}, old(visitors) - {name})
    {
      assert name !in visitors ==> visitors - {name} == visitors;
      cfgs := cfgs - {name};
      if name in visitors {
        RemovedValues(visitors, name);
        alive := alive - {visitors[name]};
      }
      visitors := visitors - {name};
    }

    /** One tick of `keepVisitorsRunning`. */
    method KeepRunning(up: set<string>, now: nat)
      requires Valid()
      modifies this`visitors, this`alive
      ensures Valid()
      ensures Model() == Ticked(old(Model()), up, now)
    {
      var todo := cfgs.Keys;
      while todo != {}
        invariant todo <= cfgs.Keys
        invariant Valid()
        invariant forall n :: n in visitors <==> n in old(visitors) || (n in cfgs && n !in todo && n in up)
        invariant forall n :: n in visitors ==>
                    visitors[n] == if n in old(visitors) then old(visitors)[n] else Running(cfgs[n], now)
      {
        var name :| name in todo;
        todo := todo - {name};
        if name !in visitors {
          StartVisitor(cfgs[name], up, now);
        }
      }
    }
  }
}
