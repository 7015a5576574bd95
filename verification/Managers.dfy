/** Bringing the running proxies in line with a list of configurations
    (client/proxy/proxy_manager.go); `Visitors` has the visitors. */
module Managers {
  import opened Configs

  /** A running proxy or visitor: its configuration and the moment it was started. */
  datatype Running = Running(cfg: Config, since: nat)

  ghost predicate Named(cs: seq<Config>, n: string) {
    exists c :: c in cs && c.name == n
  }

  ghost function NamesOf(cs: seq<Config>): (s: set<string>)
    ensures forall n :: n in s <==> Named(cs, n)
  {
    set c | c in cs :: c.name
  }

  /** The first and the last configuration of that name. */
  ghost function First(cs: seq<Config>, n: string): (c: Config)
    requires Named(cs, n)
    ensures c in cs && c.name == n
  {
    var k := |cs| - 1;
    if Named(cs[..k], n) then First(cs[..k], n) else cs[k]
  }

  ghost function Last(cs: seq<Config>, n: string): (c: Config)
    requires Named(cs, n)
    ensures c in cs && c.name == n
  {
    var k := |cs| - 1;
    if cs[k].name == n then cs[k] else Last(cs[..k], n)
  }

  lemma NamedExtended(cs: seq<Config>, c: Config, n: string)
    ensures Named(cs + [c], n) <==> Named(cs, n) || c.name == n
    ensures Named(cs, n) ==> First(cs + [c], n) == First(cs, n)
    ensures !Named(cs, n) && c.name == n ==> First(cs + [c], n) == c
    ensures c.name == n ==> Last(cs + [c], n) == c
    ensures c.name != n && Named(cs, n) ==> Last(cs + [c], n) == Last(cs, n)
  {
    var t := cs + [c];
    assert t[|cs|] == c && t[..|cs|] == cs;
    assert c in t;
  }

  // ---------- the proxy manager ----------

  /** `Manager.UpdateAll`: a proxy stays as it is if the last configuration of its name is its
      own; every other name of the list is started from the first one. */
  ghost function Updated(running: map<string, Running>, now: nat, cs: seq<Config>): map<string, Running> {
    map n | n in NamesOf(cs) ::
      if n in running && running[n].cfg == Last(cs, n) then running[n] else Running(First(cs, n), now)
  }

  ghost function Configurations(running: map<string, Running>): map<string, Config> {
    map n | n in running :: running[n].cfg
  }

  lemma ListsEnds(cs: seq<Config>, target: map<string, Config>, n: string)
    requires Lists(cs, target)
    ensures Named(cs, n) <==> n in target
    ensures n in target ==> First(cs, n) == target[n] && Last(cs, n) == target[n]
  {
    if Named(cs, n) {
      var a, b := First(cs, n), Last(cs, n);
      var i :| 0 <= i < |cs| && cs[i] == a;
      var j :| 0 <= j < |cs| && cs[j] == b;
    }
  }

  lemma UpdatedAt(running: map<string, Running>, now: nat, cs: seq<Config>, target: map<string, Config>, n: string)
    requires Lists(cs, target)
    ensures n in Updated(running, now, cs) <==> n in target
    ensures n in target ==>
              Updated(running, now, cs)[n] ==
              if n in running && running[n].cfg == target[n] then running[n] else Running(target[n], now)
  {
    ListsEnds(cs, target, n);
  }

  lemma SameConfigurations(t: map<string, Running>, target: map<string, Config>)
    requires forall n :: (n in t <==> n in target) && (n in target ==> t[n].cfg == target[n])
    ensures Configurations(t) == target
  {
  }

  /** With a merged list, the incremental update runs exactly the from-scratch set; a proxy whose
      configuration is the same keeps running, and every other is started by this update. */
  lemma UpdateMeetsTarget(running: map<string, Running>, now: nat, cs: seq<Config>, target: map<string, Config>)
    requires Lists(cs, target)
    ensures Configurations(Updated(running, now, cs)) == target
    ensures forall n :: n in target ==>
              Updated(running, now, cs)[n] ==
              if n in running && running[n].cfg == target[n] then running[n] else Running(target[n], now)
  {
    var t := Updated(running, now, cs);
    forall n
      ensures n in t <==> n in target
      ensures n in target ==>
                t[n] == if n in running && running[n].cfg == target[n] then running[n] else Running(target[n], now)
    {
      UpdatedAt(running, now, cs, target, n);
    }
    SameConfigurations(t, target);
  }

  /** A reload that loads what already runs touches nothing, whatever the order of the list. */
  lemma UnchangedTouchesNothing(running: map<string, Running>, now: nat, cs: seq<Config>)
    requires Lists(cs, Configurations(running))
    ensures Updated(running, now, cs) == running
  {
    UpdateMeetsTarget(running, now, cs, Configurations(running));
    assert Updated(running, now, cs).Keys == Configurations(Updated(running, now, cs)).Keys;
  }

  /** Given the same list twice, a fresh manager is at rest exactly if no name of the list comes
      with two different configurations at its ends: the list is compared by the last of a name
      and started from the first, so such a name is restarted by every update. */
  lemma RepeatedListSettlesIff(cs: seq<Config>, now: nat, later: nat)
    requires now < later
    ensures (forall n :: Named(cs, n) ==> First(cs, n) == Last(cs, n)) <==>
            Updated(Updated(map[], now, cs), later, cs) == Updated(map[], now, cs)
  {
    var once := Updated(map[], now, cs);
    var twice := Updated(once, later, cs);
    forall n | Named(cs, n) ensures First(cs, n) == Last(cs, n) <==> twice[n] == once[n] {
      assert n in NamesOf(cs) && once[n] == Running(First(cs, n), now);
    }
    if forall n :: Named(cs, n) ==> First(cs, n) == Last(cs, n) {
      assert twice == once;
    }
  }

  ghost predicate LastOf(keyed: map<string, Config>, cs: seq<Config>) {
    (forall n :: n in keyed <==> Named(cs, n)) && (forall n :: n in keyed ==> keyed[n] == Last(cs, n))
  }

  /** The later of two configurations with one name wins. */
  method KeyByName(cs: seq<Config>) returns (keyed: map<string, Config>)
    ensures LastOf(keyed, cs)
  {
    keyed := map[];
    for k := 0 to |cs|
      invariant LastOf(keyed, cs[..k])
    {
      ghost var before := keyed;
      keyed := keyed[cs[k].name := cs[k]];
      KeyedExtended(before, cs[..k], cs[k]);
      assert cs[..k] + [cs[k]] == cs[..k + 1];
    }
    assert cs[..|cs|] == cs;
  }

  lemma KeyedExtended(keyed: map<string, Config>, cs: seq<Config>, c: Config)
    requires LastOf(keyed, cs)
    ensures LastOf(keyed[c.name := c], cs + [c])
  {
    forall n ensures var m := keyed[c.name := c];
                     (n in m <==> Named(cs + [c], n)) && (n in m ==> m[n] == Last(cs + [c], n))
    {
      NamedExtended(cs, c, n);
    }
  }

  /** What the deleting loop leaves once it has visited all but `todo`. */
  ghost function Pruned(running: map<string, Running>, keyed: map<string, Config>, todo: set<string>): map<string, Running> {
    map n | n in running && (n in todo || (n in keyed && keyed[n] == running[n].cfg)) :: running[n]
  }

  /** What the adding loop has made of the first `k` configurations. */
  ghost function Filled(running: map<string, Running>, now: nat, cs: seq<Config>, k: nat): map<string, Running>
    requires k <= |cs|
  {
    if k == 0 then running
    else
      var m := Filled(running, now, cs, k - 1);
      var c := cs[k - 1];
      if c.name in m then m else m[c.name := Running(c, now)]
  }

  /** `m` has the running ones and, for every other name in `before`, its first configuration. */
  ghost predicate FilledBy(m: map<string, Running>, running: map<string, Running>, now: nat, before: seq<Config>, n: string) {
    && (n in m <==> n in running || Named(before, n))
    && (n in m ==> m[n] == if n in running then running[n] else Running(First(before, n), now))
  }

  lemma FillOne(m: map<string, Running>, running: map<string, Running>, now: nat, before: seq<Config>, c: Config, n: string)
    requires FilledBy(m, running, now, before, n)
    ensures FilledBy(if c.name in m then m else m[c.name := Running(c, now)], running, now, before + [c], n)
  {
    NamedExtended(before, c, n);
  }

  lemma {:induction false} FilledPrefix(running: map<string, Running>, now: nat, cs: seq<Config>, k: nat, n: string)
    requires k <= |cs|
    ensures FilledBy(Filled(running, now, cs, k), running, now, cs[..k], n)
  {
    if k > 0 {
      FilledPrefix(running, now, cs, k - 1, n);
      FillOne(Filled(running, now, cs, k - 1), running, now, cs[..k - 1], cs[k - 1], n);
      assert cs[..k - 1] + [cs[k - 1]] == cs[..k];
    }
  }

  lemma PrunedThenFilled(running: map<string, Running>, keyed: map<string, Config>, now: nat, cs: seq<Config>)
    requires LastOf(keyed, cs)
    ensures Filled(Pruned(running, keyed, {}), now, cs, |cs|) == Updated(running, now, cs)
  {
    var kept := Pruned(running, keyed, {});
    var r, u := Filled(kept, now, cs, |cs|), Updated(running, now, cs);
    assert cs[..|cs|] == cs;
    forall n ensures (n in r <==> n in u) && (n in r ==> r[n] == u[n]) {
      FilledPrefix(kept, now, cs, |cs|, n);
    }
  }

  ghost predicate Keyed(running: map<string, Running>) {
    forall n :: n in running ==> running[n].cfg.name == n
  }

  lemma AddedValues(m: map<string, Running>, n: string, r: Running)
    requires n !in m
    ensures m[n := r].Values == m.Values + {r}
  {
    var t := m[n := r];
    assert t[n] == r && forall k :: k in m ==> t[k] == m[k];
    forall v ensures v in t.Values <==> v in m.Values + {r} {
      if v in m.Values {
        var k :| k in m && m[k] == v;
        assert t[k] == v;
      }
    }
  }

  lemma RemovedValues(m: map<string, Running>, n: string)
    requires n in m && Keyed(m)
    ensures (m - {n}).Values == m.Values - {m[n]}
  {
    var t := m - {n};
    forall v ensures v in t.Values <==> v in m.Values - {m[n]} {
      if v in m.Values - {m[n]} {
        var k :| k in m && m[k] == v;
        assert t[k] == v;
      }
    }
  }

  class ProxyManager {
    var proxies: map<string, Running>
    /** The proxies that were started and not stopped. */
    var alive: set<Running>

    /** What is alive is what the table lists. */
    ghost predicate Valid()
      reads this
    {
      Keyed(proxies) && alive == proxies.Values
    }

    constructor ()
      ensures Valid() && proxies == map[]
    {
      proxies, alive := map[], {};
    }

    method UpdateAll(cs: seq<Config>, now: nat)
      requires Valid()
      modifies this
      ensures Valid()
      ensures proxies == Updated(old(proxies), now, cs)
    {
      var keyed := KeyByName(cs);
      Prune(keyed);
      ghost var kept := proxies;
      for k := 0 to |cs|
        invariant Valid()
        invariant proxies == Filled(kept, now, cs, k)
      {
        if cs[k].name !in proxies {
          var pxy := Running(cs[k], now);
          AddedValues(proxies, cs[k].name, pxy);
          proxies := proxies[cs[k].name := pxy];
          alive := alive + {pxy};
        }
      }
      PrunedThenFilled(old(proxies), keyed, now, cs);
    }

    /** Go visits the map in any order. */
    method Prune(keyed: map<string, Config>)
      requires Valid()
      modifies this
      ensures Valid()
      ensures proxies == Pruned(old(proxies), keyed, {})
    {
      var todo := proxies.Keys;
      assert proxies == Pruned(proxies, keyed, todo);
      while todo != {}
        invariant todo <= old(proxies).Keys
        invariant Valid()
        invariant proxies == Pruned(old(proxies), keyed, todo)
      {
        var name :| name in todo;
        todo := todo - {name};
        var pxy := proxies[name];
        if name !in keyed || pxy.cfg != keyed[name] {
          RemovedValues(proxies, name);
          proxies := proxies - {name};
          alive := alive - {pxy};
        }
      }
    }
  }
}
