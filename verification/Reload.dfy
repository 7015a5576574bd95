/** Loading a client's configuration (pkg/config/source/base_source.go, aggregator.go,
    pkg/config/load.go, client/service.go): merging two sources, filtering, completing. */
module Reload {
  import opened Configs
  import opened Sequences
  import Text
  import opened Wrappers

  // ---------- what should run ----------

  /** Enabled store entries override enabled config entries; a disabled entry hides nothing. */
  function Overlay(config: map<string, Config>, store: map<string, Config>): map<string, Config> {
    map n | n in config.Keys + store.Keys
            && ((n in store && Enabled(store[n])) || (n in config && Enabled(config[n])))
      :: if n in store && Enabled(store[n]) then store[n] else config[n]
  }

  /** One source over what is merged so far. */
  function Layered(below: map<string, Config>, source: map<string, Config>): map<string, Config> {
    map n | n in below.Keys + source.Keys && (n in below || Enabled(source[n]))
      :: if n in source && Enabled(source[n]) then source[n] else below[n]
  }

  lemma OverlayIsLayered(config: map<string, Config>, store: map<string, Config>)
    ensures Layered(Layered(map[], config), store) == Overlay(config, store)
  {
  }

  predicate Started(start: seq<string>, n: string) {
    start == [] || n in start
  }

  function Selected(merged: map<string, Config>, start: seq<string>): map<string, Config> {
    map n | n in merged && Started(start, n) && Enabled(merged[n]) :: Completed(merged[n])
  }

  /** The from-scratch answer: merge, keep what may start, complete. */
  function Target(config: map<string, Config>, store: map<string, Config>, start: seq<string>): map<string, Config> {
    Selected(Overlay(config, store), start)
  }

  /** What should run, entry by entry. An entry without an enabled flag is enabled; the store's entry of
      a name comes before the config's unless it is disabled; an empty start list selects every
      name; and completion fills in the local address, the mode of the bandwidth limit and the
      bind address where they are empty, and nothing else. */
  lemma TargetMeans(config: map<string, Config>, store: map<string, Config>, start: seq<string>, n: string)
    ensures var inStore := n in store && (store[n].enabled == None || store[n].enabled == Some(true));
            var inConfig := n in config && (config[n].enabled == None || config[n].enabled == Some(true));
            && (n in Target(config, store, start) <==> (start == [] || n in start) && (inStore || inConfig))
            && (n in Target(config, store, start) ==> FilledIn(if inStore then store[n] else config[n], Target(config, store, start)[n]))
  {
  }

  /** A source-disabled store entry leaves the config entry of that name in charge, and
      filtering by the enabled flag a second time changes nothing. */
  lemma DisabledIsNoTombstone(config: map<string, Config>, store: map<string, Config>, start: seq<string>, n: string)
    requires n in store && !Enabled(store[n]) && Started(start, n)
    ensures n in Target(config, store, start) <==> n in config && Enabled(config[n])
    ensures n in config && Enabled(config[n]) ==> Target(config, store, start)[n] == Completed(config[n])
  {
  }

  // ---------- sources hold objects, a reload works on copies ----------

  class ConfigObject {
    var value: Config

    constructor (value: Config)
      ensures this.value == value
    {
      this.value := value;
    }

    method Clone() returns (r: ConfigObject)
      ensures fresh(r) && r.value == value
    {
      r := new ConfigObject(value);
    }

    method Complete()
      modifies this
      ensures value == Completed(old(value))
    {
      value := Completed(value);
    }
  }

  /** The objects of `m` hold the configurations of `view`. */
  ghost predicate Shows(m: map<string, ConfigObject>, view: map<string, Config>)
    reads m.Values
  {
    m.Keys == view.Keys && forall n :: n in m ==> m[n].value == view[n]
  }

  class Source {
    ghost var Model: map<string, Config>
    var entries: map<string, ConfigObject>

    ghost predicate Valid()
      reads this, entries.Values
    {
      Shows(entries, Model) && WellNamed(Model)
    }

    constructor ()
      ensures Valid() && Model == map[]
    {
      entries := map[];
      Model := map[];
    }

    /** `ConfigSource.ReplaceAll`: all entries or, if one is missing or has no name, none. The
        last one of a name stays. */
    method ReplaceAll(configs: seq<ConfigObject?>) returns (ok: bool)
      requires Valid()
      modifies this
      ensures Valid()
      ensures ok <==> "" !in old(NamesIn(configs))
      ensures !ok ==> entries == old(entries) && Model == old(Model)
      ensures ok ==> IsKeyed(entries, configs, old(NamesIn(configs)))
    {
      var next;
      ghost var view;
      ok, next, view := Key(configs);
      if ok {
        Install(next, view);
      }
    }

    method Install(next: map<string, ConfigObject>, ghost view: map<string, Config>)
      requires Shows(next, view) && WellNamed(view)
      modifies this
      ensures Valid() && entries == next && Model == view
    {
      entries := next;
      Model := view;
    }

    static method Key(configs: seq<ConfigObject?>)
      returns (ok: bool, next: map<string, ConfigObject>, ghost view: map<string, Config>)
      ensures ok <==> "" !in NamesIn(configs)
      ensures ok ==> IsKeyed(next, configs, NamesIn(configs)) && Shows(next, view) && WellNamed(view)
    {
      next, view := map[], map[];
      ghost var names := NamesIn(configs);
      for i := 0 to |configs|
        invariant Filing(next, view, configs[..i], names[..i])
      {
        if configs[i] == null || configs[i].value.name == "" {
          assert names[i] == "";
          return false, map[], map[];
        }
        var name := configs[i].value.name;
        FilesNext(next, view, configs, names, i);
        next := next[name := configs[i]];
        view := view[name := configs[i].value];
      }
      assert configs[..|configs|] == configs && names[..|configs|] == names;
      return true, next, view;
    }
  }

  /** All of these are named and filed. */
  ghost predicate Filing(m: map<string, ConfigObject>, view: map<string, Config>, configs: seq<ConfigObject?>, names: seq<string>)
    reads m.Values
  {
    "" !in names && IsKeyed(m, configs, names) && Shows(m, view) && WellNamed(view)
  }

  lemma FilesOne(
    m: map<string, ConfigObject>, view: map<string, Config>, configs: seq<ConfigObject?>, names: seq<string>, c: ConfigObject)
    requires Filing(m, view, configs, names) && c.value.name != ""
    ensures Filing(m[c.value.name := c], view[c.value.name := c.value], configs + [c], names + [c.value.name])
  {
    KeyedOnceMore(m, configs, names, c, c.value.name);
    ShowsOneMore(m, view, c);
  }

  lemma FilesNext(m: map<string, ConfigObject>, view: map<string, Config>, configs: seq<ConfigObject?>, names: seq<string>, i: nat)
    requires i < |configs| == |names| && Filing(m, view, configs[..i], names[..i])
    requires configs[i] != null && names[i] == configs[i].value.name != ""
    ensures Filing(m[names[i] := configs[i]], view[names[i] := configs[i].value], configs[..i + 1], names[..i + 1])
  {
    FilesOne(m, view, configs[..i], names[..i], configs[i]);
    assert configs[..i] + [configs[i]] == configs[..i + 1] && names[..i] + [names[i]] == names[..i + 1];
  }

  lemma ShowsOneMore(m: map<string, ConfigObject>, view: map<string, Config>, c: ConfigObject)
    requires Shows(m, view) && WellNamed(view) && c.value.name != ""
    ensures Shows(m[c.value.name := c], view[c.value.name := c.value]) && WellNamed(view[c.value.name := c.value])
  {
  }

  /** The names of a list of configurations; a missing one has none. */
  ghost function NamesIn(configs: seq<ConfigObject?>): (r: seq<string>)
    reads configs
    ensures |r| == |configs|
    ensures forall i :: 0 <= i < |configs| ==> r[i] == if configs[i] == null then "" else configs[i].value.name
  {
    seq(|configs|, i requires 0 <= i < |configs| reads configs => if configs[i] == null then "" else configs[i].value.name)
  }

  ghost predicate IsLast(names: seq<string>, i: nat, n: string) {
    i < |names| && names[i] == n && forall j :: i < j < |names| ==> names[j] != n
  }

  /** The names of the list, each with its last entry. */
  ghost predicate IsKeyed(m: map<string, ConfigObject>, configs: seq<ConfigObject?>, names: seq<string>) {
    && |names| == |configs| && (forall i :: 0 <= i < |names| ==> names[i] in m)
    && (forall n :: n in m ==> exists i: nat :: IsLast(names, i, n) && configs[i] == m[n])
  }

  lemma KeyedOnceMore(m: map<string, ConfigObject>, configs: seq<ConfigObject?>, names: seq<string>, c: ConfigObject, name: string)
    requires IsKeyed(m, configs, names)
    ensures IsKeyed(m[name := c], configs + [c], names + [name])
  {
    var t, ns, r := configs + [c], names + [name], m[name := c];
    forall n | n in r ensures exists i: nat :: IsLast(ns, i, n) && t[i] == r[n] {
      if n == name {
        assert IsLast(ns, |names|, n);
      } else {
        var i: nat :| IsLast(names, i, n) && configs[i] == m[n];
        assert IsLast(ns, i, n);
      }
    }
  }

  ghost predicate Visits(order: seq<string>, keys: set<string>) {
    (forall n :: n in order <==> n in keys) && (forall i, j :: 0 <= i < j < |order| ==> order[i] != order[j])
  }

  /** Go visits a map in any order. */
  method AnyOrder(keys: set<string>) returns (order: seq<string>)
    ensures Visits(order, keys)
  {
    order := [];
    var todo := keys;
    while todo != {}
      invariant todo <= keys && Visits(order, keys - todo)
    {
      var n :| n in todo;
      todo, order := todo - {n}, order + [n];
    }
  }

  ghost predicate Ascending(names: seq<string>) {
    forall i, j :: 0 <= i < j < |names| ==> Text.Less(names[i], names[j])
  }

  /** `names` with `n` in its place. */
  function Placed(names: seq<string>, n: string): (r: seq<string>)
    ensures forall m :: m in r <==> m in names || m == n
  {
    if names == [] then [n]
    else if Text.Less(n, names[0]) then [n] + names
    else
      assert names == [names[0]] + names[1..];
      [names[0]] + Placed(names[1..], n)
  }

  lemma InFront(n: string, names: seq<string>)
    requires Ascending(names) && forall i :: 0 <= i < |names| ==> Text.Less(n, names[i])
    ensures Ascending([n] + names)
  {
  }

  lemma {:induction false} PlacedAscending(names: seq<string>, n: string)
    requires Ascending(names) && n !in names
    ensures Ascending(Placed(names, n))
  {
    if names != [] {
      if Text.Less(n, names[0]) {
        forall i | 0 <= i < |names| ensures Text.Less(n, names[i]) {
          if i > 0 { Text.LessTransitive(n, names[0], names[i]); }
        }
        InFront(n, names);
      } else {
        Text.LessTotal(n, names[0]);
        PlacedAscending(names[1..], n);
        var rest := Placed(names[1..], n);
        forall i | 0 <= i < |rest| ensures Text.Less(names[0], rest[i]) {
          assert rest[i] in rest;
          if rest[i] != n {
            var j :| 0 <= j < |names[1..]| && names[1..][j] == rest[i];
            assert names[j + 1] == rest[i];
          }
        }
        InFront(names[0], rest);
      }
    }
  }

  lemma AscendingIsDistinct(names: seq<string>)
    requires Ascending(names)
    ensures forall i, j :: 0 <= i < j < |names| ==> names[i] != names[j]
  {
    forall i, j | 0 <= i < j < |names| ensures names[i] != names[j] {
      Text.LessIrreflexive(names[i]);
    }
  }

  /** The order of `mapsToSortedSlices`. */
  method SortedNames(keys: set<string>) returns (order: seq<string>)
    ensures Visits(order, keys) && Ascending(order)
  {
    order := [];
    var todo := keys;
    while todo != {}
      invariant todo <= keys && Ascending(order)
      invariant forall n :: n in order <==> n in keys && n !in todo
    {
      var n :| n in todo;
      PlacedAscending(order, n);
      todo, order := todo - {n}, Placed(order, n);
    }
    AscendingIsDistinct(order);
  }

  ghost predicate Injective(m: map<string, ConfigObject>) {
    forall a, b :: a in m && b in m && a != b ==> m[a] != m[b]
  }

  /** `below` with the first `k` entries of a source over it. */
  ghost function LayeredUpTo(below: map<string, Config>, source: map<string, Config>, order: seq<string>, k: nat): map<string, Config>
    requires k <= |order| && forall n :: n in order ==> n in source
  {
    if k == 0 then below
    else
      var n := order[k - 1];
      var m := LayeredUpTo(below, source, order, k - 1);
      if Enabled(source[n]) then m[n := source[n]] else m
  }

  lemma {:induction false} LayeredPrefix(below: map<string, Config>, source: map<string, Config>, order: seq<string>, k: nat)
    requires k <= |order| && forall n :: n in order ==> n in source
    ensures var m := LayeredUpTo(below, source, order, k);
            && (forall n :: n in m <==> n in below || (n in order[..k] && Enabled(source[n])))
            && (forall n :: n in m ==> m[n] == if n in order[..k] && Enabled(source[n]) then source[n] else below[n])
  {
    if k > 0 {
      LayeredPrefix(below, source, order, k - 1);
      assert order[..k] == order[..k - 1] + [order[k - 1]];
    }
  }

  lemma LayeredAll(below: map<string, Config>, source: map<string, Config>, order: seq<string>)
    requires Visits(order, source.Keys)
    ensures LayeredUpTo(below, source, order, |order|) == Layered(below, source)
  {
    LayeredPrefix(below, source, order, |order|);
    assert order[..|order|] == order;
  }

  /** One source's enabled entries, cloned over what is merged so far (`baseSource.Load` and the
      loop of `Aggregator.Load`). */
  method MergeSource(src: Source, merged: map<string, ConfigObject>, ghost view: map<string, Config>)
    returns (out: map<string, ConfigObject>)
    requires src.Valid() && Injective(merged) && Shows(merged, view)
    ensures Injective(out) && Shows(out, Layered(view, src.Model))
    ensures forall n :: n in out ==> fresh(out[n]) || (n in merged && out[n] == merged[n])
  {
    var order := AnyOrder(src.entries.Keys);
    out := merged;
    for i := 0 to |order|
      invariant Injective(out) && Shows(out, LayeredUpTo(view, src.Model, order, i))
      invariant forall n :: n in out ==> fresh(out[n]) || (n in merged && out[n] == merged[n])
    {
      var name := order[i];
      assert name in order;
      var c := src.entries[name];
      if Enabled(c.value) {
        var copy := c.Clone();
        out := out[name := copy];
      }
    }
    LayeredAll(view, src.Model, order);
  }

  /** The objects of `cs` hold the configurations of `vals`. */
  ghost predicate ShowsList(cs: seq<ConfigObject>, vals: seq<Config>)
    reads cs
  {
    |cs| == |vals| && forall i :: 0 <= i < |cs| ==> cs[i].value == vals[i]
  }

  /** The names among the first `k` of `order` that may start. */
  ghost function Kept(merged: map<string, Config>, order: seq<string>, start: seq<string>, k: nat): seq<string>
    requires k <= |order| && forall n :: n in order ==> n in merged
  {
    if k == 0 then []
    else
      var n := order[k - 1];
      var before := Kept(merged, order, start, k - 1);
      if Started(start, n) && Enabled(merged[n]) then before + [n] else before
  }

  lemma {:induction false} KeptHas(merged: map<string, Config>, order: seq<string>, start: seq<string>, k: nat, n: string)
    requires k <= |order| && forall m :: m in order ==> m in merged
    ensures n in Kept(merged, order, start, k) <==> n in order[..k] && n in Selected(merged, start)
  {
    if k > 0 {
      KeptHas(merged, order, start, k - 1, n);
      assert order[..k] == order[..k - 1] + [order[k - 1]];
    }
  }

  lemma NotBefore(order: seq<string>, k: nat)
    requires k < |order| && forall i, j :: 0 <= i < j < |order| ==> order[i] != order[j]
    ensures order[k] !in order[..k]
  {
  }

  lemma {:induction false} KeptOnce(merged: map<string, Config>, order: seq<string>, start: seq<string>, k: nat)
    requires Visits(order, merged.Keys) && k <= |order|
    ensures Distinct(Kept(merged, order, start, k))
  {
    if k > 0 {
      KeptOnce(merged, order, start, k - 1);
      KeptHas(merged, order, start, k - 1, order[k - 1]);
      NotBefore(order, k - 1);
      AppendNew(Kept(merged, order, start, k - 1), order[k - 1]);
    }
  }

  lemma {:induction false} KeptAscending(merged: map<string, Config>, order: seq<string>, start: seq<string>, k: nat)
    requires Visits(order, merged.Keys) && Ascending(order) && k <= |order|
    ensures Ascending(Kept(merged, order, start, k))
  {
    if k > 0 {
      KeptAscending(merged, order, start, k - 1);
      var before, last := Kept(merged, order, start, k - 1), order[k - 1];
      forall i | 0 <= i < |before| ensures Text.Less(before[i], last) {
        KeptHas(merged, order, start, k - 1, before[i]);
        EarlierIsLess(order, k - 1, before[i]);
      }
      AtEnd(before, last);
    }
  }

  lemma EarlierIsLess(order: seq<string>, k: nat, n: string)
    requires Ascending(order) && k < |order| && n in order[..k]
    ensures Text.Less(n, order[k])
  {
    var j :| 0 <= j < k && order[j] == n;
  }

  lemma AtEnd(names: seq<string>, n: string)
    requires Ascending(names) && forall i :: 0 <= i < |names| ==> Text.Less(names[i], n)
    ensures Ascending(names + [n])
  {
  }

  ghost predicate SortedByName(cs: seq<Config>) {
    forall i, j :: 0 <= i < j < |cs| ==> Text.Less(cs[i].name, cs[j].name)
  }

  lemma KeptAll(merged: map<string, Config>, order: seq<string>, start: seq<string>, names: seq<string>, vals: seq<Config>)
    requires WellNamed(merged) && Visits(order, merged.Keys)
    requires names == Kept(merged, order, start, |order|) && |vals| == |names|
    requires forall i :: 0 <= i < |vals| ==> names[i] in merged && vals[i] == Completed(merged[names[i]])
    requires Ascending(order)
    ensures Lists(vals, Selected(merged, start)) && SortedByName(vals)
  {
    KeptAscending(merged, order, start, |order|);
    assert order[..|order|] == order;
    var m := Selected(merged, start);
    KeptOnce(merged, order, start, |order|);
    forall n ensures n in names <==> n in m {
      KeptHas(merged, order, start, |order|, n);
    }
    forall n | n in m ensures m[n] in vals && m[n].name == n {
      var i :| 0 <= i < |names| && names[i] == n;
      assert vals[i] == m[n];
    }
  }

  /** `FilterClientConfigurers`: some of the merged objects. */
  method Filter(
    merged: map<string, ConfigObject>, ghost view: map<string, Config>, order: seq<string>, start: seq<string>)
    returns (out: seq<ConfigObject>)
    requires Visits(order, view.Keys) && Shows(merged, view)
    ensures ObjectsOf(out, merged, Kept(view, order, start, |order|))
  {
    out := [];
    for k := 0 to |order|
      invariant ObjectsOf(out, merged, Kept(view, order, start, k))
    {
      var name := order[k];
      assert name in order;
      if Started(start, name) && Enabled(merged[name].value) {
        out := out + [merged[name]];
      }
    }
  }

  /** The objects under those names, in that order. */
  ghost predicate ObjectsOf(out: seq<ConfigObject>, merged: map<string, ConfigObject>, names: seq<string>) {
    |out| == |names| && forall i :: 0 <= i < |out| ==> names[i] in merged && out[i] == merged[names[i]]
  }

  /** `CompleteProxyConfigurers` and `CompleteVisitorConfigurers`: in place, each object once. */
  method CompleteAll(cs: seq<ConfigObject>)
    requires forall i, j :: 0 <= i < j < |cs| ==> cs[i] != cs[j]
    modifies cs
    ensures forall i :: 0 <= i < |cs| ==> cs[i].value == Completed(old(cs[i].value))
  {
    for k := 0 to |cs|
      invariant forall i :: 0 <= i < k ==> cs[i].value == Completed(old(cs[i].value))
      invariant forall i :: k <= i < |cs| ==> cs[i].value == old(cs[i].value)
    {
      cs[k].Complete();
    }
  }

  method SelectAndComplete(
    merged: map<string, ConfigObject>, ghost view: map<string, Config>, order: seq<string>, start: seq<string>)
    returns (out: seq<ConfigObject>, ghost vals: seq<Config>)
    requires Visits(order, view.Keys) && Ascending(order) && Injective(merged) && Shows(merged, view) && WellNamed(view)
    modifies merged.Values
    ensures forall i :: 0 <= i < |out| ==> out[i] in merged.Values
    ensures ShowsList(out, vals) && Lists(vals, Selected(view, start)) && SortedByName(vals)
  {
    out := Filter(merged, view, order, start);
    ghost var names := Kept(view, order, start, |order|);
    KeptOnce(view, order, start, |order|);
    CompleteAll(out);
    vals := seq(|names|, i requires 0 <= i < |names| && names[i] in view => Completed(view[names[i]]));
    KeptAll(view, order, start, names, vals);
  }

  /** What a source that may be missing holds. */
  ghost function ModelOf(src: Source?): map<string, Config>
    reads src
  {
    if src == null then map[] else src.Model
  }

  ghost predicate ValidOrMissing(src: Source?)
    reads src, if src == null then {} else src.entries.Values
  {
    src != null ==> src.Valid()
  }

  /** The reload up to the managers; it fails exactly if there is no source at all. Nothing that
      existed before is changed: completion fills in the copies, never what the sources hold. */
  method LoadAll(config: Source?, store: Source?, start: seq<string>)
    returns (ok: bool, out: seq<ConfigObject>, ghost vals: seq<Config>)
    requires ValidOrMissing(config) && ValidOrMissing(store)
    ensures ok <==> config != null || store != null
    ensures ok ==> forall i :: 0 <= i < |out| ==> fresh(out[i])
    ensures ok ==> ShowsList(out, vals) && SortedByName(vals) && Lists(vals, Target(ModelOf(config), ModelOf(store), start))
  {
    if config == null && store == null {
      return false, [], [];
    }
    var merged := MergeBoth(config, store);
    var order := SortedNames(merged.Keys);
    out, vals := SelectAndComplete(merged, Overlay(ModelOf(config), ModelOf(store)), order, start);
    ok := true;
  }

  method MergeBoth(config: Source?, store: Source?) returns (merged: map<string, ConfigObject>)
    requires ValidOrMissing(config) && ValidOrMissing(store)
    ensures Injective(merged) && Shows(merged, Overlay(ModelOf(config), ModelOf(store)))
    ensures WellNamed(Overlay(ModelOf(config), ModelOf(store)))
    ensures forall n :: n in merged ==> fresh(merged[n])
  {
    OverlayIsLayered(ModelOf(config), ModelOf(store));
    var first := MergeOne(config, map[], map[]);
    merged := MergeOne(store, first, Layered(map[], ModelOf(config)));
  }

  method MergeOne(src: Source?, merged: map<string, ConfigObject>, ghost view: map<string, Config>)
    returns (out: map<string, ConfigObject>)
    requires ValidOrMissing(src) && Injective(merged) && Shows(merged, view)
    ensures Injective(out) && Shows(out, Layered(view, ModelOf(src)))
    ensures forall n :: n in out ==> fresh(out[n]) || (n in merged && out[n] == merged[n])
  {
    if src == null {
      assert Layered(view, map[]) == view;
      return merged;
    }
    out := MergeSource(src, merged, view);
  }
}
