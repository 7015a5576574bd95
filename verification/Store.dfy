/** The configuration store (pkg/config/source/store.go): two maps in memory and one JSON file
    that is replaced by renaming a finished temporary file over it.

    A file is modelled by what it decodes to: a list of proxies and one of visitors, or
    nothing that parses. Every system call of a save may fail, and the process may stop
    between any two of them. */
module Store {
  import opened Wrappers
  import opened Configs

  datatype Maps = Maps(proxies: map<string, Config>, visitors: map<string, Config>)

  const EMPTY := Maps(map[], map[])

  datatype Content = Torn | Whole(proxies: seq<Config>, visitors: seq<Config>)

  datatype Disk = Disk(main: Option<Content>, tmp: Option<Content>)

  // ---------- encoding and decoding ----------

  ghost predicate AllWellNamed(m: Maps) {
    WellNamed(m.proxies) && WellNamed(m.visitors)
  }

  ghost predicate Encodes(c: Content, m: Maps) {
    c.Whole? && Lists(c.proxies, m.proxies) && Lists(c.visitors, m.visitors)
  }

  /** Files the first `n` entries; a nameless one is an error. */
  function Filed(cs: seq<Config>, n: nat): (r: Option<map<string, Config>>)
    requires n <= |cs|
    ensures r.Some? ==> WellNamed(r.value)
  {
    if n == 0 then Some(map[])
    else
      var before := Filed(cs, n - 1);
      if before.None? || cs[n - 1].name == "" then None
      else Some(before.value[cs[n - 1].name := cs[n - 1]])
  }

  function Decoded(c: Content): Option<Maps> {
    match c
    case Torn => None
    case Whole(ps, vs) =>
      var proxies := Filed(ps, |ps|);
      var visitors := Filed(vs, |vs|);
      if proxies.None? || visitors.None? then None else Some(Maps(proxies.value, visitors.value))
  }

  /** What a start makes of the main file; no file is an empty store. */
  function Loaded(d: Disk): Option<Maps> {
    if d.main.None? then Some(EMPTY) else Decoded(d.main.value)
  }

  lemma {:induction false} FiledPrefix(cs: seq<Config>, m: map<string, Config>, n: nat, k: string)
    requires WellNamed(m) && Lists(cs, m) && n <= |cs|
    ensures Filed(cs, n).Some?
    ensures k in Filed(cs, n).value <==> exists i :: 0 <= i < n && cs[i].name == k
    ensures k in Filed(cs, n).value ==> k in m && Filed(cs, n).value[k] == m[k]
  {
    if n > 0 {
      FiledPrefix(cs, m, n - 1, k);
      assert cs[n - 1].name in m;
    }
  }

  /** Decoding any encoding of a well-named map gives the map back. */
  lemma FiledLists(cs: seq<Config>, m: map<string, Config>)
    requires WellNamed(m) && Lists(cs, m)
    ensures Filed(cs, |cs|) == Some(m)
  {
    FiledPrefix(cs, m, |cs|, "");
    var r := Filed(cs, |cs|).value;
    forall k ensures (k in r <==> k in m) && (k in m ==> r[k] == m[k]) {
      FiledPrefix(cs, m, |cs|, k);
      if k in m {
        var i :| 0 <= i < |cs| && cs[i] == m[k];
      }
    }
    assert r == m;
  }

  /** Any list of entries decodes exactly if none is nameless, and of several with one name the last
      stays. */
  lemma {:induction false} FiledMeans(cs: seq<Config>, n: nat, k: string)
    requires n <= |cs|
    ensures Filed(cs, n).Some? <==> forall i :: 0 <= i < n ==> cs[i].name != ""
    ensures Filed(cs, n).Some? ==> (k in Filed(cs, n).value <==> exists i :: 0 <= i < n && cs[i].name == k)
    ensures Filed(cs, n).Some? ==>
              forall i :: 0 <= i < n && cs[i].name == k && (forall j :: i < j < n ==> cs[j].name != k) ==>
                k in Filed(cs, n).value && Filed(cs, n).value[k] == cs[i]
  {
    if n > 0 {
      FiledMeans(cs, n - 1, k);
    }
  }

  lemma DecodedEncodes(c: Content, m: Maps)
    requires AllWellNamed(m) && Encodes(c, m)
    ensures Decoded(c) == Some(m)
  {
    FiledLists(c.proxies, m.proxies);
    FiledLists(c.visitors, m.visitors);
  }

  // ---------- one save ----------

  /** Which system calls of a save succeed. */
  datatype Calls = Calls(
    marshal: bool, mkdir: bool, open: bool, write: bool, sync: bool, close: bool, rename: bool, remove: bool)

  predicate Succeeds(o: Calls) {
    o.marshal && o.mkdir && o.open && o.write && o.sync && o.close && o.rename
  }

  /** The states of the disk during a save, from before it to after its last call. */
  function SaveTrace(d: Disk, c: Content, o: Calls): (t: seq<Disk>)
    ensures t != [] && t[0] == d
  {
    if !o.marshal || !o.mkdir || !o.open then [d]
    else
      var begun := d.(tmp := Some(Torn));
      if !o.write || !o.sync || !o.close then
        [d, begun, begun.(tmp := if o.remove then None else Some(Torn))]
      else
        var written := d.(tmp := Some(c));
        if !o.rename then [d, begun, written, written.(tmp := if o.remove then None else Some(c))]
        else [d, begun, written, Disk(Some(c), None)]
  }

  function AfterSave(d: Disk, c: Content, o: Calls): Disk {
    var t := SaveTrace(d, c, o);
    t[|t| - 1]
  }

  /** At every moment of a save the main file is the complete old or the complete new one, and
      it is the new one at the end exactly if the save succeeds. */
  lemma MainIsOldOrNew(d: Disk, c: Content, o: Calls, k: nat)
    requires k < |SaveTrace(d, c, o)|
    ensures SaveTrace(d, c, o)[k].main == d.main || SaveTrace(d, c, o)[k].main == Some(c)
    ensures AfterSave(d, c, o).main == if Succeeds(o) then Some(c) else d.main
    ensures Succeeds(o) || (o.remove && o.marshal && o.mkdir && o.open) ==> AfterSave(d, c, o).tmp == None
  {
  }

  // ---------- operations ----------

  datatype Kind = Proxies | Visitors

  function Get(m: Maps, kind: Kind): map<string, Config> {
    if kind.Proxies? then m.proxies else m.visitors
  }

  function Set(m: Maps, kind: Kind, x: map<string, Config>): Maps {
    if kind.Proxies? then m.(proxies := x) else m.(visitors := x)
  }

  datatype Op = Add(kind: Kind, cfg: Config) | Update(kind: Kind, cfg: Config) | Remove(kind: Kind, name: string)

  datatype Error = NoError | EmptyName | AlreadyExists | NotFound | FailedToPersist

  /** What an operation should leave behind, or why it cannot. */
  function Intended(m: Maps, op: Op): (Maps, Error) {
    match op
    case Add(kind, cfg) =>
      if cfg.name == "" then (m, EmptyName)
      else if cfg.name in Get(m, kind) then (m, AlreadyExists)
      else (Set(m, kind, Get(m, kind)[cfg.name := cfg]), NoError)
    case Update(kind, cfg) =>
      if cfg.name == "" then (m, EmptyName)
      else if cfg.name !in Get(m, kind) then (m, NotFound)
      else (Set(m, kind, Get(m, kind)[cfg.name := cfg]), NoError)
    case Remove(kind, name) =>
      if name == "" then (m, EmptyName)
      else if name !in Get(m, kind) then (m, NotFound)
      else (Set(m, kind, Get(m, kind) - {name}), NoError)
  }

  // ---------- what is stored ----------

  /** What is stored under a kind and a name. */
  function Entry(m: Maps, kind: Kind, name: string): Option<Config> {
    var x := if kind.Proxies? then m.proxies else m.visitors;
    if name in x then Some(x[name]) else None
  }

  function NameOf(op: Op): string {
    match op
    case Add(_, cfg) => cfg.name
    case Update(_, cfg) => cfg.name
    case Remove(_, name) => name
  }

  /** `m` and `t` agree on everything but that entry. */
  ghost predicate SameElsewhere(m: Maps, t: Maps, kind: Kind, name: string) {
    forall k: Kind, n :: k != kind || n != name ==> Entry(t, k, n) == Entry(m, k, n)
  }

  ghost predicate SameEntries(m: Maps, t: Maps) {
    forall k: Kind, n :: Entry(t, k, n) == Entry(m, k, n)
  }

  /** An addition finds no entry of its name, an update and a removal find one. */
  predicate Accepts(before: Option<Config>, op: Op) {
    NameOf(op) != "" && (before.Some? <==> !op.Add?)
  }

  /** What an accepted operation leaves there. */
  function Written(op: Op): Option<Config> {
    if op.Remove? then None else Some(op.cfg)
  }

  /** Each operation in terms of the entries: the errors and their conditions, the entry written, and
      all other entries. */
  lemma IntendedMeans(m: Maps, op: Op)
    ensures var (t, err) := Intended(m, op);
            var before := Entry(m, op.kind, NameOf(op));
            && (err.NoError? <==> Accepts(before, op))
            && (err == EmptyName <==> NameOf(op) == "")
            && (err == AlreadyExists <==> NameOf(op) != "" && op.Add? && before.Some?)
            && (err == NotFound <==> NameOf(op) != "" && !op.Add? && before.None?)
            && err != FailedToPersist
            && (err.NoError? ==> Entry(t, op.kind, NameOf(op)) == Written(op) && SameElsewhere(m, t, op.kind, NameOf(op)))
            && (!err.NoError? ==> t == m)
  {
  }

  lemma IntendedKeepsNames(m: Maps, op: Op)
    requires AllWellNamed(m)
    ensures AllWellNamed(Intended(m, op).0)
  {
  }

  /** Memory and error after an operation whose save makes the calls `o`. */
  function Result(m: Maps, op: Op, o: Calls): (Maps, Error) {
    var (next, err) := Intended(m, op);
    if !err.NoError? then (m, err)
    else if Succeeds(o) then (next, NoError)
    else (m, FailedToPersist)
  }

  /** Whenever the process stops, a restart loads all of the old or all of the new. */
  ghost predicate Unbroken(trace: seq<Disk>, before: Maps, after: Maps) {
    trace != [] && forall k :: 0 <= k < |trace| ==> Loaded(trace[k]) == Some(before) || Loaded(trace[k]) == Some(after)
  }

  // ---------- the store object ----------

  class StoreSource {
    var maps: Maps
    var disk: Disk

    /** Memory is what a restart would load. */
    ghost predicate Valid()
      reads this
    {
      AllWellNamed(maps) && Loaded(disk) == Some(maps)
    }

    constructor (maps: Maps, disk: Disk)
      ensures this.maps == maps && this.disk == disk
    {
      this.maps, this.disk := maps, disk;
    }

    /** `NewStoreSource`: an error, here no store, exactly for an empty path and for a file that is
        there and does not decode; otherwise a store that holds what the file decodes to. */
    static method NewStoreSource(path: string, disk: Disk) returns (r: StoreSource?)
      ensures r == null <==> path == "" || Loaded(disk).None?
      ensures r != null ==> fresh(r) && r.Valid() && r.disk == disk && r.maps == Loaded(disk).value
    {
      if path == "" {
        return null;
      }
      if disk.main.None? {
        return new StoreSource(EMPTY, disk);
      }
      if disk.main.value.Torn? {
        return null;
      }
      var ps := Decode(disk.main.value.proxies);
      if ps.None? {
        return null;
      }
      var vs := Decode(disk.main.value.visitors);
      if vs.None? {
        return null;
      }
      return new StoreSource(Maps(ps.value, vs.value), disk);
    }

    static method Decode(cs: seq<Config>) returns (r: Option<map<string, Config>>)
      ensures r == Filed(cs, |cs|)
    {
      var m: map<string, Config> := map[];
      for i := 0 to |cs|
        invariant Filed(cs, i) == Some(m)
      {
        if cs[i].name == "" {
          FiledFails(cs, i, |cs|);
          return None;
        }
        m := m[cs[i].name := cs[i]];
      }
      return Some(m);
    }

    /** Writes the maps out through a temporary file. `trace` is where the disk has been. */
    method SaveToFile(c: Content, o: Calls) returns (ok: bool, ghost trace: seq<Disk>)
      requires Encodes(c, maps)
      modifies this`disk
      ensures ok == Succeeds(o)
      ensures trace == SaveTrace(old(disk), c, o) && disk == AfterSave(old(disk), c, o)
    {
      trace := [disk];
      if !o.marshal || !o.mkdir || !o.open {
        return false, trace;
      }
      disk := disk.(tmp := Some(Torn));
      trace := trace + [disk];
      if !o.write || !o.sync || !o.close {
        if o.remove {
          disk := disk.(tmp := None);
        }
        trace := trace + [disk];
        return false, trace;
      }
      disk := disk.(tmp := Some(c));
      trace := trace + [disk];
      if !o.rename {
        if o.remove {
          disk := disk.(tmp := None);
        }
        trace := trace + [disk];
        return false, trace;
      }
      disk := Disk(disk.tmp, None);
      trace := trace + [disk];
      return true, trace;
    }

    /** Each operation persists or rolls back: on success memory and disk hold what was
        intended, on failure both hold what they held, and all the time the main file decodes
        to one of the two. `c` is the encoding that its save would write. */
    method AddEntry(kind: Kind, cfg: Config, c: Content, o: Calls) returns (err: Error, ghost trace: seq<Disk>)
      requires Valid()
      requires Intended(maps, Add(kind, cfg)).1.NoError? ==> Encodes(c, Intended(maps, Add(kind, cfg)).0)
      modifies this
      ensures Valid() && (maps, err) == Result(old(maps), Add(kind, cfg), o)
      ensures Unbroken(trace, old(maps), Intended(old(maps), Add(kind, cfg)).0) && trace[|trace| - 1] == disk
      ensures err.NoError? ==> Entry(maps, kind, cfg.name) == Some(cfg) && SameElsewhere(old(maps), maps, kind, cfg.name)
      ensures !err.NoError? ==> SameEntries(old(maps), maps)
      ensures (err == EmptyName <==> cfg.name == "") && (err == AlreadyExists <==> cfg.name != "" && old(Entry(maps, kind, cfg.name)).Some?)
      ensures err == FailedToPersist ==> !Succeeds(o)
      ensures err.NoError? ==> Succeeds(o)
    {
      IntendedMeans(maps, Add(kind, cfg));
      trace := [disk];
      if cfg.name == "" {
        return EmptyName, trace;
      }
      var m := Get(maps, kind);
      if cfg.name in m {
        return AlreadyExists, trace;
      }
      var ok;
      ok, trace := Replace(Set(maps, kind, m[cfg.name := cfg]), c, o);
      if !ok {
        maps := Set(maps, kind, Get(maps, kind) - {cfg.name});
        assert Get(maps, kind) == m;
        return FailedToPersist, trace;
      }
      return NoError, trace;
    }

    method UpdateEntry(kind: Kind, cfg: Config, c: Content, o: Calls) returns (err: Error, ghost trace: seq<Disk>)
      requires Valid()
      requires Intended(maps, Update(kind, cfg)).1.NoError? ==> Encodes(c, Intended(maps, Update(kind, cfg)).0)
      modifies this
      ensures Valid() && (maps, err) == Result(old(maps), Update(kind, cfg), o)
      ensures Unbroken(trace, old(maps), Intended(old(maps), Update(kind, cfg)).0) && trace[|trace| - 1] == disk
      ensures err.NoError? ==> Entry(maps, kind, cfg.name) == Some(cfg) && SameElsewhere(old(maps), maps, kind, cfg.name)
      ensures !err.NoError? ==> SameEntries(old(maps), maps)
      ensures (err == EmptyName <==> cfg.name == "") && (err == NotFound <==> cfg.name != "" && old(Entry(maps, kind, cfg.name)).None?)
      ensures err == FailedToPersist ==> !Succeeds(o)
      ensures err.NoError? ==> Succeeds(o)
    {
      IntendedMeans(maps, Update(kind, cfg));
      trace := [disk];
      if cfg.name == "" {
        return EmptyName, trace;
      }
      var m := Get(maps, kind);
      if cfg.name !in m {
        return NotFound, trace;
      }
      var previous := m[cfg.name];
      var ok;
      ok, trace := Replace(Set(maps, kind, m[cfg.name := cfg]), c, o);
      if !ok {
        maps := Set(maps, kind, Get(maps, kind)[cfg.name := previous]);
        assert Get(maps, kind) == m;
        return FailedToPersist, trace;
      }
      return NoError, trace;
    }

    method RemoveEntry(kind: Kind, name: string, c: Content, o: Calls) returns (err: Error, ghost trace: seq<Disk>)
      requires Valid()
      requires Intended(maps, Remove(kind, name)).1.NoError? ==> Encodes(c, Intended(maps, Remove(kind, name)).0)
      modifies this
      ensures Valid() && (maps, err) == Result(old(maps), Remove(kind, name), o)
      ensures Unbroken(trace, old(maps), Intended(old(maps), Remove(kind, name)).0) && trace[|trace| - 1] == disk
      ensures err.NoError? ==> Entry(maps, kind, name) == None && SameElsewhere(old(maps), maps, kind, name)
      ensures !err.NoError? ==> SameEntries(old(maps), maps)
      ensures (err == EmptyName <==> name == "") && (err == NotFound <==> name != "" && old(Entry(maps, kind, name)).None?)
      ensures err == FailedToPersist ==> !Succeeds(o)
      ensures err.NoError? ==> Succeeds(o)
    {
      IntendedMeans(maps, Remove(kind, name));
      trace := [disk];
      if name == "" {
        return EmptyName, trace;
      }
      var m := Get(maps, kind);
      if name !in m {
        return NotFound, trace;
      }
      var previous := m[name];
      var ok;
      ok, trace := Replace(Set(maps, kind, m - {name}), c, o);
      if !ok {
        maps := Set(maps, kind, Get(maps, kind)[name := previous]);
        assert Get(maps, kind) == m;
        return FailedToPersist, trace;
      }
      return NoError, trace;
    }

    /** Changes memory first and then saves; a failed save leaves the old file. */
    method Replace(next: Maps, c: Content, o: Calls) returns (ok: bool, ghost trace: seq<Disk>)
      requires Valid() && AllWellNamed(next) && Encodes(c, next)
      modifies this
      ensures ok == Succeeds(o) && maps == next
      ensures Loaded(disk) == Some(if ok then next else old(maps))
      ensures Unbroken(trace, old(maps), next) && trace[|trace| - 1] == disk
    {
      maps := next;
      DecodedEncodes(c, next);
      ok, trace := SaveToFile(c, o);
      forall k | 0 <= k < |trace| ensures Loaded(trace[k]) == Some(old(maps)) || Loaded(trace[k]) == Some(next) {
        MainIsOldOrNew(old(disk), c, o, k);
      }
      MainIsOldOrNew(old(disk), c, o, 0);
    }
  }

  lemma {:induction false} FiledFails(cs: seq<Config>, i: nat, n: nat)
    requires i < n <= |cs| && cs[i].name == ""
    ensures Filed(cs, n).None?
  {
    if i < n - 1 { FiledFails(cs, i, n - 1); }
  }

  // ---------- histories ----------

  /** An operation that returns, or one during which the process stops after `k` of its disk
      states and is started again. */
  datatype Event =
    | Perform(op: Op, c: Content, o: Calls)
    | Crash(op: Op, c: Content, o: Calls, k: nat)

  datatype State = State(maps: Maps, disk: Disk)

  ghost predicate InStep(s: State) {
    AllWellNamed(s.maps) && Loaded(s.disk) == Some(s.maps)
  }

  /** The save writes an encoding of what the operation intends. */
  ghost predicate Proper(s: State, e: Event) {
    Intended(s.maps, e.op).1.NoError? ==> Encodes(e.c, Intended(s.maps, e.op).0)
  }

  function DiskStates(s: State, e: Event): (t: seq<Disk>)
    ensures t != []
  {
    if Intended(s.maps, e.op).1.NoError? then SaveTrace(s.disk, e.c, e.o) else [s.disk]
  }

  function Apply(s: State, e: Event): State {
    var t := DiskStates(s, e);
    match e
    case Perform(op, c, o) => State(Result(s.maps, op, o).0, t[|t| - 1])
    case Crash(op, c, o, k) =>
      var d := t[if k < |t| then k else |t| - 1];
      State(if Loaded(d).Some? then Loaded(d).value else EMPTY, d)
  }

  /** What the caller was told; a crashed operation tells nothing. */
  predicate ReturnedSuccess(s: State, e: Event) {
    e.Perform? && Result(s.maps, e.op, e.o).1.NoError?
  }

  predicate ReturnedFailure(s: State, e: Event) {
    e.Perform? && !Result(s.maps, e.op, e.o).1.NoError?
  }

  lemma StepIsAtomic(s: State, e: Event)
    requires InStep(s) && Proper(s, e)
    ensures InStep(Apply(s, e))
    ensures Apply(s, e).maps == s.maps || Apply(s, e).maps == Intended(s.maps, e.op).0
    ensures ReturnedSuccess(s, e) ==> Apply(s, e).maps == Intended(s.maps, e.op).0
    ensures ReturnedFailure(s, e) ==> Apply(s, e).maps == s.maps
  {
    IntendedKeepsNames(s.maps, e.op);
    if Intended(s.maps, e.op).1.NoError? {
      DecodedEncodes(e.c, Intended(s.maps, e.op).0);
      var t := SaveTrace(s.disk, e.c, e.o);
      MainIsOldOrNew(s.disk, e.c, e.o, |t| - 1);
      if e.Crash? {
        MainIsOldOrNew(s.disk, e.c, e.o, if e.k < |t| then e.k else |t| - 1);
      }
    }
  }

  ghost predicate ProperRun(s: State, events: seq<Event>)
    decreases |events|
  {
    events == [] || (Proper(s, events[0]) && ProperRun(Apply(s, events[0]), events[1..]))
  }

  function Run(s: State, events: seq<Event>): State
    decreases |events|
  {
    if events == [] then s else Run(Apply(s, events[0]), events[1..])
  }

  /** A plain map on which the chosen operations take effect one after the other. */
  function Replay(m: Maps, events: seq<Event>, applied: seq<bool>): Maps
    requires |applied| == |events|
    decreases |events|
  {
    if events == [] then m
    else Replay(if applied[0] then Intended(m, events[0].op).0 else m, events[1..], applied[1..])
  }

  /** `applied` agrees with what the callers were told. */
  ghost predicate Truthful(s: State, events: seq<Event>, applied: seq<bool>)
    requires |applied| == |events|
    decreases |events|
  {
    events == [] ||
    (&& (ReturnedSuccess(s, events[0]) ==> applied[0])
     && (ReturnedFailure(s, events[0]) ==> !applied[0])
     && Truthful(Apply(s, events[0]), events[1..], applied[1..]))
  }

  /** The store is a durable map: over any sequence of operations, failures and crashes with
      restarts, memory and disk agree and hold the outcome of a sequence in which every
      operation took effect completely or not at all, as its caller was told. */
  lemma {:induction false} DurableMap(s: State, events: seq<Event>) returns (applied: seq<bool>)
    requires InStep(s) && ProperRun(s, events)
    ensures |applied| == |events| && Truthful(s, events, applied)
    ensures InStep(Run(s, events)) && Run(s, events).maps == Replay(s.maps, events, applied)
    decreases |events|
  {
    if events == [] {
      applied := [];
    } else {
      var e := events[0];
      StepIsAtomic(s, e);
      var rest := DurableMap(Apply(s, e), events[1..]);
      var now := ReturnedSuccess(s, e) || (!ReturnedFailure(s, e) && Apply(s, e).maps == Intended(s.maps, e.op).0);
      applied := [now] + rest;
      assert applied[1..] == rest;
    }
  }

  // ---------- the last write ----------

  /** The maps after the first `k` events. */
  function MapsAt(m: Maps, events: seq<Event>, applied: seq<bool>, k: nat): Maps
    requires |applied| == |events| && k <= |events|
  {
    if k == 0 then m
    else
      var before := MapsAt(m, events, applied, k - 1);
      if applied[k - 1] then Intended(before, events[k - 1].op).0 else before
  }

  lemma {:induction false} ReplayFrom(m: Maps, events: seq<Event>, applied: seq<bool>, k: nat)
    requires |applied| == |events| && k <= |events|
    ensures Replay(MapsAt(m, events, applied, k), events[k..], applied[k..]) == Replay(m, events, applied)
  {
    if k == 0 {
      assert events[0..] == events && applied[0..] == applied;
    } else {
      ReplayFrom(m, events, applied, k - 1);
      assert events[k - 1..][1..] == events[k..] && applied[k - 1..][1..] == applied[k..];
    }
  }

  /** Event `i` took effect and wrote the entry of that kind and name. */
  ghost predicate Writes(m: Maps, events: seq<Event>, applied: seq<bool>, i: nat, kind: Kind, name: string)
    requires |applied| == |events|
  {
    && i < |events| && applied[i] && events[i].op.kind == kind && NameOf(events[i].op) == name
    && Accepts(Entry(MapsAt(m, events, applied, i), kind, name), events[i].op)
  }

  lemma EntryStep(m: Maps, events: seq<Event>, applied: seq<bool>, i: nat, kind: Kind, name: string)
    requires |applied| == |events| && i < |events|
    ensures Entry(MapsAt(m, events, applied, i + 1), kind, name) ==
            if Writes(m, events, applied, i, kind, name) then Written(events[i].op)
            else Entry(MapsAt(m, events, applied, i), kind, name)
  {
    IntendedMeans(MapsAt(m, events, applied, i), events[i].op);
  }

  lemma {:induction false} NoWriteSince(m: Maps, events: seq<Event>, applied: seq<bool>, i: nat, k: nat, kind: Kind, name: string)
    requires |applied| == |events| && i <= k <= |events|
    requires forall j: nat :: i <= j < k ==> !Writes(m, events, applied, j, kind, name)
    ensures Entry(MapsAt(m, events, applied, k), kind, name) == Entry(MapsAt(m, events, applied, i), kind, name)
  {
    if i < k {
      NoWriteSince(m, events, applied, i, k - 1, kind, name);
      EntryStep(m, events, applied, k - 1, kind, name);
    }
  }

  /** After any history the entry of a kind and a name is what the last operation on it that took
      effect wrote, and what was there at the start if there was none. */
  lemma LastWriteStays(m: Maps, events: seq<Event>, applied: seq<bool>, kind: Kind, name: string)
    requires |applied| == |events|
    ensures var now := Entry(Replay(m, events, applied), kind, name);
            && (forall i: nat :: Writes(m, events, applied, i, kind, name)
                                 && (forall j: nat :: i < j < |events| ==> !Writes(m, events, applied, j, kind, name)) ==>
                  now == Written(events[i].op))
            && ((forall j: nat :: j < |events| ==> !Writes(m, events, applied, j, kind, name)) ==> now == Entry(m, kind, name))
  {
    var n := |events|;
    ReplayFrom(m, events, applied, n);
    assert events[n..] == [] && applied[n..] == [];
    forall i: nat | Writes(m, events, applied, i, kind, name)
                    && forall j: nat :: i < j < |events| ==> !Writes(m, events, applied, j, kind, name)
      ensures Entry(Replay(m, events, applied), kind, name) == Written(events[i].op)
    {
      EntryStep(m, events, applied, i, kind, name);
      NoWriteSince(m, events, applied, i + 1, n, kind, name);
    }
    if forall j: nat :: j < |events| ==> !Writes(m, events, applied, j, kind, name) {
      NoWriteSince(m, events, applied, 0, n, kind, name);
    }
  }
}
