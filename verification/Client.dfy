/** A client's reloads and logins (client/service.go, client/control.go): a reload from the
    sources down to the running proxies and visitors, and what happens when a login overlaps it. */
module Client {
  import opened Wrappers
  import opened Configs
  import opened Managers
  import Reload
  import Visitors

  // ---------- one reload, from the sources to what runs ----------

  class Service {
    /** Without an aggregator no reload is possible; either of its sources may be missing. */
    const aggregated: bool
    const proxyConfig: Reload.Source?
    const proxyStore: Reload.Source?
    const visitorConfig: Reload.Source?
    const visitorStore: Reload.Source?
    var start: seq<string>
    var proxyCfgs: seq<Config>
    var visitorCfgs: seq<Config>
    var pm: ProxyManager?
    var vm: Visitors.VisitorManager?

    constructor (
      aggregated: bool, pc: Reload.Source?, ps: Reload.Source?, vc: Reload.Source?, vs: Reload.Source?, start: seq<string>)
      ensures this.aggregated == aggregated
      ensures proxyConfig == pc && proxyStore == ps && visitorConfig == vc && visitorStore == vs
      ensures this.start == start && pm == null && vm == null
    {
      this.aggregated := aggregated;
      proxyConfig, proxyStore, visitorConfig, visitorStore := pc, ps, vc, vs;
      this.start, proxyCfgs, visitorCfgs, pm, vm := start, [], [], null, null;
    }

    /** A source holds proxies and visitors, or is missing. */
    predicate Paired() {
      (proxyConfig == null <==> visitorConfig == null) && (proxyStore == null <==> visitorStore == null)
    }

    predicate CanLoad() {
      aggregated && (proxyConfig != null || proxyStore != null)
    }

    ghost predicate SourcesValid()
      reads proxyConfig, if proxyConfig == null then {} else proxyConfig.entries.Values
      reads proxyStore, if proxyStore == null then {} else proxyStore.entries.Values
      reads visitorConfig, if visitorConfig == null then {} else visitorConfig.entries.Values
      reads visitorStore, if visitorStore == null then {} else visitorStore.entries.Values
    {
      && Reload.ValidOrMissing(proxyConfig) && Reload.ValidOrMissing(proxyStore)
      && Reload.ValidOrMissing(visitorConfig) && Reload.ValidOrMissing(visitorStore)
    }

    ghost function ProxyTarget(): map<string, Config>
      reads this, proxyConfig, proxyStore
    {
      Reload.Target(Reload.ModelOf(proxyConfig), Reload.ModelOf(proxyStore), start)
    }

    ghost function VisitorTarget(): map<string, Config>
      reads this, visitorConfig, visitorStore
    {
      Reload.Target(Reload.ModelOf(visitorConfig), Reload.ModelOf(visitorStore), start)
    }

    /** `reloadConfigFromSourcesLocked`. It fails, and changes nothing, exactly if there is nothing
        to load from. The sources are not changed; with a control, what runs is the from-scratch
        set, and what ran with the same configuration still runs. */
    method ReloadFromSources(up: set<string>, now: nat) returns (ok: bool)
      requires Paired() && SourcesValid()
      requires pm != null ==> pm.Valid()
      requires vm != null ==> vm.Valid() && Visitors.Inv(vm.Model(), now)
      modifies this`proxyCfgs, this`visitorCfgs, pm, vm
      ensures ok <==> CanLoad()
      ensures ok ==> Lists(proxyCfgs, ProxyTarget()) && Lists(visitorCfgs, VisitorTarget())
      ensures pm != null ==> pm.Valid()
      ensures pm != null && ok ==> pm.proxies == Updated(old(pm.proxies), now, proxyCfgs) && Configurations(pm.proxies) == ProxyTarget()
      ensures vm != null ==> vm.Valid()
      ensures vm != null && ok ==> vm.Model() == Visitors.Renewed(old(vm.Model()), visitorCfgs, up, now) && vm.cfgs == VisitorTarget()
      ensures !ok ==> proxyCfgs == old(proxyCfgs) && visitorCfgs == old(visitorCfgs)
      ensures !ok && pm != null ==> pm.proxies == old(pm.proxies)
      ensures !ok && vm != null ==> vm.Model() == old(vm.Model())
    {
      if !aggregated || (proxyConfig == null && proxyStore == null) {
        return false;
      }
      var ps := LoadValues(proxyConfig, proxyStore, start);
      var vs := LoadValues(visitorConfig, visitorStore, start);
      proxyCfgs, visitorCfgs := ps, vs;
      UpdateVisitors(up, now, VisitorTarget());
      UpdateProxies(now, ProxyTarget());
      return true;
    }

    method UpdateVisitors(up: set<string>, now: nat, ghost target: map<string, Config>)
      requires Lists(visitorCfgs, target)
      requires vm != null ==> vm.Valid() && Visitors.Inv(vm.Model(), now)
      modifies vm
      ensures vm != null ==> vm.Valid() && vm.Model() == Visitors.Renewed(old(vm.Model()), visitorCfgs, up, now) && vm.cfgs == target
    {
      if vm != null {
        Visitors.RenewMeetsTarget(vm.Model(), visitorCfgs, up, now, target);
        vm.UpdateAll(visitorCfgs, up, now);
      }
    }

    method UpdateProxies(now: nat, ghost target: map<string, Config>)
      requires Lists(proxyCfgs, target)
      requires pm != null ==> pm.Valid()
      modifies pm
      ensures pm != null ==> pm.Valid() && pm.proxies == Updated(old(pm.proxies), now, proxyCfgs) && Configurations(pm.proxies) == target
    {
      if pm != null {
        UpdateMeetsTarget(pm.proxies, now, proxyCfgs, target);
        pm.UpdateAll(proxyCfgs, now);
      }
    }

    static method LoadValues(config: Reload.Source?, store: Reload.Source?, start: seq<string>) returns (cs: seq<Config>)
      requires Reload.ValidOrMissing(config) && Reload.ValidOrMissing(store) && (config != null || store != null)
      ensures Lists(cs, Reload.Target(Reload.ModelOf(config), Reload.ModelOf(store), start)) && Reload.SortedByName(cs)
    {
      var ok, loaded, vals := Reload.LoadAll(config, store, start);
      cs := seq(|loaded|, i requires 0 <= i < |loaded| reads loaded => loaded[i].value);
      assert cs == vals;
    }
  }

  // ---------- reloads against logins ----------

  /** A control's proxies, and whether its worker has ended and closed them. */
  datatype Ctl = Ctl(running: map<string, Running>, ended: bool)

  /** A login that has read the stored list, made its control, and started what the list asks for. */
  datatype Login = Out | HasRead(cs: seq<Config>) | Begun(id: nat, cs: seq<Config>) | Ran(id: nat, cs: seq<Config>)

  /** A reload that has stored its list, and fetched the control to hand it to. */
  datatype Push = Idle | Stored | Fetched(id: nat)

  /** The stored list, all controls there ever were, and the one the service holds. */
  datatype State = State(cfgs: seq<Config>, ctls: seq<Ctl>, cur: Option<nat>, login: Login, push: Push)

  datatype Action =
    | StoreList(cs: seq<Config>)
    | Fetch
    | PushList
    | LoginRead
    | LoginFail
    | LoginBegin
    | LoginRun
    | LoginInstall
    | WorkerEnd(id: nat)

  /** What a list asks for. */
  ghost function Wanted(cs: seq<Config>): map<string, Config> {
    map n | n in NamesOf(cs) :: First(cs, n)
  }

  /** Reloads and logins are one at a time each; a login begins when the control held has ended. */
  ghost predicate Can(s: State, a: Action) {
    match a
    case StoreList(cs) => s.push.Idle? && Lists(cs, Wanted(cs))
    case Fetch => s.push.Stored?
    case PushList => s.push.Fetched? && s.push.id < |s.ctls|
    case LoginRead => s.login.Out? && (s.cur.Some? ==> s.cur.value < |s.ctls| && s.ctls[s.cur.value].ended)
    case LoginFail => s.login.HasRead?
    case LoginBegin => s.login.HasRead?
    case LoginRun => s.login.Begun? && s.login.id < |s.ctls|
    case LoginInstall => s.login.Ran? && (s.cur.Some? ==> s.cur.value < |s.ctls|)
    case WorkerEnd(id) => id < |s.ctls| && !s.ctls[id].ended
  }

  function WithRunning(s: State, id: nat, running: map<string, Running>): State
    requires id < |s.ctls|
  {
    s.(ctls := s.ctls[id := s.ctls[id].(running := running)])
  }

  ghost function Apply(s: State, a: Action, now: nat): State
    requires Can(s, a)
  {
    match a
    case StoreList(cs) => s.(cfgs := cs, push := Stored)
    case Fetch => s.(push := if s.cur.Some? then Fetched(s.cur.value) else Idle)
    case PushList => WithRunning(s, s.push.id, Updated(s.ctls[s.push.id].running, now, s.cfgs)).(push := Idle)
    case LoginRead => s.(login := HasRead(s.cfgs))
    case LoginFail => s.(login := Out)
    case LoginBegin => s.(ctls := s.ctls + [Ctl(map[], false)], login := Begun(|s.ctls|, s.login.cs))
    case LoginRun =>
      WithRunning(s, s.login.id, Updated(s.ctls[s.login.id].running, now, s.login.cs)).(login := Ran(s.login.id, s.login.cs))
    case LoginInstall =>
      (if s.cur.Some? then WithRunning(s, s.cur.value, map[]) else s).(cur := Some(s.login.id), login := Out)
    case WorkerEnd(id) => s.(ctls := s.ctls[id := Ctl(map[], true)])
  }

  ghost predicate CanRun(s: State, actions: seq<Action>, now: nat)
    decreases |actions|
  {
    actions != [] ==> Can(s, actions[0]) && CanRun(Apply(s, actions[0], now), actions[1..], now + 1)
  }

  ghost function After(s: State, actions: seq<Action>, now: nat): State
    requires CanRun(s, actions, now)
    decreases |actions|
  {
    if actions == [] then s else After(Apply(s, actions[0], now), actions[1..], now + 1)
  }

  const IDLE := State([], [], None, Out, Idle)

  // ---------- what every step keeps ----------

  /** Lists come from a merge, and a control that its login has started and nobody ended runs what
      the login read. */
  ghost predicate Sound(s: State) {
    && Lists(s.cfgs, Wanted(s.cfgs))
    && (!s.login.Out? ==> Lists(s.login.cs, Wanted(s.login.cs)))
    && (s.cur.Some? ==> s.cur.value < |s.ctls|)
    && (s.push.Fetched? ==> s.cur.Some? && s.push.id < |s.ctls|)
    && (s.login.Begun? || s.login.Ran? ==>
          && s.login.id < |s.ctls| && s.cur != Some(s.login.id) && s.push != Fetched(s.login.id)
          && (s.login.Begun? ==> s.ctls[s.login.id].running == map[])
          && (s.login.Ran? && !s.ctls[s.login.id].ended ==>
                Configurations(s.ctls[s.login.id].running) == Wanted(s.login.cs)))
  }

  lemma StepKeepsSound(s: State, a: Action, now: nat)
    requires Sound(s) && Can(s, a)
    ensures Sound(Apply(s, a, now))
  {
    if a.LoginRun? {
      UpdateMeetsTarget(map[], now, s.login.cs, Wanted(s.login.cs));
    }
  }

  lemma InitialIsSound()
    ensures Sound(IDLE)
  {
    assert NamesOf([]) == {};
  }

  lemma {:induction false} RunKeepsSound(s: State, actions: seq<Action>, now: nat)
    requires Sound(s) && CanRun(s, actions, now)
    ensures Sound(After(s, actions, now))
    decreases |actions|
  {
    if actions != [] {
      StepKeepsSound(s, actions[0], now);
      RunKeepsSound(Apply(s, actions[0], now), actions[1..], now + 1);
    }
  }

  /** A control that has not ended runs what the stored list asks for, unless a reload is about to
      hand it the list. */
  ghost predicate InStep(s: State) {
    s.cur.Some? && s.cur.value < |s.ctls| && !s.ctls[s.cur.value].ended
    && !s.push.Stored? && s.push != Fetched(s.cur.value) ==>
      Configurations(s.ctls[s.cur.value].running) == Wanted(s.cfgs)
  }

  /** A login that installs a control which has not ended has not been overtaken by a reload that
      will not come to this control. */
  ghost predicate Current(s: State, a: Action) {
    a == LoginInstall && s.login.Ran? && s.login.id < |s.ctls| && !s.ctls[s.login.id].ended && !s.push.Stored? ==>
      Wanted(s.login.cs) == Wanted(s.cfgs)
  }

  /** Any step keeps the control in step with the list, except exactly a login that installs an
      outdated list with no reload left to bring the new one. */
  lemma StepInStepIffCurrent(s: State, a: Action, now: nat)
    requires Sound(s) && InStep(s) && Can(s, a)
    ensures InStep(Apply(s, a, now)) <==> Current(s, a)
  {
    if a.PushList? {
      UpdateMeetsTarget(s.ctls[s.push.id].running, now, s.cfgs, Wanted(s.cfgs));
    }
  }

  ghost predicate AllCurrent(s: State, actions: seq<Action>, now: nat)
    requires CanRun(s, actions, now)
    decreases |actions|
  {
    actions != [] ==> Current(s, actions[0]) && AllCurrent(Apply(s, actions[0], now), actions[1..], now + 1)
  }

  /** So in every run without such a login. */
  lemma {:induction false} CurrentLoginsStayInStep(s: State, actions: seq<Action>, now: nat)
    requires Sound(s) && InStep(s) && CanRun(s, actions, now) && AllCurrent(s, actions, now)
    ensures InStep(After(s, actions, now))
    decreases |actions|
  {
    if actions != [] {
      StepKeepsSound(s, actions[0], now);
      StepInStepIffCurrent(s, actions[0], now);
      CurrentLoginsStayInStep(Apply(s, actions[0], now), actions[1..], now + 1);
    }
  }

  /** However far apart they were, a reload that hands its list to the control held brings it back in
      step; on a control that has ended it starts everything again, without a connection. */
  lemma PushRepairs(actions: seq<Action>, id: nat)
    requires CanRun(IDLE, actions, 0) && After(IDLE, actions, 0).push == Fetched(id)
    ensures var s := After(IDLE, actions, 0);
            && Can(s, PushList)
            && var t := Apply(s, PushList, |actions|);
               && Configurations(t.ctls[id].running) == Wanted(t.cfgs) && t.ctls[id].ended == s.ctls[id].ended
               && (s.cur == Some(id) ==> InStep(t))
  {
    InitialIsSound();
    RunKeepsSound(IDLE, actions, 0);
    var s := After(IDLE, actions, 0);
    UpdateMeetsTarget(s.ctls[id].running, |actions|, s.cfgs, Wanted(s.cfgs));
  }

  // ---------- controls that are no longer held ----------

  /** Only the control held, and the one a login is about to install, run anything. */
  ghost predicate NoOrphans(s: State) {
    forall id :: 0 <= id < |s.ctls| && s.cur != Some(id) && !((s.login.Begun? || s.login.Ran?) && s.login.id == id) ==>
      s.ctls[id].running == map[]
  }

  lemma PushStartsIff(running: map<string, Running>, now: nat, cs: seq<Config>)
    ensures Updated(running, now, cs) == map[] <==> cs == []
  {
    if cs == [] {
      assert NamesOf(cs) == {};
    } else {
      assert cs[0] in cs;
      assert cs[0].name in Updated(running, now, cs);
    }
  }

  /** Installing a control stops what the one before it was running, so proxies are left behind
      exactly by a reload that fetched the control before and hands it its list afterwards. */
  lemma StepNoOrphansIff(s: State, a: Action, now: nat)
    requires Sound(s) && NoOrphans(s) && Can(s, a)
    ensures NoOrphans(Apply(s, a, now)) <==> !(a == PushList && s.cur != Some(s.push.id) && s.cfgs != [])
  {
    if a.PushList? {
      PushStartsIff(s.ctls[s.push.id].running, now, s.cfgs);
      PushNoOrphansIff(s, Apply(s, a, now), s.push.id, Updated(s.ctls[s.push.id].running, now, s.cfgs));
    } else {
      OthersNoOrphans(s, a, now);
    }
  }

  lemma PushNoOrphansIff(s: State, t: State, id: nat, running: map<string, Running>)
    requires Sound(s) && NoOrphans(s) && s.push == Fetched(id) && t == WithRunning(s, id, running).(push := Idle)
    ensures NoOrphans(t) <==> s.cur == Some(id) || running == map[]
  {
    assert t.ctls[id].running == running;
  }

  lemma OthersNoOrphans(s: State, a: Action, now: nat)
    requires Sound(s) && NoOrphans(s) && Can(s, a) && !a.PushList?
    ensures NoOrphans(Apply(s, a, now))
  {
    var t := Apply(s, a, now);
    if a.LoginBegin? {
      assert forall id :: 0 <= id < |s.ctls| ==> t.ctls[id] == s.ctls[id];
    }
  }

  /** Nobody stops them: a control that is not held, has ended, and that no reload has fetched, never
      changes again. */
  lemma {:induction false} OrphansStay(s: State, actions: seq<Action>, now: nat, id: nat)
    requires Sound(s) && CanRun(s, actions, now) && id < |s.ctls| && s.ctls[id].ended
    requires s.cur != Some(id) && s.push != Fetched(id) && !((s.login.Begun? || s.login.Ran?) && s.login.id == id)
    ensures var t := After(s, actions, now); id < |t.ctls| && t.ctls[id] == s.ctls[id]
    decreases |actions|
  {
    if actions != [] {
      StepKeepsSound(s, actions[0], now);
      OrphansStay(Apply(s, actions[0], now), actions[1..], now + 1, id);
    }
  }

  // ---------- runs in which something is lost ----------

  lemma OneWanted(c: Config)
    ensures Wanted([c]) == map[c.name := c] && Lists([c], Wanted([c]))
  {
    assert c in [c];
    assert NamesOf([c]) == {c.name};
    assert First([c], c.name) == c;
  }

  lemma NothingWanted()
    ensures Lists([], Wanted([])) && Wanted([]) == map[]
    ensures forall now: nat :: Updated(map[], now, []) == map[]
  {
    assert NamesOf([]) == {};
  }

  lemma StartedOne(c: Config, now: nat)
    ensures Updated(map[], now, [c]) == map[c.name := Running(c, now)]
  {
    OneWanted(c);
    UpdateMeetsTarget(map[], now, [c], Wanted([c]));
    assert NamesOf([c]) == {c.name};
  }

  ghost predicate LeadsTo(actions: seq<Action>, s: State, now: nat) {
    CanRun(IDLE, actions, 0) && |actions| == now && s == After(IDLE, actions, 0)
  }

  ghost predicate Reached(s: State, now: nat) {
    exists actions :: LeadsTo(actions, s, now)
  }

  lemma RunOne(s: State, a: Action, now: nat)
    requires Can(s, a)
    ensures CanRun(s, [a], now) && After(s, [a], now) == Apply(s, a, now)
  {
    assert [a][1..] == [];
    assert CanRun(Apply(s, a, now), [], now + 1);
  }

  lemma {:induction false} RunExtended(s: State, actions: seq<Action>, now: nat, a: Action)
    requires CanRun(s, actions, now) && Can(After(s, actions, now), a)
    ensures CanRun(s, actions + [a], now)
    ensures After(s, actions + [a], now) == Apply(After(s, actions, now), a, now + |actions|)
    decreases |actions|
  {
    if actions == [] {
      RunOne(s, a, now);
      assert actions + [a] == [a];
    } else {
      RunExtended(Apply(s, actions[0], now), actions[1..], now + 1, a);
      assert (actions + [a])[0] == actions[0] && (actions + [a])[1..] == actions[1..] + [a];
    }
  }

  lemma Then(s: State, a: Action, now: nat)
    requires Reached(s, now) && Can(s, a)
    ensures Reached(Apply(s, a, now), now + 1)
  {
    var actions :| LeadsTo(actions, s, now);
    LeadsOn(actions, s, a, now);
  }

  lemma LeadsOn(actions: seq<Action>, s: State, a: Action, now: nat)
    requires LeadsTo(actions, s, now) && Can(s, a)
    ensures LeadsTo(actions + [a], Apply(s, a, now), now + 1)
  {
    RunExtended(IDLE, actions, 0, a);
  }

  lemma AtFirst()
    ensures Reached(IDLE, 0)
  {
    assert LeadsTo([], IDLE, 0);
  }

  /** A reload that comes between a login's reading of the list and its installing of the control is
      lost on that control, which has not ended. */
  lemma OvertakenLogin(c: Config) returns (s: State)
    ensures Reached(s, 6) && !InStep(s)
    ensures s == State([c], [Ctl(map[], false)], Some(0), Out, Idle)
  {
    OneWanted(c);
    AtFirst();
    s := IDLE;
    Then(s, LoginRead, 0); s := Apply(s, LoginRead, 0);
    Then(s, StoreList([c]), 1); s := Apply(s, StoreList([c]), 1);
    Then(s, Fetch, 2); s := Apply(s, Fetch, 2);
    assert s == State([c], [], None, HasRead([]), Idle);
    s := FinishesLogin(s, c);
    assert Wanted(s.cfgs) == map[c.name := c] && c.name !in Configurations(map[]);
  }

  lemma FinishesLogin(s: State, c: Config) returns (t: State)
    requires Reached(s, 3) && s == State([c], [], None, HasRead([]), Idle)
    ensures Reached(t, 6) && t == State([c], [Ctl(map[], false)], Some(0), Out, Idle)
  {
    NothingWanted();
    Then(s, LoginBegin, 3); t := Apply(s, LoginBegin, 3);
    assert t == State([c], [Ctl(map[], false)], None, Begun(0, []), Idle);
    Then(t, LoginRun, 4); t := Apply(t, LoginRun, 4);
    assert t == State([c], [Ctl(map[], false)], None, Ran(0, []), Idle);
    Then(t, LoginInstall, 5); t := Apply(t, LoginInstall, 5);
  }

  lemma FirstControl() returns (s: State)
    ensures Reached(s, 4) && s == State([], [Ctl(map[], false)], Some(0), Out, Idle)
  {
    NothingWanted();
    AtFirst();
    s := IDLE;
    Then(s, LoginRead, 0); s := Apply(s, LoginRead, 0);
    Then(s, LoginBegin, 1); s := Apply(s, LoginBegin, 1);
    assert s == State([], [Ctl(map[], false)], None, Begun(0, []), Idle);
    Then(s, LoginRun, 2); s := Apply(s, LoginRun, 2);
    assert s == State([], [Ctl(map[], false)], None, Ran(0, []), Idle);
    Then(s, LoginInstall, 3); s := Apply(s, LoginInstall, 3);
  }

  /** The first control has ended, a reload has fetched it, and a login has put another one in its
      place. */
  lemma ReplacedWhileFetched(c: Config) returns (s: State)
    ensures Reached(s, 11)
    ensures s == State([c], [Ctl(map[], true), Ctl(map[c.name := Running(c, 8)], false)], Some(1), Out, Fetched(0))
  {
    OneWanted(c);
    s := FirstControl();
    Then(s, WorkerEnd(0), 4); s := Apply(s, WorkerEnd(0), 4);
    assert s == State([], [Ctl(map[], true)], Some(0), Out, Idle);
    Then(s, StoreList([c]), 5); s := Apply(s, StoreList([c]), 5);
    Then(s, LoginRead, 6); s := Apply(s, LoginRead, 6);
    assert s == State([c], [Ctl(map[], true)], Some(0), HasRead([c]), Stored);
    s := LoginWhileFetching(s, c);
  }

  lemma LoginWhileFetching(s: State, c: Config) returns (t: State)
    requires Reached(s, 7) && s == State([c], [Ctl(map[], true)], Some(0), HasRead([c]), Stored)
    ensures Reached(t, 11)
    ensures t == State([c], [Ctl(map[], true), Ctl(map[c.name := Running(c, 8)], false)], Some(1), Out, Fetched(0))
  {
    StartedOne(c, 8);
    Then(s, LoginBegin, 7); t := Apply(s, LoginBegin, 7);
    Then(t, LoginRun, 8); t := Apply(t, LoginRun, 8);
    Then(t, Fetch, 9); t := Apply(t, Fetch, 9);
    Then(t, LoginInstall, 10); t := Apply(t, LoginInstall, 10);
  }

  /** Then the reload hands its list to the first control, and its proxy runs there for ever beside
      the same proxy of the second one. */
  lemma LeftBehind(c: Config) returns (s: State)
    ensures Reached(s, 12)
    ensures s.cur == Some(1) && |s.ctls| == 2 && s.ctls[0] == Ctl(map[c.name := Running(c, 11)], true)
    ensures !NoOrphans(s)
    ensures forall actions :: CanRun(s, actions, 12) ==>
              var t := After(s, actions, 12); |t.ctls| >= 2 && t.ctls[0] == s.ctls[0]
  {
    s := ReplacedWhileFetched(c);
    StartedOne(c, 11);
    Then(s, PushList, 11);
    s := Apply(s, PushList, 11);
    assert c.name in s.ctls[0].running;
    OneWanted(c);
    assert Sound(s);
    forall actions | CanRun(s, actions, 12) ensures var t := After(s, actions, 12); |t.ctls| >= 2 && t.ctls[0] == s.ctls[0] {
      OrphansStay(s, actions, 12, 0);
      CountGrows(s, actions, 12);
    }
  }

  lemma {:induction false} CountGrows(s: State, actions: seq<Action>, now: nat)
    requires CanRun(s, actions, now)
    ensures |After(s, actions, now).ctls| >= |s.ctls|
    decreases |actions|
  {
    if actions != [] {
      CountGrows(Apply(s, actions[0], now), actions[1..], now + 1);
    }
  }
}
