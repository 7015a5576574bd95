/** TCP proxies, load-balancing groups and ports as one state machine
    (server/group/registry.go, base.go, tcp.go, listener.go, server/proxy/tcp.go).

    Each proxy life runs its own goroutine; a step is one critical section or one effect
    while a group's mutex is held. A step that is not enabled leaves the state as it is, so
    every sequence of steps is a run. The port allocator is the one of `Ports`; its probes
    are honest, as `Ports.GrantsHeldPortIff` shows they have to be.
 */
module Groups {
  import opened Wrappers
  import opened Sequences
  import Ports

  type Pid = nat  // a proxy life; also its listener inside a group
  type Gid = nat  // a group object

  datatype Request = Request(name: string, group: string, groupKey: string, addr: string, port: int)

  /** Where a proxy life is. */
  datatype Stage =
    // in a group
    | Seeking                       // about to look its group up
    | Found(g: Gid)                 // has the group object, does not hold its mutex
    | Holding(g: Gid)               // mutex held, group current and empty: about to get a port
    | Ported(g: Gid, p: int)        // mutex held, port acquired: about to listen
    | Member(g: Gid)
    | Leaving(g: Gid)               // its listener's once-only close has begun
    | LastOut(g: Gid)               // mutex held, took the last listener out: about to release
    | Unlisting(g: Gid)             // mutex held, port released: about to leave the registry
    // on its own
    | Wanting
    | HasPort(p: int)
    | Serving(p: int)
    | Ended

  datatype Proxy = Proxy(req: Request, stage: Stage)

  datatype Group = Group(
    home: string,          // the name it was created under
    params: Option<Request>, // group, key, address and port of the listen cycle
    realPort: int,
    lns: seq<Pid>,
    mu: Option<Pid>,
    opens: nat,            // listen cycles begun
    chanCloses: nat,       // times acceptCh was closed
    listenerCloses: nat,   // times the real listener was closed
    removed: bool)

  /** Who has a port; an auxiliary variable that the code does not keep. */
  datatype Owner = ByProxy(i: Pid) | ByGroup(g: Gid)

  datatype State = State(
    ports: Ports.State,
    owner: map<int, Owner>,
    registry: map<string, Gid>,
    groups: seq<Group>,
    proxies: seq<Proxy>)

  function Init(allowed: set<int>): State {
    State(Ports.Initial(allowed), map[], map[], [], [])
  }

  datatype Action =
    | GetOrCreate
    | Enter
    | AcquireForGroup(now: int, order: seq<int>, probe: Ports.Probe)
    | ListenForGroup(ok: bool, now: int)
    | BeginClose
    | Leave
    | ReleaseForGroup(now: int)
    | RemoveIf
    | AcquireAlone(now: int, order: seq<int>, probe: Ports.Probe)
    | ListenAlone(ok: bool, now: int)
    | CloseAlone(now: int)

  datatype Step =
    | Spawn(req: Request)
    | Clean(now: int)
    | Act(i: Pid, act: Action)

  predicate Free(s: State, g: Gid) {
    g < |s.groups| && s.groups[g].mu.None?
  }

  predicate Current(s: State, key: string, g: Gid) {
    key in s.registry && s.registry[key] == g
  }

  ghost predicate Fair(s: State, order: seq<int>, probe: Ports.Probe) {
    Ports.Visits(order, s.ports) && Ports.Honest(probe, s.ports)
  }

  ghost predicate CanAct(s: State, i: Pid, act: Action) {
    i < |s.proxies| &&
    var st := s.proxies[i].stage;
    match act
    case GetOrCreate => st.Seeking?
    case Enter => st.Found? && Free(s, st.g)
    case AcquireForGroup(_, order, probe) => st.Holding? && st.g < |s.groups| && Fair(s, order, probe)
    case ListenForGroup(_, _) => st.Ported? && st.g < |s.groups|
    case BeginClose => st.Member?
    case Leave => st.Leaving? && Free(s, st.g)
    case ReleaseForGroup(_) => st.LastOut? && st.g < |s.groups|
    case RemoveIf => st.Unlisting? && st.g < |s.groups|
    case AcquireAlone(_, order, probe) => st.Wanting? && Fair(s, order, probe)
    case ListenAlone(_, _) => st.HasPort?
    case CloseAlone(_) => st.Serving?
  }

  function WithStage(s: State, i: Pid, st: Stage): State
    requires i < |s.proxies|
  {
    s.(proxies := s.proxies[i := s.proxies[i].(stage := st)])
  }

  function WithGroup(s: State, g: Gid, gr: Group): State
    requires g < |s.groups|
  {
    s.(groups := s.groups[g := gr])
  }

  /** The name stored by the listen cycle; empty before the first one. */
  function GroupName(gr: Group): string {
    if gr.params.Some? then gr.params.value.group else ""
  }

  predicate Compatible(gr: Group, req: Request) {
    gr.params.Some? &&
    var p := gr.params.value;
    p.group == req.group && p.addr == req.addr && p.port == req.port && p.groupKey == req.groupKey
  }

  ghost function Acted(s: State, i: Pid, act: Action): State
    requires CanAct(s, i, act)
  {
    var st := s.proxies[i].stage;
    var req := s.proxies[i].req;
    match act
    case GetOrCreate =>
      if req.group in s.registry then WithStage(s, i, Found(s.registry[req.group]))
      else
        var g := |s.groups|;
        WithStage(s, i, Found(g))
        .(groups := s.groups + [Group(req.group, None, 0, [], None, 0, 0, 0, false)],
          registry := s.registry[req.group := g])
    case Enter =>
      var gr := s.groups[st.g];
      if !Current(s, req.group, st.g) then WithStage(s, i, Seeking)
      else if gr.lns == [] then WithStage(WithGroup(s, st.g, gr.(mu := Some(i))), i, Holding(st.g))
      else if Compatible(gr, req) then WithStage(WithGroup(s, st.g, gr.(lns := gr.lns + [i])), i, Member(st.g))
      else WithStage(s, i, Ended)
    case AcquireForGroup(now, order, probe) =>
      var (ports, o) := Ports.Acquired(s.ports, req.name, req.port, now, order, probe);
      if o.Ok? then WithStage(s.(ports := ports, owner := s.owner[o.port := ByProxy(i)]), i, Ported(st.g, o.port))
      else WithStage(WithGroup(s.(ports := ports), st.g, s.groups[st.g].(mu := None)), i, Ended)
    case ListenForGroup(ok, now) =>
      var gr := s.groups[st.g];
      if ok then
        WithStage(WithGroup(s.(owner := s.owner[st.p := ByGroup(st.g)]), st.g,
                            gr.(params := Some(req), realPort := st.p, lns := [i], mu := None, opens := gr.opens + 1)),
                  i, Member(st.g))
      else
        WithStage(WithGroup(s.(ports := Ports.Released(s.ports, st.p, now), owner := s.owner - {st.p}),
                            st.g, gr.(mu := None)), i, Ended)
    case BeginClose => WithStage(s, i, Leaving(st.g))
    case Leave =>
      var gr := s.groups[st.g];
      var lns := Without(gr.lns, i);
      if lns != [] then WithStage(WithGroup(s, st.g, gr.(lns := lns)), i, Ended)
      else WithStage(WithGroup(s, st.g, gr.(lns := [], mu := Some(i), chanCloses := gr.chanCloses + 1,
                                            listenerCloses := gr.listenerCloses + 1)), i, LastOut(st.g))
    case ReleaseForGroup(now) =>
      var p := s.groups[st.g].realPort;
      WithStage(s.(ports := Ports.Released(s.ports, p, now), owner := s.owner - {p}), i, Unlisting(st.g))
    case RemoveIf =>
      var gr := s.groups[st.g];
      WithStage(WithGroup(s, st.g, gr.(mu := None, removed := true)), i, Ended)
      .(registry := if Current(s, GroupName(gr), st.g) then s.registry - {GroupName(gr)} else s.registry)
    case AcquireAlone(now, order, probe) =>
      var (ports, o) := Ports.Acquired(s.ports, req.name, req.port, now, order, probe);
      if o.Ok? then WithStage(s.(ports := ports, owner := s.owner[o.port := ByProxy(i)]), i, HasPort(o.port))
      else WithStage(s.(ports := ports), i, Ended)
    case ListenAlone(ok, now) =>
      if ok then WithStage(s, i, Serving(st.p))
      else WithStage(s.(ports := Ports.Released(s.ports, st.p, now), owner := s.owner - {st.p}), i, Ended)
    case CloseAlone(now) =>
      WithStage(s.(ports := Ports.Released(s.ports, st.p, now), owner := s.owner - {st.p}), i, Ended)
  }

  ghost function Apply(s: State, step: Step): State {
    match step
    case Spawn(req) =>
      s.(proxies := s.proxies + [Proxy(req, if req.group == "" then Wanting else Seeking)])
    case Clean(now) => s.(ports := Ports.Cleaned(s.ports, now))
    case Act(i, act) => if CanAct(s, i, act) then Acted(s, i, act) else s
  }

  ghost function Exec(s: State, steps: seq<Step>): State
    decreases |steps|
  {
    if steps == [] then s else Exec(Apply(s, steps[0]), steps[1..])
  }

  // ---------- what every step keeps ----------

  predicate LocksGroup(st: Stage, g: Gid) {
    (st.Holding? || st.Ported? || st.LastOut? || st.Unlisting?) && st.g == g
  }

  predicate InGroup(st: Stage, g: Gid) {
    (st.Member? || st.Leaving?) && st.g == g
  }

  /** The port is in the group's hands: while it has members, and until its last member has
      released it. */
  predicate HasPortNow(proxies: seq<Proxy>, gr: Group) {
    gr.lns != [] ||
    (gr.mu.Some? && gr.mu.value < |proxies| && proxies[gr.mu.value].stage.LastOut?)
  }

  predicate EndingCycle(proxies: seq<Proxy>, gr: Group) {
    gr.mu.Some? && gr.mu.value < |proxies|
    && (proxies[gr.mu.value].stage.LastOut? || proxies[gr.mu.value].stage.Unlisting?)
  }

  ghost predicate GroupOk(registry: map<string, Gid>, proxies: seq<Proxy>, gr: Group, g: Gid) {
    && (!gr.removed <==> gr.home in registry && registry[gr.home] == g)
    && (gr.mu.Some? ==> gr.mu.value < |proxies| && LocksGroup(proxies[gr.mu.value].stage, g) && gr.lns == [] && !gr.removed)
    && (gr.removed ==> gr.lns == [])
    && Distinct(gr.lns)
    && (forall i :: i in gr.lns ==> i < |proxies| && InGroup(proxies[i].stage, g))
    && gr.chanCloses == gr.listenerCloses
    && gr.opens == gr.chanCloses + (if gr.lns != [] then 1 else 0)
    && gr.opens <= 1
    && (gr.opens == 1 && gr.lns == [] ==> gr.removed || EndingCycle(proxies, gr))
    && (gr.opens == 0 ==> !gr.removed && !EndingCycle(proxies, gr))
    && (gr.opens == 1 ==> gr.params.Some? && gr.params.value.group == gr.home)
  }

  ghost predicate ProxyOk(groups: seq<Group>, owner: map<int, Owner>, px: Proxy, i: Pid) {
    match px.stage
    case Found(g) => g < |groups| && groups[g].home == px.req.group
    case Holding(g) => g < |groups| && groups[g].home == px.req.group && groups[g].mu == Some(i) && groups[g].opens == 0
    case Ported(g, p) =>
      && g < |groups| && groups[g].home == px.req.group && groups[g].mu == Some(i) && groups[g].opens == 0
      && p in owner && owner[p] == ByProxy(i)
    case Member(g) => g < |groups| && i in groups[g].lns
    case Leaving(g) => g < |groups| && i in groups[g].lns
    case LastOut(g) => g < |groups| && groups[g].mu == Some(i) && groups[g].opens == 1
    case Unlisting(g) => g < |groups| && groups[g].mu == Some(i) && groups[g].opens == 1
    case HasPort(p) => p in owner && owner[p] == ByProxy(i)
    case Serving(p) => p in owner && owner[p] == ByProxy(i)
    case _ => true
  }

  function OwnPort(st: Stage): Option<int> {
    match st
    case Ported(_, p) => Some(p)
    case HasPort(p) => Some(p)
    case Serving(p) => Some(p)
    case _ => None
  }

  ghost predicate OwnerOk(groups: seq<Group>, proxies: seq<Proxy>, p: int, o: Owner) {
    match o
    case ByProxy(i) => i < |proxies| && OwnPort(proxies[i].stage) == Some(p)
    case ByGroup(g) => g < |groups| && HasPortNow(proxies, groups[g]) && groups[g].realPort == p
  }

  ghost predicate GroupPortOk(owner: map<int, Owner>, proxies: seq<Proxy>, gr: Group, g: Gid) {
    HasPortNow(proxies, gr) ==> gr.realPort in owner && owner[gr.realPort] == ByGroup(g)
  }

  ghost predicate RegistryOk(s: State) {
    forall k :: k in s.registry ==> s.registry[k] < |s.groups| && s.groups[s.registry[k]].home == k
  }

  ghost predicate GroupsOk(s: State) {
    forall g: Gid {:trigger GroupOk(s.registry, s.proxies, s.groups[g], g)} ::
      g < |s.groups| ==> GroupOk(s.registry, s.proxies, s.groups[g], g)
  }

  ghost predicate ProxiesOk(s: State) {
    forall i: Pid {:trigger ProxyOk(s.groups, s.owner, s.proxies[i], i)} ::
      i < |s.proxies| ==> ProxyOk(s.groups, s.owner, s.proxies[i], i)
  }

  ghost predicate OwnersOk(s: State) {
    && s.owner.Keys == s.ports.used.Keys
    && (forall p {:trigger OwnerOk(s.groups, s.proxies, p, s.owner[p])} ::
          p in s.owner ==> OwnerOk(s.groups, s.proxies, p, s.owner[p]))
    && (forall g: Gid {:trigger GroupPortOk(s.owner, s.proxies, s.groups[g], g)} ::
          g < |s.groups| ==> GroupPortOk(s.owner, s.proxies, s.groups[g], g))
  }

  ghost predicate Inv(s: State, allowed: set<int>) {
    && Ports.Partition(s.ports, allowed)
    && RegistryOk(s) && GroupsOk(s) && ProxiesOk(s) && OwnersOk(s)
  }

  /** What a step of proxy `i` on group `g` may change: that proxy, that group, and the
      ports the two own. For a proxy outside any group, `g` is past the last group. */
  ghost predicate Touches(s: State, t: State, i: Pid, g: Gid) {
    && i < |s.proxies| == |t.proxies| && |s.groups| == |t.groups|
    && (forall j :: 0 <= j < |s.proxies| && j != i ==> t.proxies[j] == s.proxies[j])
    && (forall h :: 0 <= h < |s.groups| && h != g ==> t.groups[h] == s.groups[h])
    && (forall h: Gid :: LocksGroup(s.proxies[i].stage, h) || InGroup(s.proxies[i].stage, h) ==> h == g)
    && (g < |s.groups| ==>
          && t.groups[g].home == s.groups[g].home
          && (forall j :: j != i && j in s.groups[g].lns ==> j in t.groups[g].lns)
          && (s.groups[g].mu.Some? && s.groups[g].mu.value != i ==> t.groups[g] == s.groups[g]))
    && (forall k :: k in s.registry && s.registry[k] != g ==> k in t.registry && t.registry[k] == s.registry[k])
    && (forall k :: k in t.registry && t.registry[k] != g ==> k in s.registry && s.registry[k] == t.registry[k])
    && (forall p :: p in s.owner && s.owner[p] != ByProxy(i) && s.owner[p] != ByGroup(g) ==>
          p in t.owner && t.owner[p] == s.owner[p])
    && (forall p :: p in t.owner && t.owner[p] != ByProxy(i) && t.owner[p] != ByGroup(g) ==>
          p in s.owner && s.owner[p] == t.owner[p])
  }

  lemma OthersKeepProxyOk(s: State, t: State, i: Pid, g: Gid, j: Pid)
    requires ProxiesOk(s) && Touches(s, t, i, g) && j < |s.proxies| && j != i
    ensures ProxyOk(t.groups, t.owner, t.proxies[j], j)
  {
    assert ProxyOk(s.groups, s.owner, s.proxies[j], j);
  }

  lemma OthersKeepGroupOk(s: State, t: State, i: Pid, g: Gid, h: Gid)
    requires GroupsOk(s) && OwnersOk(s) && Touches(s, t, i, g) && h < |s.groups| && h != g
    ensures GroupOk(t.registry, t.proxies, t.groups[h], h)
    ensures GroupPortOk(t.owner, t.proxies, t.groups[h], h)
  {
    assert GroupOk(s.registry, s.proxies, s.groups[h], h);
    assert GroupPortOk(s.owner, s.proxies, s.groups[h], h);
  }

  lemma OthersKeepOwnerOk(s: State, t: State, i: Pid, g: Gid, p: int)
    requires GroupsOk(s) && OwnersOk(s) && Touches(s, t, i, g)
    requires p in t.owner && t.owner[p] != ByProxy(i) && t.owner[p] != ByGroup(g)
    ensures OwnerOk(t.groups, t.proxies, p, t.owner[p])
  {
    assert OwnerOk(s.groups, s.proxies, p, s.owner[p]);
    if s.owner[p].ByGroup? {
      assert GroupOk(s.registry, s.proxies, s.groups[s.owner[p].g], s.owner[p].g);
    }
  }

  /** With everybody else carried over, it remains to look at the proxy, its group and the
      ports of the two. */
  lemma Assemble(s: State, t: State, i: Pid, g: Gid, allowed: set<int>)
    requires Inv(s, allowed) && Touches(s, t, i, g)
    requires Ports.Partition(t.ports, allowed) && t.owner.Keys == t.ports.used.Keys
    requires RegistryOk(t)
    requires ProxyOk(t.groups, t.owner, t.proxies[i], i)
    requires g < |t.groups| ==> GroupOk(t.registry, t.proxies, t.groups[g], g)
                                && GroupPortOk(t.owner, t.proxies, t.groups[g], g)
    requires forall p :: p in t.owner && (t.owner[p] == ByProxy(i) || t.owner[p] == ByGroup(g)) ==>
                           OwnerOk(t.groups, t.proxies, p, t.owner[p])
    ensures Inv(t, allowed)
  {
    forall j: Pid | j < |t.proxies| ensures ProxyOk(t.groups, t.owner, t.proxies[j], j) {
      if j != i { OthersKeepProxyOk(s, t, i, g, j); }
    }
    forall h: Gid | h < |t.groups|
      ensures GroupOk(t.registry, t.proxies, t.groups[h], h) && GroupPortOk(t.owner, t.proxies, t.groups[h], h)
    {
      if h != g { OthersKeepGroupOk(s, t, i, g, h); }
    }
    forall p | p in t.owner ensures OwnerOk(t.groups, t.proxies, p, t.owner[p]) {
      if t.owner[p] != ByProxy(i) && t.owner[p] != ByGroup(g) { OthersKeepOwnerOk(s, t, i, g, p); }
    }
  }

  /** What is known of proxy `i`, of group `g` and of the ports before a step. */
  ghost predicate Given(s: State, i: Pid, g: Gid, allowed: set<int>) {
    && i < |s.proxies|
    && Ports.Partition(s.ports, allowed) && s.owner.Keys == s.ports.used.Keys && RegistryOk(s)
    && ProxyOk(s.groups, s.owner, s.proxies[i], i)
    && (g < |s.groups| ==> GroupOk(s.registry, s.proxies, s.groups[g], g)
                           && GroupPortOk(s.owner, s.proxies, s.groups[g], g))
    && (forall p :: p in s.owner ==> OwnerOk(s.groups, s.proxies, p, s.owner[p]))
  }

  /** What has to be shown of them after it. */
  ghost predicate Local(s: State, t: State, i: Pid, g: Gid, allowed: set<int>) {
    Touches(s, t, i, g) && Rest(t, i, g, allowed)
  }

  ghost predicate Rest(t: State, i: Pid, g: Gid, allowed: set<int>) {
    && i < |t.proxies|
    && Ports.Partition(t.ports, allowed) && t.owner.Keys == t.ports.used.Keys && RegistryOk(t)
    && ProxyOk(t.groups, t.owner, t.proxies[i], i)
    && (g < |t.groups| ==> GroupOk(t.registry, t.proxies, t.groups[g], g)
                           && GroupPortOk(t.owner, t.proxies, t.groups[g], g))
    && (forall p :: p in t.owner && (t.owner[p] == ByProxy(i) || t.owner[p] == ByGroup(g)) ==>
          OwnerOk(t.groups, t.proxies, p, t.owner[p]))
  }

  /** A step that leaves the registry alone and the owners of everybody else's ports. */
  lemma TouchesBy(s: State, t: State, i: Pid, g: Gid, st: Stage, gr: Group)
    requires i < |s.proxies| && g < |s.groups| && t.registry == s.registry
    requires t.proxies == s.proxies[i := s.proxies[i].(stage := st)] && t.groups == s.groups[g := gr]
    requires forall h: Gid :: LocksGroup(s.proxies[i].stage, h) || InGroup(s.proxies[i].stage, h) ==> h == g
    requires gr.home == s.groups[g].home && forall j :: j != i && j in s.groups[g].lns ==> j in gr.lns
    requires s.groups[g].mu.Some? && s.groups[g].mu.value != i ==> gr == s.groups[g]
    requires t.owner == s.owner
             || exists p :: (p in s.owner ==> s.owner[p] == ByProxy(i) || s.owner[p] == ByGroup(g))
                            && (t.owner == s.owner - {p} || t.owner == s.owner[p := ByProxy(i)] || t.owner == s.owner[p := ByGroup(g)])
    ensures Touches(s, t, i, g)
  {
  }

  lemma InvGives(s: State, i: Pid, g: Gid, allowed: set<int>)
    requires Inv(s, allowed) && i < |s.proxies|
    ensures Given(s, i, g, allowed)
  {
  }

  lemma StaleEnter(s: State, i: Pid, allowed: set<int>)
    requires CanAct(s, i, Enter) && Given(s, i, s.proxies[i].stage.g, allowed)
    requires !Current(s, s.proxies[i].req.group, s.proxies[i].stage.g)
    ensures Local(s, Acted(s, i, Enter), i, s.proxies[i].stage.g, allowed)
  {
  }

  lemma FirstEnter(s: State, i: Pid, allowed: set<int>)
    requires CanAct(s, i, Enter) && Given(s, i, s.proxies[i].stage.g, allowed)
    requires Current(s, s.proxies[i].req.group, s.proxies[i].stage.g) && s.groups[s.proxies[i].stage.g].lns == []
    ensures Local(s, Acted(s, i, Enter), i, s.proxies[i].stage.g, allowed)
  {
  }

  lemma LaterEnter(s: State, i: Pid, allowed: set<int>)
    requires CanAct(s, i, Enter) && Given(s, i, s.proxies[i].stage.g, allowed)
    requires Current(s, s.proxies[i].req.group, s.proxies[i].stage.g) && s.groups[s.proxies[i].stage.g].lns != []
    ensures Local(s, Acted(s, i, Enter), i, s.proxies[i].stage.g, allowed)
  {
    if Compatible(s.groups[s.proxies[i].stage.g], s.proxies[i].req) {
      JoiningEnter(s, i, allowed);
    }
  }

  lemma JoiningEnter(s: State, i: Pid, allowed: set<int>)
    requires CanAct(s, i, Enter) && Given(s, i, s.proxies[i].stage.g, allowed)
    requires Current(s, s.proxies[i].req.group, s.proxies[i].stage.g) && s.groups[s.proxies[i].stage.g].lns != []
    requires Compatible(s.groups[s.proxies[i].stage.g], s.proxies[i].req)
    ensures Local(s, Acted(s, i, Enter), i, s.proxies[i].stage.g, allowed)
  {
    Joins(s, Acted(s, i, Enter), i, s.proxies[i].stage.g, allowed);
  }

  lemma Joins(s: State, t: State, i: Pid, g: Gid, allowed: set<int>)
    requires Given(s, i, g, allowed) && s.proxies[i].stage == Found(g) && s.groups[g].lns != [] && s.groups[g].mu.None?
    requires Current(s, s.proxies[i].req.group, g)
    requires t.groups == s.groups[g := s.groups[g].(lns := s.groups[g].lns + [i])]
    requires t.proxies == s.proxies[i := s.proxies[i].(stage := Member(g))]
    requires t.ports == s.ports && t.owner == s.owner && t.registry == s.registry
    ensures Local(s, t, i, g, allowed)
  {
    assert i !in s.groups[g].lns;
    AppendNew(s.groups[g].lns, i);
    assert forall j :: j in t.groups[g].lns <==> j == i || j in s.groups[g].lns;
    assert GroupOk(t.registry, t.proxies, t.groups[g], g);
  }

  lemma GroupAcquire(s: State, i: Pid, act: Action, allowed: set<int>)
    requires 0 !in allowed && act.AcquireForGroup?
    requires CanAct(s, i, act) && Given(s, i, s.proxies[i].stage.g, allowed)
    ensures Local(s, Acted(s, i, act), i, s.proxies[i].stage.g, allowed)
  {
    AcquireIsExclusive(s, i, act.now, act.order, act.probe, allowed);
    var req, g := s.proxies[i].req, s.proxies[i].stage.g;
    var (ports, o) := Ports.Acquired(s.ports, req.name, req.port, act.now, act.order, act.probe);
    if o.Ok? {
      PortGranted(s, Acted(s, i, act), i, g, o.port, allowed);
    } else {
      PortRefused(s, Acted(s, i, act), i, g, allowed);
    }
  }

  lemma PortGranted(s: State, t: State, i: Pid, g: Gid, p: int, allowed: set<int>)
    requires Given(s, i, g, allowed) && s.proxies[i].stage == Holding(g)
    requires p !in s.ports.used && t.ports.used.Keys == s.ports.used.Keys + {p} && Ports.Partition(t.ports, allowed)
    requires t.proxies == s.proxies[i := s.proxies[i].(stage := Ported(g, p))]
    requires t.groups == s.groups && t.owner == s.owner[p := ByProxy(i)] && t.registry == s.registry
    ensures Local(s, t, i, g, allowed)
  {
    assert GroupOk(t.registry, t.proxies, t.groups[g], g);
  }

  lemma PortRefused(s: State, t: State, i: Pid, g: Gid, allowed: set<int>)
    requires Given(s, i, g, allowed) && s.proxies[i].stage == Holding(g)
    requires t.groups == s.groups[g := s.groups[g].(mu := None)]
    requires t.proxies == s.proxies[i := s.proxies[i].(stage := Ended)]
    requires t.ports == s.ports && t.owner == s.owner && t.registry == s.registry
    ensures Local(s, t, i, g, allowed)
  {
    assert GroupOk(t.registry, t.proxies, t.groups[g], g);
  }

  /** The allocator's part of an acquisition. */
  lemma AcquireIsExclusive(s: State, i: Pid, now: int, order: seq<int>, probe: Ports.Probe, allowed: set<int>)
    requires 0 !in allowed && i < |s.proxies| && Fair(s, order, probe) && Ports.Partition(s.ports, allowed)
    ensures var req := s.proxies[i].req;
            var (ports, o) := Ports.Acquired(s.ports, req.name, req.port, now, order, probe);
            && Ports.Partition(ports, allowed)
            && (o.Ok? ==> o.port !in s.ports.used && ports.used.Keys == s.ports.used.Keys + {o.port})
            && (o.Err? ==> ports == s.ports)
  {
    var req := s.proxies[i].req;
    Ports.StepKeepsPartition(s.ports, Ports.Acquire(req.name, req.port, now, order, probe), allowed);
    var (ports, o) := Ports.Acquired(s.ports, req.name, req.port, now, order, probe);
    if o.Ok? {
      Ports.HonestGrantIsExclusive(s.ports, allowed, req.name, req.port, now, order, probe);
    } else {
      Ports.RefusalKeepsState(s.ports, req.name, req.port, now, order, probe);
    }
  }

  lemma ReleaseIsExact(ports: Ports.State, p: int, now: int, allowed: set<int>)
    requires Ports.Partition(ports, allowed)
    ensures Ports.Partition(Ports.Released(ports, p, now), allowed)
    ensures Ports.Released(ports, p, now).used.Keys == ports.used.Keys - {p}
  {
    Ports.StepKeepsPartition(ports, Ports.Release(p, now), allowed);
  }

  lemma ListenFails(s: State, t: State, i: Pid, g: Gid, p: int, allowed: set<int>)
    requires Given(s, i, g, allowed) && s.proxies[i].stage == Ported(g, p)
    requires Ports.Partition(t.ports, allowed) && t.ports.used.Keys == s.ports.used.Keys - {p}
    requires t.groups == s.groups[g := s.groups[g].(mu := None)]
    requires t.proxies == s.proxies[i := s.proxies[i].(stage := Ended)]
    requires t.owner == s.owner - {p} && t.registry == s.registry
    ensures Local(s, t, i, g, allowed)
  {
    assert GroupOk(t.registry, t.proxies, t.groups[g], g);
  }

  lemma ListenWorks(s: State, t: State, i: Pid, g: Gid, p: int, allowed: set<int>)
    requires Given(s, i, g, allowed) && s.proxies[i].stage == Ported(g, p)
    requires var gr, req := s.groups[g], s.proxies[i].req;
             && t.groups == s.groups[g := gr.(params := Some(req), realPort := p, lns := [i], mu := None, opens := gr.opens + 1)]
             && t.proxies == s.proxies[i := s.proxies[i].(stage := Member(g))]
    requires t.ports == s.ports && t.owner == s.owner[p := ByGroup(g)] && t.registry == s.registry
    ensures Local(s, t, i, g, allowed)
  {
    assert GroupOk(t.registry, t.proxies, t.groups[g], g);
  }

  lemma GroupListen(s: State, i: Pid, act: Action, allowed: set<int>)
    requires act.ListenForGroup? && CanAct(s, i, act) && Given(s, i, s.proxies[i].stage.g, allowed)
    ensures Local(s, Acted(s, i, act), i, s.proxies[i].stage.g, allowed)
  {
    if act.ok {
      ListenWorks(s, Acted(s, i, act), i, s.proxies[i].stage.g, s.proxies[i].stage.p, allowed);
    } else {
      ReleaseIsExact(s.ports, s.proxies[i].stage.p, act.now, allowed);
      ListenFails(s, Acted(s, i, act), i, s.proxies[i].stage.g, s.proxies[i].stage.p, allowed);
    }
  }

  lemma GroupBeginClose(s: State, i: Pid, allowed: set<int>)
    requires CanAct(s, i, BeginClose) && Given(s, i, s.proxies[i].stage.g, allowed)
    ensures Local(s, Acted(s, i, BeginClose), i, s.proxies[i].stage.g, allowed)
  {
    BeginsClose(s, Acted(s, i, BeginClose), i, s.proxies[i].stage.g, allowed);
  }

  lemma BeginsClose(s: State, t: State, i: Pid, g: Gid, allowed: set<int>)
    requires Given(s, i, g, allowed) && s.proxies[i].stage == Member(g)
    requires t == s.(proxies := s.proxies[i := s.proxies[i].(stage := Leaving(g))])
    ensures Local(s, t, i, g, allowed)
  {
    assert GroupOk(t.registry, t.proxies, t.groups[g], g);
  }

  lemma GroupLeave(s: State, i: Pid, allowed: set<int>)
    requires CanAct(s, i, Leave) && Given(s, i, s.proxies[i].stage.g, allowed)
    ensures Local(s, Acted(s, i, Leave), i, s.proxies[i].stage.g, allowed)
  {
    var g := s.proxies[i].stage.g;
    if Without(s.groups[g].lns, i) == [] {
      LastLeaves(s, Acted(s, i, Leave), i, g, allowed);
    } else {
      NotLastLeaves(s, Acted(s, i, Leave), i, g, allowed);
    }
  }

  lemma NotLastLeaves(s: State, t: State, i: Pid, g: Gid, allowed: set<int>)
    requires Given(s, i, g, allowed) && s.proxies[i].stage == Leaving(g) && s.groups[g].mu.None?
    requires Without(s.groups[g].lns, i) != []
    requires t.groups == s.groups[g := s.groups[g].(lns := Without(s.groups[g].lns, i))]
    requires t.proxies == s.proxies[i := s.proxies[i].(stage := Ended)]
    requires t.ports == s.ports && t.owner == s.owner && t.registry == s.registry
    ensures Local(s, t, i, g, allowed)
  {
    WithoutDrops(s.groups[g].lns, i);
    TouchesBy(s, t, i, g, Ended, t.groups[g]);
    NotLastRest(s, t, i, g, allowed);
  }

  lemma NotLastRest(s: State, t: State, i: Pid, g: Gid, allowed: set<int>)
    requires Given(s, i, g, allowed) && s.proxies[i].stage == Leaving(g) && s.groups[g].mu.None?
    requires var lns := Without(s.groups[g].lns, i);
             lns != [] && Distinct(lns) && i !in lns && t.groups == s.groups[g := s.groups[g].(lns := lns)]
    requires t.proxies == s.proxies[i := s.proxies[i].(stage := Ended)]
    requires t.ports == s.ports && t.owner == s.owner && t.registry == s.registry
    ensures Rest(t, i, g, allowed)
  {
    assert GroupOk(t.registry, t.proxies, t.groups[g], g);
  }

  lemma LastLeaves(s: State, t: State, i: Pid, g: Gid, allowed: set<int>)
    requires Given(s, i, g, allowed) && s.proxies[i].stage == Leaving(g) && s.groups[g].mu.None?
    requires Without(s.groups[g].lns, i) == []
    requires var gr := s.groups[g];
             t.groups == s.groups[g := gr.(lns := [], mu := Some(i), chanCloses := gr.chanCloses + 1,
                                           listenerCloses := gr.listenerCloses + 1)]
    requires t.proxies == s.proxies[i := s.proxies[i].(stage := LastOut(g))]
    requires t.ports == s.ports && t.owner == s.owner && t.registry == s.registry
    ensures Local(s, t, i, g, allowed)
  {
    assert forall j :: j in s.groups[g].lns ==> j == i;
    TouchesBy(s, t, i, g, LastOut(g), t.groups[g]);
    assert GroupOk(t.registry, t.proxies, t.groups[g], g);
  }

  lemma GroupRelease(s: State, i: Pid, act: Action, allowed: set<int>)
    requires act.ReleaseForGroup? && CanAct(s, i, act) && Given(s, i, s.proxies[i].stage.g, allowed)
    ensures Local(s, Acted(s, i, act), i, s.proxies[i].stage.g, allowed)
  {
    var g := s.proxies[i].stage.g;
    ReleaseIsExact(s.ports, s.groups[g].realPort, act.now, allowed);
    LastReleases(s, Acted(s, i, act), i, g, allowed);
  }

  lemma LastReleases(s: State, t: State, i: Pid, g: Gid, allowed: set<int>)
    requires Given(s, i, g, allowed) && s.proxies[i].stage == LastOut(g)
    requires Ports.Partition(t.ports, allowed) && t.ports.used.Keys == s.ports.used.Keys - {s.groups[g].realPort}
    requires t.proxies == s.proxies[i := s.proxies[i].(stage := Unlisting(g))]
    requires t.groups == s.groups && t.owner == s.owner - {s.groups[g].realPort} && t.registry == s.registry
    ensures Local(s, t, i, g, allowed)
  {
    assert GroupOk(t.registry, t.proxies, t.groups[g], g);
  }

  lemma GroupRemove(s: State, i: Pid, allowed: set<int>)
    requires CanAct(s, i, RemoveIf) && Given(s, i, s.proxies[i].stage.g, allowed)
    ensures Local(s, Acted(s, i, RemoveIf), i, s.proxies[i].stage.g, allowed)
  {
  }

  lemma AloneAcquire(s: State, i: Pid, act: Action, allowed: set<int>)
    requires 0 !in allowed && act.AcquireAlone?
    requires CanAct(s, i, act) && Given(s, i, |s.groups|, allowed)
    ensures Local(s, Acted(s, i, act), i, |s.groups|, allowed)
  {
    AcquireIsExclusive(s, i, act.now, act.order, act.probe, allowed);
    OwnersOfIdle(s, i, allowed);
    var req := s.proxies[i].req;
    var (ports, o) := Ports.Acquired(s.ports, req.name, req.port, act.now, act.order, act.probe);
    if o.Ok? {
      AloneTakes(s, Acted(s, i, act), i, o.port, allowed);
    } else {
      AloneMoves(s, Acted(s, i, act), i, Ended, allowed);
    }
  }

  lemma AloneTakes(s: State, t: State, i: Pid, p: int, allowed: set<int>)
    requires Given(s, i, |s.groups|, allowed) && s.proxies[i].stage == Wanting
    requires forall q :: q in s.owner ==> s.owner[q] != ByGroup(|s.groups|)
    requires forall q :: q in s.owner && s.owner[q] == ByProxy(i) ==> OwnPort(s.proxies[i].stage) == Some(q)
    requires p !in s.ports.used && t.ports.used.Keys == s.ports.used.Keys + {p} && Ports.Partition(t.ports, allowed)
    requires t.proxies == s.proxies[i := s.proxies[i].(stage := HasPort(p))]
    requires t.groups == s.groups && t.owner == s.owner[p := ByProxy(i)] && t.registry == s.registry
    ensures Local(s, t, i, |s.groups|, allowed)
  {
  }

  /** A proxy on its own moves on and keeps the port it has or has not. */
  lemma AloneMoves(s: State, t: State, i: Pid, st: Stage, allowed: set<int>)
    requires Given(s, i, |s.groups|, allowed)
    requires (s.proxies[i].stage == Wanting && st == Ended) || (s.proxies[i].stage.HasPort? && st == Serving(s.proxies[i].stage.p))
    requires forall q :: q in s.owner ==> s.owner[q] != ByGroup(|s.groups|)
    requires forall q :: q in s.owner && s.owner[q] == ByProxy(i) ==> OwnPort(s.proxies[i].stage) == Some(q)
    requires t == s.(proxies := s.proxies[i := s.proxies[i].(stage := st)])
    ensures Local(s, t, i, |s.groups|, allowed)
  {
  }

  lemma AloneGivesBack(s: State, t: State, i: Pid, p: int, allowed: set<int>)
    requires Given(s, i, |s.groups|, allowed) && (s.proxies[i].stage == HasPort(p) || s.proxies[i].stage == Serving(p))
    requires forall q :: q in s.owner ==> s.owner[q] != ByGroup(|s.groups|)
    requires forall q :: q in s.owner && s.owner[q] == ByProxy(i) ==> OwnPort(s.proxies[i].stage) == Some(q)
    requires t.ports.used.Keys == s.ports.used.Keys - {p} && Ports.Partition(t.ports, allowed)
    requires t.proxies == s.proxies[i := s.proxies[i].(stage := Ended)]
    requires t.groups == s.groups && t.owner == s.owner - {p} && t.registry == s.registry
    ensures Local(s, t, i, |s.groups|, allowed)
  {
  }

  /** Nothing is owned by a group that does not exist, nor by a proxy without a port. */
  lemma OwnersOfIdle(s: State, i: Pid, allowed: set<int>)
    requires Given(s, i, |s.groups|, allowed)
    ensures forall p :: p in s.owner ==> s.owner[p] != ByGroup(|s.groups|)
    ensures forall p :: p in s.owner && s.owner[p] == ByProxy(i) ==> OwnPort(s.proxies[i].stage) == Some(p)
  {
    forall p | p in s.owner
      ensures s.owner[p] != ByGroup(|s.groups|)
      ensures s.owner[p] == ByProxy(i) ==> OwnPort(s.proxies[i].stage) == Some(p)
    {
      assert OwnerOk(s.groups, s.proxies, p, s.owner[p]);
    }
  }

  lemma AloneListen(s: State, i: Pid, act: Action, allowed: set<int>)
    requires act.ListenAlone? && CanAct(s, i, act) && Given(s, i, |s.groups|, allowed)
    ensures Local(s, Acted(s, i, act), i, |s.groups|, allowed)
  {
    OwnersOfIdle(s, i, allowed);
    var p := s.proxies[i].stage.p;
    if act.ok {
      AloneMoves(s, Acted(s, i, act), i, Serving(p), allowed);
    } else {
      ReleaseIsExact(s.ports, p, act.now, allowed);
      AloneGivesBack(s, Acted(s, i, act), i, p, allowed);
    }
  }

  lemma AloneClose(s: State, i: Pid, act: Action, allowed: set<int>)
    requires act.CloseAlone? && CanAct(s, i, act) && Given(s, i, |s.groups|, allowed)
    ensures Local(s, Acted(s, i, act), i, |s.groups|, allowed)
  {
    ReleaseIsExact(s.ports, s.proxies[i].stage.p, act.now, allowed);
    OwnersOfIdle(s, i, allowed);
    AloneGivesBack(s, Acted(s, i, act), i, s.proxies[i].stage.p, allowed);
  }

  lemma FindExisting(s: State, i: Pid, allowed: set<int>)
    requires CanAct(s, i, GetOrCreate) && Given(s, i, |s.groups|, allowed)
    requires s.proxies[i].req.group in s.registry
    ensures Local(s, Acted(s, i, GetOrCreate), i, |s.groups|, allowed)
  {
    OwnersOfIdle(s, i, allowed);
  }

  /** A new group under a free name. */
  lemma CreateKeepsInv(s: State, i: Pid, allowed: set<int>)
    requires Inv(s, allowed) && CanAct(s, i, GetOrCreate) && s.proxies[i].req.group !in s.registry
    ensures Inv(Acted(s, i, GetOrCreate), allowed)
  {
    var t := Acted(s, i, GetOrCreate);
    var n := |s.groups|;
    forall j: Pid | j < |t.proxies| ensures ProxyOk(t.groups, t.owner, t.proxies[j], j) {
      assert ProxyOk(s.groups, s.owner, s.proxies[j], j);
    }
    forall h: Gid | h < |t.groups|
      ensures GroupOk(t.registry, t.proxies, t.groups[h], h) && GroupPortOk(t.owner, t.proxies, t.groups[h], h)
    {
      if h < n {
        assert GroupOk(s.registry, s.proxies, s.groups[h], h) && GroupPortOk(s.owner, s.proxies, s.groups[h], h);
      }
    }
    forall p | p in t.owner ensures OwnerOk(t.groups, t.proxies, p, t.owner[p]) {
      assert OwnerOk(s.groups, s.proxies, p, s.owner[p]);
      if s.owner[p].ByGroup? {
        assert GroupOk(s.registry, s.proxies, s.groups[s.owner[p].g], s.owner[p].g);
      }
    }
  }

  lemma SpawnKeepsInv(s: State, req: Request, allowed: set<int>)
    requires Inv(s, allowed)
    ensures Inv(Apply(s, Spawn(req)), allowed)
  {
    var t := Apply(s, Spawn(req));
    forall j: Pid | j < |t.proxies| ensures ProxyOk(t.groups, t.owner, t.proxies[j], j) {
      if j < |s.proxies| {
        assert ProxyOk(s.groups, s.owner, s.proxies[j], j);
      }
    }
    forall h: Gid | h < |t.groups|
      ensures GroupOk(t.registry, t.proxies, t.groups[h], h) && GroupPortOk(t.owner, t.proxies, t.groups[h], h)
    {
      assert GroupOk(s.registry, s.proxies, s.groups[h], h) && GroupPortOk(s.owner, s.proxies, s.groups[h], h);
    }
    forall p | p in t.owner ensures OwnerOk(t.groups, t.proxies, p, t.owner[p]) {
      assert OwnerOk(s.groups, s.proxies, p, s.owner[p]);
    }
  }

  lemma ActKeepsInv(s: State, i: Pid, act: Action, allowed: set<int>)
    requires 0 !in allowed && Inv(s, allowed) && CanAct(s, i, act)
    ensures Inv(Acted(s, i, act), allowed)
  {
    if act.GetOrCreate? && s.proxies[i].req.group !in s.registry {
      CreateKeepsInv(s, i, allowed);
      return;
    }
    var g := if act.GetOrCreate? || act.AcquireAlone? || act.ListenAlone? || act.CloseAlone?
             then |s.groups| else s.proxies[i].stage.g;
    InvGives(s, i, g, allowed);
    match act {
      case GetOrCreate => FindExisting(s, i, allowed);
      case Enter =>
        if !Current(s, s.proxies[i].req.group, g) { StaleEnter(s, i, allowed); }
        else if s.groups[g].lns == [] { FirstEnter(s, i, allowed); }
        else { LaterEnter(s, i, allowed); }
      case AcquireForGroup(_, _, _) => GroupAcquire(s, i, act, allowed);
      case ListenForGroup(_, _) => GroupListen(s, i, act, allowed);
      case BeginClose => GroupBeginClose(s, i, allowed);
      case Leave => GroupLeave(s, i, allowed);
      case ReleaseForGroup(_) => GroupRelease(s, i, act, allowed);
      case RemoveIf => GroupRemove(s, i, allowed);
      case AcquireAlone(_, _, _) => AloneAcquire(s, i, act, allowed);
      case ListenAlone(_, _) => AloneListen(s, i, act, allowed);
      case CloseAlone(_) => AloneClose(s, i, act, allowed);
    }
    Assemble(s, Acted(s, i, act), i, g, allowed);
  }

  lemma StepKeepsInv(s: State, step: Step, allowed: set<int>)
    requires 0 !in allowed && Inv(s, allowed)
    ensures Inv(Apply(s, step), allowed)
  {
    match step
    case Spawn(req) => SpawnKeepsInv(s, req, allowed);
    case Clean(now) => CleanKeepsInv(s, now, allowed);
    case Act(i, act) =>
      if CanAct(s, i, act) {
        ActKeepsInv(s, i, act, allowed);
      }
  }

  lemma CleanKeepsInv(s: State, now: int, allowed: set<int>)
    requires Inv(s, allowed)
    ensures Inv(Apply(s, Clean(now)), allowed)
  {
    Ports.StepKeepsPartition(s.ports, Ports.Clean(now), allowed);
    var t := Apply(s, Clean(now));
    assert t.groups == s.groups && t.proxies == s.proxies && t.owner == s.owner && t.registry == s.registry;
  }

  lemma {:induction false} RunKeepsInv(s: State, steps: seq<Step>, allowed: set<int>)
    requires 0 !in allowed && Inv(s, allowed)
    ensures Inv(Exec(s, steps), allowed)
    decreases |steps|
  {
    if steps != [] {
      StepKeepsInv(s, steps[0], allowed);
      RunKeepsInv(Apply(s, steps[0]), steps[1..], allowed);
    }
  }

  // ---------- every run ----------

  /** In every run a group with members is the one registered under its name, has begun one
      more listen cycle than it has closed, and owns one used port. */
  lemma GroupWithMembers(allowed: set<int>, steps: seq<Step>, g: Gid)
    requires 0 !in allowed
    requires var s := Exec(Init(allowed), steps); g < |s.groups| && s.groups[g].lns != []
    ensures var s := Exec(Init(allowed), steps);
            var gr := s.groups[g];
            && Current(s, GroupName(gr), g)
            && gr.opens == gr.listenerCloses + 1 == gr.chanCloses + 1
            && gr.realPort in s.ports.used && gr.realPort in s.owner && s.owner[gr.realPort] == ByGroup(g)
            && forall i :: i in gr.lns ==> i < |s.proxies| && InGroup(s.proxies[i].stage, g)
  {
    RunKeepsInv(Init(allowed), steps, allowed);
    var s := Exec(Init(allowed), steps);
    assert GroupOk(s.registry, s.proxies, s.groups[g], g) && GroupPortOk(s.owner, s.proxies, s.groups[g], g);
  }

  // ---------- groups are for who names one ----------

  predicate Alone(st: Stage) {
    st.Wanting? || st.HasPort? || st.Serving?
  }

  /** Who names no group is on its own, and who names one never is. */
  ghost predicate KindsOk(s: State) {
    forall i :: 0 <= i < |s.proxies| ==>
      s.proxies[i].stage.Ended? || (Alone(s.proxies[i].stage) <==> s.proxies[i].req.group == "")
  }

  lemma OwnKindStays(s: State, i: Pid, act: Action)
    requires CanAct(s, i, act)
    ensures i < |Acted(s, i, act).proxies|
    ensures var p, q := s.proxies[i].stage, Acted(s, i, act).proxies[i].stage; q.Ended? || (!p.Ended? && (Alone(p) <==> Alone(q)))
  {
  }

  lemma ActKeepsKinds(s: State, i: Pid, act: Action)
    requires KindsOk(s) && CanAct(s, i, act)
    ensures KindsOk(Acted(s, i, act))
  {
    var t := Acted(s, i, act);
    ActKeepsCount(s, i, act);
    OwnKindStays(s, i, act);
    OwnRequestStays(s, i, act);
    forall j | 0 <= j < |t.proxies|
      ensures t.proxies[j].stage.Ended? || (Alone(t.proxies[j].stage) <==> t.proxies[j].req.group == "")
    {
      if j != i {
        ActLeavesOthers(s, i, act, j);
      }
    }
  }

  /** In every run a proxy takes a port of its own exactly if it names no group. */
  lemma {:induction false} RunKeepsKinds(s: State, steps: seq<Step>)
    requires KindsOk(s)
    ensures KindsOk(Exec(s, steps))
    decreases |steps|
  {
    if steps != [] {
      if steps[0].Act? && CanAct(s, steps[0].i, steps[0].act) {
        ActKeepsKinds(s, steps[0].i, steps[0].act);
      }
      RunKeepsKinds(Apply(s, steps[0]), steps[1..]);
    }
  }

  // ---------- who may share a group ----------

  /** Every member asked for what the group was opened with. */
  ghost predicate Fitting(s: State) {
    forall g: Gid, j :: g < |s.groups| && j in s.groups[g].lns ==> Fits(s.proxies, s.groups[g], j)
  }

  ghost predicate Fits(proxies: seq<Proxy>, gr: Group, j: Pid) {
    j < |proxies| && gr.params.Some? &&
    var a, b := proxies[j].req, gr.params.value;
    a.group == b.group && a.groupKey == b.groupKey && a.addr == b.addr && a.port == b.port
  }

  lemma RequestsStay(s: State, i: Pid, act: Action, j: Pid)
    requires CanAct(s, i, act) && j < |s.proxies|
    ensures j < |Acted(s, i, act).proxies| && Acted(s, i, act).proxies[j].req == s.proxies[j].req
  {
    ActKeepsCount(s, i, act);
    if i != j {
      ActLeavesOthers(s, i, act, j);
    } else {
      OwnRequestStays(s, i, act);
    }
  }

  lemma OwnRequestStays(s: State, i: Pid, act: Action)
    requires CanAct(s, i, act)
    ensures i < |Acted(s, i, act).proxies| && Acted(s, i, act).proxies[i].req == s.proxies[i].req
  {
  }

  /** What a step may do to a group: nothing, or make a new one, or let in one that fits, or open it
      anew, or take members out. */
  lemma GroupAfterAct(s: State, i: Pid, act: Action, g: Gid)
    requires CanAct(s, i, act) && g < |Acted(s, i, act).groups|
    ensures var t := Acted(s, i, act).groups[g];
            || t.lns == []
            || (t.lns == [i] && t.params == Some(s.proxies[i].req))
            || (g < |s.groups| && t.params == s.groups[g].params
                && ((forall j :: j in t.lns ==> j in s.groups[g].lns)
                    || (t.lns == s.groups[g].lns + [i] && Fits(s.proxies, s.groups[g], i))))
  {
    match act
    case Enter => EnteredGroup(s, i, g);
    case Leave =>
    case _ =>
  }

  lemma EnteredGroup(s: State, i: Pid, g: Gid)
    requires CanAct(s, i, Enter) && g < |Acted(s, i, Enter).groups|
    ensures g < |s.groups|
    ensures var t := Acted(s, i, Enter).groups[g];
            && (t.lns == s.groups[g].lns ==> t.params == s.groups[g].params)
            && (t.lns != s.groups[g].lns ==>
                  t.lns == s.groups[g].lns + [i] && t.params == s.groups[g].params && Fits(s.proxies, s.groups[g], i))
  {
  }

  lemma ActKeepsFitting(s: State, i: Pid, act: Action)
    requires Fitting(s) && CanAct(s, i, act)
    ensures Fitting(Acted(s, i, act))
  {
    var t := Acted(s, i, act);
    forall g: Gid, j | g < |t.groups| && j in t.groups[g].lns ensures Fits(t.proxies, t.groups[g], j) {
      GroupAfterAct(s, i, act, g);
      RequestsStay(s, i, act, i);
      if j != i {
        assert j in s.groups[g].lns && Fits(s.proxies, s.groups[g], j);
        RequestsStay(s, i, act, j);
      }
    }
  }

  lemma SpawnKeepsFitting(s: State, req: Request)
    requires Fitting(s)
    ensures Fitting(Apply(s, Spawn(req)))
  {
    var t := Apply(s, Spawn(req));
    forall g: Gid, j | g < |t.groups| && j in t.groups[g].lns ensures Fits(t.proxies, t.groups[g], j) {
      assert Fits(s.proxies, s.groups[g], j);
    }
  }

  lemma {:induction false} RunKeepsFitting(s: State, steps: seq<Step>)
    requires Fitting(s)
    ensures Fitting(Exec(s, steps))
    decreases |steps|
  {
    if steps != [] {
      match steps[0] {
        case Spawn(req) => SpawnKeepsFitting(s, req);
        case Clean(_) =>
        case Act(i, act) =>
          if CanAct(s, i, act) {
            ActKeepsFitting(s, i, act);
          }
      }
      RunKeepsFitting(Apply(s, steps[0]), steps[1..]);
    }
  }

  /** In every run all members of a group asked for the same group, key, address and port. */
  lemma MembersAgree(allowed: set<int>, steps: seq<Step>, g: Gid, i: Pid, j: Pid)
    requires g < |Exec(Init(allowed), steps).groups|
    requires i in Exec(Init(allowed), steps).groups[g].lns && j in Exec(Init(allowed), steps).groups[g].lns
    ensures var s := Exec(Init(allowed), steps);
            && i < |s.proxies| && j < |s.proxies|
            && s.proxies[i].req.group == s.proxies[j].req.group && s.proxies[i].req.groupKey == s.proxies[j].req.groupKey
            && s.proxies[i].req.addr == s.proxies[j].req.addr && s.proxies[i].req.port == s.proxies[j].req.port
  {
    RunKeepsFitting(Init(allowed), steps);
    var s := Exec(Init(allowed), steps);
    assert Fits(s.proxies, s.groups[g], i) && Fits(s.proxies, s.groups[g], j);
  }

  /** In every run a proxy that finds its group current and with members joins it exactly if it asks
      for the same group, key, address and port as a member. */
  lemma JoinsIffSame(allowed: set<int>, steps: seq<Step>, i: Pid, m: Pid)
    requires 0 !in allowed && CanAct(Exec(Init(allowed), steps), i, Enter)
    requires var s := Exec(Init(allowed), steps);
             var g := s.proxies[i].stage.g;
             Current(s, s.proxies[i].req.group, g) && m in s.groups[g].lns
    ensures var s := Exec(Init(allowed), steps);
            var g := s.proxies[i].stage.g;
            var t := Apply(s, Act(i, Enter));
            && m < |s.proxies| && g < |t.groups|
            && (i in t.groups[g].lns <==>
                && s.proxies[i].req.group == s.proxies[m].req.group && s.proxies[i].req.groupKey == s.proxies[m].req.groupKey
                && s.proxies[i].req.addr == s.proxies[m].req.addr && s.proxies[i].req.port == s.proxies[m].req.port)
  {
    RunKeepsInv(Init(allowed), steps, allowed);
    RunKeepsFitting(Init(allowed), steps);
    var s := Exec(Init(allowed), steps);
    EntersIffSame(s, i, s.proxies[i].stage.g, m, allowed);
  }

  lemma EntersIffSame(s: State, i: Pid, g: Gid, m: Pid, allowed: set<int>)
    requires Inv(s, allowed) && Fitting(s) && CanAct(s, i, Enter) && s.proxies[i].stage == Found(g)
    requires Current(s, s.proxies[i].req.group, g) && m in s.groups[g].lns
    ensures m < |s.proxies| && g < |Acted(s, i, Enter).groups|
    ensures i in Acted(s, i, Enter).groups[g].lns <==>
            && s.proxies[i].req.group == s.proxies[m].req.group && s.proxies[i].req.groupKey == s.proxies[m].req.groupKey
            && s.proxies[i].req.addr == s.proxies[m].req.addr && s.proxies[i].req.port == s.proxies[m].req.port
  {
    assert Fits(s.proxies, s.groups[g], m);
    assert GroupOk(s.registry, s.proxies, s.groups[g], g);
    assert i !in s.groups[g].lns;
  }

  /** In every run the accept channel and the real listener of a group are closed exactly
      once for its one listen cycle, and not at all before it. */
  lemma ClosedOncePerCycle(allowed: set<int>, steps: seq<Step>, g: Gid)
    requires 0 !in allowed
    requires g < |Exec(Init(allowed), steps).groups|
    ensures var gr := Exec(Init(allowed), steps).groups[g];
            && gr.chanCloses == gr.listenerCloses <= gr.opens <= 1
            && (gr.lns == [] ==> gr.chanCloses == gr.opens)
            && (gr.removed ==> gr.opens == 1)
  {
    RunKeepsInv(Init(allowed), steps, allowed);
    var s := Exec(Init(allowed), steps);
    assert GroupOk(s.registry, s.proxies, s.groups[g], g);
  }

  /** A close that takes a listener out always finds it in the group, so the closing of an
      already empty group cannot happen. */
  lemma LeaveFindsListener(allowed: set<int>, steps: seq<Step>, i: Pid)
    requires 0 !in allowed && CanAct(Exec(Init(allowed), steps), i, Leave)
    ensures var s := Exec(Init(allowed), steps); i in s.groups[s.proxies[i].stage.g].lns
  {
    RunKeepsInv(Init(allowed), steps, allowed);
    var s := Exec(Init(allowed), steps);
    assert ProxyOk(s.groups, s.owner, s.proxies[i], i);
  }

  lemma StepKeepsRemoved(s: State, step: Step, allowed: set<int>, g: Gid)
    requires 0 !in allowed && Inv(s, allowed) && g < |s.groups| && s.groups[g].removed
    ensures g < |Apply(s, step).groups| && Apply(s, step).groups[g] == s.groups[g]
  {
    assert GroupOk(s.registry, s.proxies, s.groups[g], g);
    if step.Act? && CanAct(s, step.i, step.act) {
      assert ProxyOk(s.groups, s.owner, s.proxies[step.i], step.i);
    }
  }

  /** A removed group never changes again; in particular it never gains a member. */
  lemma {:induction false} RemovedForGood(s: State, steps: seq<Step>, allowed: set<int>, g: Gid)
    requires 0 !in allowed && Inv(s, allowed) && g < |s.groups| && s.groups[g].removed
    ensures g < |Exec(s, steps).groups| && Exec(s, steps).groups[g] == s.groups[g]
    ensures s.groups[g].lns == []
    decreases |steps|
  {
    assert GroupOk(s.registry, s.proxies, s.groups[g], g);
    if steps != [] {
      StepKeepsRemoved(s, steps[0], allowed, g);
      StepKeepsInv(s, steps[0], allowed);
      RemovedForGood(Apply(s, steps[0]), steps[1..], allowed, g);
    }
  }

  ghost predicate Removes(s: State, step: Step, g: Gid) {
    step.Act? && step.act.RemoveIf? && CanAct(s, step.i, step.act) && s.proxies[step.i].stage.g == g
  }

  lemma OnlyRemovalUnregisters(s: State, step: Step, allowed: set<int>, key: string, g: Gid)
    requires 0 !in allowed && Inv(s, allowed) && Current(s, key, g) && !Removes(s, step, g)
    ensures Current(Apply(s, step), key, g)
  {
    if step.Act? && CanAct(s, step.i, step.act) && step.act.RemoveIf? {
      var h := s.proxies[step.i].stage.g;
      assert ProxyOk(s.groups, s.owner, s.proxies[step.i], step.i);
      assert GroupOk(s.registry, s.proxies, s.groups[h], h);
    }
  }

  lemma ExecCons(s: State, steps: seq<Step>)
    requires steps != []
    ensures Exec(s, steps) == Exec(Apply(s, steps[0]), steps[1..])
  {
  }

  lemma ActLeavesOthers(s: State, j: Pid, act: Action, i: Pid)
    requires CanAct(s, j, act) && i < |s.proxies| && i != j
    ensures i < |Acted(s, j, act).proxies| && Acted(s, j, act).proxies[i] == s.proxies[i]
  {
    match act
    case GetOrCreate =>
    case Enter =>
    case AcquireForGroup(_, _, _) =>
    case ListenForGroup(_, _) =>
    case BeginClose =>
    case Leave =>
    case ReleaseForGroup(_) =>
    case RemoveIf =>
    case AcquireAlone(_, _, _) =>
    case ListenAlone(_, _) =>
    case CloseAlone(_) =>
  }

  lemma StepKeepsCount(s: State, step: Step)
    requires !step.Spawn?
    ensures |Apply(s, step).proxies| == |s.proxies|
  {
    if step.Act? && CanAct(s, step.i, step.act) {
      ActKeepsCount(s, step.i, step.act);
    }
  }

  lemma ActKeepsCount(s: State, i: Pid, act: Action)
    requires CanAct(s, i, act)
    ensures |Acted(s, i, act).proxies| == |s.proxies|
  {
  }

  lemma OthersLeaveProxy(s: State, step: Step, i: Pid)
    requires i < |s.proxies| && (step.Act? ==> step.i != i)
    ensures i < |Apply(s, step).proxies| && Apply(s, step).proxies[i] == s.proxies[i]
  {
    if step.Act? && CanAct(s, step.i, step.act) {
      ActLeavesOthers(s, step.i, step.act, i);
    }
  }

  /** A proxy that found group `g` current and later finds it stale was overtaken by another
      proxy's close, which removed `g` from the registry in between. */
  lemma {:induction false} StaleOnlyAfterRemoval(s: State, steps: seq<Step>, allowed: set<int>, i: Pid, g: Gid)
    returns (k: nat)
    requires 0 !in allowed && Inv(s, allowed)
    requires i < |s.proxies| && s.proxies[i].stage == Found(g) && Current(s, s.proxies[i].req.group, g)
    requires forall j :: 0 <= j < |steps| && steps[j].Act? ==> steps[j].i != i
    requires !Current(Exec(s, steps), s.proxies[i].req.group, g)
    ensures k < |steps| && Removes(Exec(s, steps[..k]), steps[k], g) && steps[k].i != i
    decreases |steps|
  {
    assert steps != [];
    if Removes(s, steps[0], g) {
      assert steps[..0] == [];
      k := 0;
    } else {
      OnlyRemovalUnregisters(s, steps[0], allowed, s.proxies[i].req.group, g);
      StepKeepsInv(s, steps[0], allowed);
      OthersLeaveProxy(s, steps[0], i);
      var rest := StaleOnlyAfterRemoval(Apply(s, steps[0]), steps[1..], allowed, i, g);
      k := rest + 1;
      ExecCons(s, steps[..k]);
      assert steps[..k][1..] == steps[1..][..rest];
    }
  }

  /** Nobody is between getting a port and having it in service, or giving one back. */
  ghost predicate Quiet(s: State) {
    forall i :: 0 <= i < |s.proxies| ==>
      var st := s.proxies[i].stage;
      !st.Ported? && !st.HasPort? && !st.LastOut?
  }

  /** In every run, at a quiet moment the used ports are exactly those of the proxies that
      serve on their own plus one for each group with members, and nothing is shared. */
  lemma PortsAccountedFor(allowed: set<int>, steps: seq<Step>, p: int)
    requires 0 !in allowed && Quiet(Exec(Init(allowed), steps))
    ensures var s := Exec(Init(allowed), steps);
            && (p in s.ports.used <==>
                  || (exists i :: 0 <= i < |s.proxies| && s.proxies[i].stage == Serving(p))
                  || (exists g :: 0 <= g < |s.groups| && s.groups[g].lns != [] && s.groups[g].realPort == p))
  {
    RunKeepsInv(Init(allowed), steps, allowed);
    var s := Exec(Init(allowed), steps);
    if p in s.ports.used {
      assert OwnerOk(s.groups, s.proxies, p, s.owner[p]);
      if s.owner[p].ByGroup? {
        var gr := s.groups[s.owner[p].g];
        assert gr.lns != [] && gr.realPort == p;
      } else {
        assert s.proxies[s.owner[p].i].stage == Serving(p);
      }
    }
    if i: Pid :| i < |s.proxies| && s.proxies[i].stage == Serving(p) {
      assert ProxyOk(s.groups, s.owner, s.proxies[i], i);
    }
    if g: Gid :| g < |s.groups| && s.groups[g].lns != [] && s.groups[g].realPort == p {
      assert GroupPortOk(s.owner, s.proxies, s.groups[g], g);
    }
  }

  /** In every run no two holders have the same port: not two proxies on their own, not two groups
      with members, and not one of each. */
  lemma PortsExclusive(allowed: set<int>, steps: seq<Step>, p: int)
    requires 0 !in allowed
    ensures var s := Exec(Init(allowed), steps);
            && (forall i: Pid, j: Pid :: IsOn(s, i, p) && IsOn(s, j, p) ==> i == j)
            && (forall g: Gid, h: Gid :: ServesOn(s, g, p) && ServesOn(s, h, p) ==> g == h)
            && (forall i: Pid, g: Gid :: IsOn(s, i, p) ==> !ServesOn(s, g, p))
  {
    RunKeepsInv(Init(allowed), steps, allowed);
    var s := Exec(Init(allowed), steps);
    forall i: Pid | IsOn(s, i, p) ensures p in s.owner && s.owner[p] == ByProxy(i) {
      assert ProxyOk(s.groups, s.owner, s.proxies[i], i);
    }
    forall g: Gid | ServesOn(s, g, p) ensures p in s.owner && s.owner[p] == ByGroup(g) {
      assert GroupPortOk(s.owner, s.proxies, s.groups[g], g);
    }
  }

  /** A proxy on its own, or a group with members, has the port. */
  predicate IsOn(s: State, i: Pid, p: int) {
    i < |s.proxies| && OwnPort(s.proxies[i].stage) == Some(p)
  }

  predicate ServesOn(s: State, g: Gid, p: int) {
    g < |s.groups| && s.groups[g].lns != [] && s.groups[g].realPort == p
  }

  lemma SomeMember(registry: map<string, Gid>, proxies: seq<Proxy>, gr: Group, g: Gid)
    requires GroupOk(registry, proxies, gr, g) && gr.lns != []
    ensures exists i :: 0 <= i < |proxies| && InGroup(proxies[i].stage, g)
  {
    assert gr.lns[0] in gr.lns;
  }

  /** Once every proxy life has ended, all allowed ports are free. */
  lemma EndedAllFree(s: State, allowed: set<int>)
    requires Inv(s, allowed) && forall i :: 0 <= i < |s.proxies| ==> s.proxies[i].stage.Ended?
    ensures s.ports.free == allowed
  {
    forall g: Gid | g < |s.groups| ensures !HasPortNow(s.proxies, s.groups[g]) {
      assert GroupOk(s.registry, s.proxies, s.groups[g], g);
      if s.groups[g].lns != [] {
        SomeMember(s.registry, s.proxies, s.groups[g], g);
      }
    }
    forall p ensures p !in s.ports.used {
      assert p in s.owner ==> OwnerOk(s.groups, s.proxies, p, s.owner[p]);
    }
    assert s.ports.used.Keys == {};
  }

  /** So it is after every run. */
  lemma ClosingAllRestoresPorts(allowed: set<int>, steps: seq<Step>)
    requires 0 !in allowed
    requires forall i :: 0 <= i < |Exec(Init(allowed), steps).proxies| ==>
                           Exec(Init(allowed), steps).proxies[i].stage.Ended?
    ensures Exec(Init(allowed), steps).ports.free == allowed
  {
    RunKeepsInv(Init(allowed), steps, allowed);
    EndedAllFree(Exec(Init(allowed), steps), allowed);
  }
}
