/** TCP groups, their listeners and ungrouped TCP proxies as objects (server/group/registry.go,
    base.go, tcp.go, listener.go, server/proxy/tcp.go). `Groups` is about their interleavings;
    here each method runs undisturbed, and its outcome is that of the steps of `Groups` taken one
    after the other. */
module GroupObjects {
  import opened Wrappers
  import opened Sequences
  import Ports
  import Groups

  type Request = Groups.Request

  /** What the world answers to one attempt: the time, the order in which free ports are visited,
      the probe, and whether listening on the real address works. */
  datatype World = World(now: int, order: seq<int>, probe: Ports.Probe, listens: bool)

  datatype Result =
    | Joined(port: int)
    | Stale
    | PortError(error: Ports.Error)
    | ListenError
    | ParamsInvalid
    | DifferentPort
    | AuthFailed

  /** The allocator after a first listener's attempt: a failing one gives back what it took. */
  ghost function PortsAfter(s: Ports.State, req: Request, w: World): (Ports.State, Result) {
    var (t, o) := Ports.Acquired(s, req.name, req.port, w.now, w.order, w.probe);
    if o.Err? then (t, PortError(o.error))
    else if w.listens then (t, Joined(o.port))
    else (Ports.Released(t, o.port, w.now), ListenError)
  }

  /** If the probe rejects used ports, an attempt that fails leaves the free and the used ports
      as they were. */
  lemma FailureGivesBack(s: Ports.State, allowed: set<int>, req: Request, w: World)
    requires Ports.Partition(s, allowed) && 0 !in allowed
    requires Ports.Visits(w.order, s) && Ports.Honest(w.probe, s)
    ensures var (t, r) := PortsAfter(s, req, w);
            && Ports.Partition(t, allowed)
            && (!r.Joined? ==> t.free == s.free && t.used == s.used)
            && (r.Joined? ==> r.port in s.free && t.free == s.free - {r.port} && t.used == s.used[r.port := req.name])
  {
    var (t, o) := Ports.Acquired(s, req.name, req.port, w.now, w.order, w.probe);
    Ports.StepKeepsPartition(s, Ports.Acquire(req.name, req.port, w.now, w.order, w.probe), allowed);
    if o.Err? {
      Ports.RefusalKeepsState(s, req.name, req.port, w.now, w.order, w.probe);
    } else {
      Ports.HonestGrantIsExclusive(s, allowed, req.name, req.port, w.now, w.order, w.probe);
      Ports.StepKeepsPartition(t, Ports.Release(o.port, w.now), allowed);
      assert t.used == s.used[o.port := req.name];
      assert s.used[o.port := req.name] - {o.port} == s.used;
    }
  }

  /** A first listener gets the port that the allocator grants exactly if listening on it works. */
  lemma OpensIff(s: Ports.State, req: Request, w: World)
    ensures var o := Ports.Acquired(s, req.name, req.port, w.now, w.order, w.probe).1;
            var r := PortsAfter(s, req, w).1;
            && (forall p :: r == Joined(p) <==> o == Ports.Ok(p) && w.listens)
            && (r == ListenError <==> o.Ok? && !w.listens)
            && (forall e :: r == PortError(e) <==> o == Ports.Err(e))
  {
  }

  // ---------- undisturbed calls as steps ----------

  /** The whole of `TCPGroup.Listen` on a group that is or is not the registered one. */
  ghost function Listened(ports: Ports.State, gr: Groups.Group, current: bool, i: Groups.Pid, req: Request, w: World)
    : (Ports.State, Groups.Group, Result)
  {
    if !current then (ports, gr, Stale)
    else if gr.lns == [] then
      var (t, r) := PortsAfter(ports, req, w);
      (t, if r.Joined? then gr.(params := Some(req), realPort := r.port, lns := [i], opens := gr.opens + 1) else gr, r)
    else
      var r := Admission(gr, req);
      (ports, if r.Joined? then gr.(lns := gr.lns + [i]) else gr, r)
  }

  /** A stale group is left alone. In a current one without members the first listener is in exactly
      if the allocator grants a port and listening on it works; then it is alone in a group that
      serves on that port and was opened as it asked. */
  lemma FirstListens(ports: Ports.State, gr: Groups.Group, i: Groups.Pid, req: Request, w: World)
    requires gr.lns == []
    ensures Listened(ports, gr, false, i, req, w) == (ports, gr, Stale)
    ensures var o := Ports.Acquired(ports, req.name, req.port, w.now, w.order, w.probe).1;
            var (_, h, r) := Listened(ports, gr, true, i, req, w);
            && (forall p :: r == Joined(p) <==> o == Ports.Ok(p) && w.listens)
            && (r.Joined? ==> h.lns == [i] && h.realPort == r.port && h.params == Some(req) && h.opens == gr.opens + 1
                              && h.home == gr.home && h.mu == gr.mu && h.chanCloses == gr.chanCloses)
            && (!r.Joined? ==> h == gr)
  {
    OpensIff(ports, req, w);
  }

  /** What a group with members says to another listener. */
  function Admission(gr: Groups.Group, req: Request): (r: Result)
    ensures r.Joined? <==> Groups.Compatible(gr, req)
  {
    if gr.params.None? || gr.params.value.group != req.group || gr.params.value.addr != req.addr then ParamsInvalid
    else if gr.params.value.port != req.port then DifferentPort
    else if gr.params.value.groupKey != req.groupKey then AuthFailed
    else Joined(gr.realPort)
  }

  /** In every run, what a group answers a further listener, in terms of what any of its members asked
      for: it joins on the group's port exactly if all four are the same, and otherwise learns the
      first that is not. */
  lemma AdmissionSays(allowed: set<int>, steps: seq<Groups.Step>, g: Groups.Gid, m: Groups.Pid, req: Request)
    requires g < |Groups.Exec(Groups.Init(allowed), steps).groups| && m in Groups.Exec(Groups.Init(allowed), steps).groups[g].lns
    ensures var s := Groups.Exec(Groups.Init(allowed), steps);
            && m < |s.proxies|
            && var (a, r) := (s.proxies[m].req, Admission(s.groups[g], req));
               && (r.Joined? <==> req.group == a.group && req.addr == a.addr && req.port == a.port && req.groupKey == a.groupKey)
               && (r.Joined? ==> r.port == s.groups[g].realPort)
               && (r == ParamsInvalid <==> req.group != a.group || req.addr != a.addr)
               && (r == DifferentPort <==> req.group == a.group && req.addr == a.addr && req.port != a.port)
               && (r == AuthFailed <==> req.group == a.group && req.addr == a.addr && req.port == a.port && req.groupKey != a.groupKey)
  {
    Groups.RunKeepsFitting(Groups.Init(allowed), steps);
    var s := Groups.Exec(Groups.Init(allowed), steps);
    assert Groups.Fits(s.proxies, s.groups[g], m);
  }

  function StageAfter(g: Groups.Gid, r: Result): Groups.Stage {
    match r
    case Joined(_) => Groups.Member(g)
    case Stale => Groups.Seeking
    case _ => Groups.Ended
  }

  /** `s` after proxy `i` and group `g` have moved on. */
  function At(s: Groups.State, i: Groups.Pid, g: Groups.Gid, st: Groups.Stage, gr: Groups.Group): Groups.State
    requires i < |s.proxies| && g < |s.groups|
  {
    s.(proxies := s.proxies[i := s.proxies[i].(stage := st)], groups := s.groups[g := gr])
  }

  lemma ExecOne(s: Groups.State, steps: seq<Groups.Step>)
    requires steps != []
    ensures Groups.Exec(s, steps) == Groups.Exec(Groups.Apply(s, steps[0]), steps[1..])
  {
  }

  function ListenSteps(i: Groups.Pid, w: World): seq<Groups.Step> {
    [Groups.Act(i, Groups.Enter), Groups.Act(i, Groups.AcquireForGroup(w.now, w.order, w.probe)),
     Groups.Act(i, Groups.ListenForGroup(w.listens, w.now))]
  }

  /** `t` is `s` after proxy `i` has tried to listen in group `g`, as `Listened` says. */
  ghost predicate HasListened(s: Groups.State, t: Groups.State, i: Groups.Pid, g: Groups.Gid, w: World)
    requires i < |s.proxies| && g < |s.groups|
  {
    var req := s.proxies[i].req;
    var (ports, gr, r) := Listened(s.ports, s.groups[g], Groups.Current(s, req.group, g), i, req, w);
    && t.ports == ports && t.registry == s.registry
    && t.groups == s.groups[g := gr] && t.proxies == s.proxies[i := s.proxies[i].(stage := StageAfter(g, r))]
  }

  /** A proxy that has found a group goes through the three steps of Listen, whichever of them are
      enabled, and comes out as `Listened` says; only it and its group have moved. */
  lemma ListenIsSteps(s: Groups.State, i: Groups.Pid, g: Groups.Gid, w: World)
    requires i < |s.proxies| && s.proxies[i].stage == Groups.Found(g) && g < |s.groups| && s.groups[g].mu.None?
    requires Groups.Fair(s, w.order, w.probe)
    ensures HasListened(s, Groups.Exec(s, ListenSteps(i, w)), i, g, w)
  {
    var a := ListenSteps(i, w);
    ExecOfThree(s, a[0], a[1], a[2]);
    if Groups.Current(s, s.proxies[i].req.group, g) && s.groups[g].lns == [] {
      EntersEmpty(s, i, g);
      FirstIsTwoSteps(s, Groups.Apply(s, a[0]), i, g, w);
    } else {
      OtherIsOneStep(s, Groups.Apply(s, a[0]), i, g, w);
    }
  }

  lemma OtherIsOneStep(s: Groups.State, h: Groups.State, i: Groups.Pid, g: Groups.Gid, w: World)
    requires i < |s.proxies| && s.proxies[i].stage == Groups.Found(g) && g < |s.groups| && s.groups[g].mu.None?
    requires !Groups.Current(s, s.proxies[i].req.group, g) || s.groups[g].lns != []
    requires h == Groups.Apply(s, ListenSteps(i, w)[0])
    ensures HasListened(s, Groups.Apply(Groups.Apply(h, ListenSteps(i, w)[1]), ListenSteps(i, w)[2]), i, g, w)
  {
    EnterIsAll(s, i, g);
    NoMoreToListen(h, i, Groups.AcquireForGroup(w.now, w.order, w.probe));
    NoMoreToListen(h, i, Groups.ListenForGroup(w.listens, w.now));
  }

  lemma EntersEmpty(s: Groups.State, i: Groups.Pid, g: Groups.Gid)
    requires i < |s.proxies| && s.proxies[i].stage == Groups.Found(g) && g < |s.groups| && s.groups[g].mu.None?
    requires Groups.Current(s, s.proxies[i].req.group, g) && s.groups[g].lns == []
    ensures Groups.Apply(s, Groups.Act(i, Groups.Enter)) == At(s, i, g, Groups.Holding(g), s.groups[g].(mu := Some(i)))
  {
  }

  lemma NoMoreToListen(s: Groups.State, i: Groups.Pid, act: Groups.Action)
    requires i < |s.proxies| && (act.AcquireForGroup? || act.ListenForGroup?)
    requires !s.proxies[i].stage.Holding? && !s.proxies[i].stage.Ported?
    ensures Groups.Apply(s, Groups.Act(i, act)) == s
  {
  }

  lemma ExecOfThree(s: Groups.State, a: Groups.Step, b: Groups.Step, c: Groups.Step)
    ensures Groups.Exec(s, [a, b, c]) == Groups.Apply(Groups.Apply(Groups.Apply(s, a), b), c)
  {
    ExecOne(s, [a, b, c]);
    ExecOne(Groups.Apply(s, a), [b, c]);
    ExecOne(Groups.Apply(Groups.Apply(s, a), b), [c]);
    assert [a, b, c][1..] == [b, c] && [b, c][1..] == [c] && [c][1..] == [];
  }

  /** A stale, a joining or an unfit proxy is done with its first step. */
  lemma EnterIsAll(s: Groups.State, i: Groups.Pid, g: Groups.Gid)
    requires i < |s.proxies| && s.proxies[i].stage == Groups.Found(g) && g < |s.groups| && s.groups[g].mu.None?
    requires !Groups.Current(s, s.proxies[i].req.group, g) || s.groups[g].lns != []
    ensures var r := if Groups.Current(s, s.proxies[i].req.group, g) then Admission(s.groups[g], s.proxies[i].req) else Stale;
            Groups.Apply(s, Groups.Act(i, Groups.Enter))
            == At(s, i, g, StageAfter(g, r), if r.Joined? then s.groups[g].(lns := s.groups[g].lns + [i]) else s.groups[g])
  {
    assert s.groups[g := s.groups[g]] == s.groups;
  }

  lemma FirstIsTwoSteps(s: Groups.State, h: Groups.State, i: Groups.Pid, g: Groups.Gid, w: World)
    requires i < |s.proxies| && g < |s.groups| && s.groups[g].mu.None? && Groups.Fair(s, w.order, w.probe)
    requires h == At(s, i, g, Groups.Holding(g), s.groups[g].(mu := Some(i)))
    ensures var req, gr := s.proxies[i].req, s.groups[g];
            var t := Groups.Apply(Groups.Apply(h, Groups.Act(i, Groups.AcquireForGroup(w.now, w.order, w.probe))),
                                  Groups.Act(i, Groups.ListenForGroup(w.listens, w.now)));
            var (ports, r) := PortsAfter(s.ports, req, w);
            && t.ports == ports && t.registry == s.registry
            && t.groups == s.groups[g := if r.Joined? then gr.(params := Some(req), realPort := r.port, lns := [i], opens := gr.opens + 1)
                                         else gr]
            && t.proxies == s.proxies[i := s.proxies[i].(stage := StageAfter(g, r))]
  {
    var req, gr := s.proxies[i].req, s.groups[g];
    var (ports, o) := Ports.Acquired(s.ports, req.name, req.port, w.now, w.order, w.probe);
    var t2 := Groups.Apply(h, Groups.Act(i, Groups.AcquireForGroup(w.now, w.order, w.probe)));
    assert gr.(mu := None) == gr;
    if o.Err? {
      assert t2.proxies[i].stage == Groups.Ended;
      assert t2.groups == s.groups[g := gr] && t2.ports == ports;
    } else {
      assert t2.proxies[i].stage == Groups.Ported(g, o.port) && t2.ports == ports;
    }
  }

  /** The whole of a listener's close. */
  ghost function Left(ports: Ports.State, registry: map<string, Groups.Gid>, gr: Groups.Group, g: Groups.Gid, i: Groups.Pid, now: int)
    : (Ports.State, map<string, Groups.Gid>, Groups.Group)
  {
    var lns := Without(gr.lns, i);
    if lns != [] then (ports, registry, gr.(lns := lns))
    else
      var name := Groups.GroupName(gr);
      (Ports.Released(ports, gr.realPort, now),
       if name in registry && registry[name] == g then registry - {name} else registry,
       gr.(lns := [], chanCloses := gr.chanCloses + 1, listenerCloses := gr.listenerCloses + 1, removed := true))
  }

  /** A member's close is its four steps. */
  lemma CloseIsSteps(s: Groups.State, i: Groups.Pid, g: Groups.Gid, now: int)
    requires i < |s.proxies| && s.proxies[i].stage == Groups.Member(g) && g < |s.groups| && s.groups[g].mu.None?
    ensures var t := Groups.Exec(s, [Groups.Act(i, Groups.BeginClose), Groups.Act(i, Groups.Leave),
                                     Groups.Act(i, Groups.ReleaseForGroup(now)), Groups.Act(i, Groups.RemoveIf)]);
            var (ports, registry, gr) := Left(s.ports, s.registry, s.groups[g], g, i, now);
            && t.ports == ports && t.registry == registry
            && t.groups == s.groups[g := gr] && t.proxies == s.proxies[i := s.proxies[i].(stage := Groups.Ended)]
  {
    var a, b := Groups.Act(i, Groups.BeginClose), Groups.Act(i, Groups.Leave);
    var c, d := Groups.Act(i, Groups.ReleaseForGroup(now)), Groups.Act(i, Groups.RemoveIf);
    ExecOne(s, [a, b, c, d]);
    assert [a, b, c, d][1..] == [b, c, d];
    ExecOfThree(Groups.Apply(s, a), b, c, d);
    LeaveIsTwoSteps(s, i, g);
    if Without(s.groups[g].lns, i) == [] {
      LastIsTwoSteps(s, Groups.Apply(Groups.Apply(s, a), b), i, g, now);
    } else {
      EndedStays(Groups.Apply(Groups.Apply(s, a), b), i, c.act);
      EndedStays(Groups.Apply(Groups.Apply(s, a), b), i, d.act);
    }
  }

  lemma EndedStays(s: Groups.State, i: Groups.Pid, act: Groups.Action)
    requires i < |s.proxies| && s.proxies[i].stage == Groups.Ended
    ensures Groups.Apply(s, Groups.Act(i, act)) == s
  {
  }

  lemma LeaveIsTwoSteps(s: Groups.State, i: Groups.Pid, g: Groups.Gid)
    requires i < |s.proxies| && s.proxies[i].stage == Groups.Member(g) && g < |s.groups| && s.groups[g].mu.None?
    ensures var gr := s.groups[g];
            var lns := Without(gr.lns, i);
            Groups.Apply(Groups.Apply(s, Groups.Act(i, Groups.BeginClose)), Groups.Act(i, Groups.Leave))
            == if lns != [] then At(s, i, g, Groups.Ended, gr.(lns := lns))
               else At(s, i, g, Groups.LastOut(g), gr.(lns := [], mu := Some(i), chanCloses := gr.chanCloses + 1,
                                                       listenerCloses := gr.listenerCloses + 1))
  {
    var t := Groups.Apply(s, Groups.Act(i, Groups.BeginClose));
    assert t == s.(proxies := s.proxies[i := s.proxies[i].(stage := Groups.Leaving(g))]);
  }

  lemma LastIsTwoSteps(s: Groups.State, h: Groups.State, i: Groups.Pid, g: Groups.Gid, now: int)
    requires i < |s.proxies| && g < |s.groups| && s.groups[g].mu.None? && Without(s.groups[g].lns, i) == []
    requires var gr := s.groups[g];
             h == At(s, i, g, Groups.LastOut(g), gr.(lns := [], mu := Some(i), chanCloses := gr.chanCloses + 1,
                                                     listenerCloses := gr.listenerCloses + 1))
    ensures var t := Groups.Apply(Groups.Apply(h, Groups.Act(i, Groups.ReleaseForGroup(now))), Groups.Act(i, Groups.RemoveIf));
            var (ports, registry, gr) := Left(s.ports, s.registry, s.groups[g], g, i, now);
            && t.ports == ports && t.registry == registry
            && t.groups == s.groups[g := gr] && t.proxies == s.proxies[i := s.proxies[i].(stage := Groups.Ended)]
  {
    var t3 := Groups.Apply(h, Groups.Act(i, Groups.ReleaseForGroup(now)));
    assert t3.proxies[i].stage == Groups.Unlisting(g) && t3.groups == h.groups;
  }

  lemma AcquiresAlone(s: Groups.State, i: Groups.Pid, w: World)
    requires i < |s.proxies| && s.proxies[i].stage == Groups.Wanting && Groups.Fair(s, w.order, w.probe)
    ensures var req := s.proxies[i].req;
            var (ports, o) := Ports.Acquired(s.ports, req.name, req.port, w.now, w.order, w.probe);
            var t := Groups.Apply(s, Groups.Act(i, Groups.AcquireAlone(w.now, w.order, w.probe)));
            && t.ports == ports && t.registry == s.registry && t.groups == s.groups
            && t.proxies == s.proxies[i := s.proxies[i].(stage := if o.Ok? then Groups.HasPort(o.port) else Groups.Ended)]
  {
  }

  lemma ListensAlone(s: Groups.State, i: Groups.Pid, p: int, ok: bool, now: int)
    requires i < |s.proxies| && s.proxies[i].stage == Groups.HasPort(p)
    ensures var t := Groups.Apply(s, Groups.Act(i, Groups.ListenAlone(ok, now)));
            && t.ports == (if ok then s.ports else Ports.Released(s.ports, p, now)) && t.registry == s.registry && t.groups == s.groups
            && t.proxies == s.proxies[i := s.proxies[i].(stage := if ok then Groups.Serving(p) else Groups.Ended)]
  {
  }

  /** A proxy on its own runs by its steps. */
  lemma RunIsSteps(s: Groups.State, i: Groups.Pid, w: World)
    requires i < |s.proxies| && s.proxies[i].stage == Groups.Wanting && Groups.Fair(s, w.order, w.probe)
    ensures var t := Groups.Apply(Groups.Apply(s, Groups.Act(i, Groups.AcquireAlone(w.now, w.order, w.probe))),
                                  Groups.Act(i, Groups.ListenAlone(w.listens, w.now)));
            var (ports, r) := PortsAfter(s.ports, s.proxies[i].req, w);
            && t.ports == ports && t.registry == s.registry && t.groups == s.groups
            && t.proxies == s.proxies[i := s.proxies[i].(stage := if r.Joined? then Groups.Serving(r.port) else Groups.Ended)]
  {
    AcquiresAlone(s, i, w);
    var h := Groups.Apply(s, Groups.Act(i, Groups.AcquireAlone(w.now, w.order, w.probe)));
    if h.proxies[i].stage.HasPort? {
      ListensAlone(h, i, h.proxies[i].stage.p, w.listens, w.now);
    } else {
      EndedStays(h, i, Groups.ListenAlone(w.listens, w.now));
    }
  }

  // ---------- the objects ----------

  /** Acquires a port and listens on it; the port goes back if listening fails. */
  method OpenPort(pm: Ports.Manager, req: Request, w: World) returns (r: Result)
    requires pm.Valid() && Ports.Visits(w.order, pm.Model)
    modifies pm, pm.usedPorts.Values
    ensures pm.Valid()
    ensures (pm.Model, r) == PortsAfter(old(pm.Model), req, w)
    ensures r != Stale
  {
    var o := pm.Acquire(req.name, req.port, w.now, w.order, w.probe);
    if o.Err? {
      return PortError(o.error);
    }
    if !w.listens {
      pm.Release(o.port, w.now);
      return ListenError;
    }
    return Joined(o.port);
  }

  class RealListener {
    var closes: nat

    constructor ()
      ensures closes == 0
    {
      closes := 0;
    }

    method Close()
      modifies this
      ensures closes == old(closes) + 1
    {
      closes := closes + 1;
    }
  }

  class GroupCtl {
    var groups: map<string, TCPGroup>
    const portManager: Ports.Manager

    constructor (pm: Ports.Manager)
      ensures portManager == pm && groups == map[]
    {
      portManager := pm;
      groups := map[];
    }

    /** The groups by the numbers they have in `Groups`. */
    ghost function Registry(): map<string, Groups.Gid>
      reads this
    {
      map k | k in groups :: groups[k].id
    }

    method GetOrCreate(key: string, fresh': Groups.Gid) returns (g: TCPGroup)
      modifies this
      ensures key in groups && groups[key] == g
      ensures key in old(groups) ==> groups == old(groups)
      ensures key !in old(groups) ==> groups == old(groups)[key := g] && fresh(g) && g.ctl == this && g.id == fresh'
      ensures key !in old(groups) ==> g.Valid() && g.Model == Groups.Group(key, None, 0, [], None, 0, 0, 0, false)
    {
      if key !in groups {
        g := new TCPGroup(this, fresh', key);
        groups := groups[key := g];
      }
      g := groups[key];
    }

    predicate IsCurrent(key: string, g: TCPGroup)
      reads this
    {
      key in groups && groups[key] == g
    }

    method RemoveIf(key: string, g: TCPGroup)
      modifies this
      ensures groups == if old(IsCurrent(key, g)) then old(groups) - {key} else old(groups)
      ensures Registry() == if old(IsCurrent(key, g)) then old(Registry()) - {key} else old(Registry())
    {
      if key in groups && groups[key] == g {
        groups := groups - {key};
      }
    }

    /** With nobody in between, the group found is never stale. */
    method Listen(req: Request, w: World, i: Groups.Pid, fresh': Groups.Gid) returns (g: TCPGroup, ln: Listener?, r: Result)
      requires portManager.Valid() && Ports.Visits(w.order, portManager.Model)
      requires req.group in groups ==>
                 && groups[req.group].ctl == this && groups[req.group].Valid() && i !in groups[req.group].Model.lns
      modifies this, portManager, portManager.usedPorts.Values
      modifies if req.group in groups then {groups[req.group]} else {}
      ensures portManager.Valid() && g.Valid() && r != Stale
      ensures req.group in groups && groups[req.group] == g && g.ctl == this
      ensures forall k :: k in old(groups) ==> k in groups && groups[k] == old(groups)[k]
      ensures var gr := if req.group in old(groups) then old(groups[req.group].Model)
                        else Groups.Group(req.group, None, 0, [], None, 0, 0, 0, false);
              (portManager.Model, g.Model, r) == Listened(old(portManager.Model), gr, true, i, req, w)
      ensures ln != null <==> r.Joined?
      ensures ln != null ==> g.lns != [] && g.lns[|g.lns| - 1] == ln && !ln.closed && ln.id == i
    {
      g := GetOrCreate(req.group, fresh');
      ln, r := g.Listen(req, w, i);
    }
  }

  class Listener {
    const g: TCPGroup
    const id: Groups.Pid
    var closed: bool

    constructor (g: TCPGroup, id: Groups.Pid)
      ensures this.g == g && this.id == id && !closed
    {
      this.g := g;
      this.id := id;
      closed := false;
    }

    /** Only the first call does anything. */
    method Close(now: int)
      requires g.Valid() && (!closed ==> this in g.lns && g.realLn != null)
      requires g.ctl.portManager.Valid()
      modifies this, g, g.realLn, g.ctl, g.ctl.portManager, g.ctl.portManager.usedPorts.Values
      ensures closed && g.Valid() && g.ctl.portManager.Valid()
      ensures old(closed) ==>
                && g.lns == old(g.lns) && g.Model == old(g.Model)
                && g.ctl.groups == old(g.ctl.groups) && g.ctl.portManager.Model == old(g.ctl.portManager.Model)
      ensures !old(closed) ==>
                && g.lns == Without(old(g.lns), this)
                && (g.ctl.portManager.Model, g.Model) == old(g.LeftValue(id, now))
                && (g.lns == [] ==> !g.ctl.IsCurrent(g.group, g))
                && (g.lns != [] ==> g.ctl.groups == old(g.ctl.groups))
    {
      if !closed {
        closed := true;
        g.CloseListener(this, now);
      }
    }
  }

  ghost predicate HaveIds(lns: seq<Listener>, ids: seq<Groups.Pid>) {
    |lns| == |ids| && forall k :: 0 <= k < |lns| ==> lns[k].id == ids[k]
  }

  lemma HaveIdsInFront(ln: Listener, lns: seq<Listener>, ids: seq<Groups.Pid>)
    requires HaveIds(lns, ids)
    ensures HaveIds([ln] + lns, [ln.id] + ids)
  {
  }

  lemma LaterHasOtherId(lns: seq<Listener>, ids: seq<Groups.Pid>, ln: Listener)
    requires HaveIds(lns, ids) && Distinct(ids) && ln in lns && lns[0] != ln
    ensures ids[0] != ln.id && ln in lns[1..]
  {
    var j :| 0 <= j < |lns| && lns[j] == ln;
    assert ids[j] == ln.id && lns[1..][j - 1] == ln;
  }

  /** Taking a listener out by identity takes its number out of the list of numbers. */
  lemma {:induction false} WithoutIds(lns: seq<Listener>, ids: seq<Groups.Pid>, ln: Listener)
    requires HaveIds(lns, ids) && Distinct(ids) && ln in lns
    ensures HaveIds(Without(lns, ln), Without(ids, ln.id))
  {
    if lns[0] != ln {
      LaterHasOtherId(lns, ids, ln);
      WithoutIds(lns[1..], ids[1..], ln);
      HaveIdsInFront(lns[0], Without(lns[1..], ln), Without(ids[1..], ln.id));
    }
  }

  class TCPGroup {
    const ctl: GroupCtl
    const id: Groups.Gid
    var group: string
    var groupKey: string
    var addr: string
    var port: int
    var realPort: int
    var realLn: RealListener?
    var lns: seq<Listener>
    /** How often an accept channel of this group was closed. */
    var chanCloses: nat
    /** The group's value in `Groups`; its mutex is free whenever no method runs. */
    ghost var Model: Groups.Group

    ghost predicate Valid()
      reads this
    {
      && HaveIds(lns, Model.lns) && Distinct(Model.lns)
      && realPort == Model.realPort && chanCloses == Model.chanCloses && Model.mu == None
      && group == Groups.GroupName(Model)
      && (lns != [] ==> Model.params.Some? && FieldsAre(Model.params.value))
    }

    ghost predicate FieldsAre(req: Request)
      reads this
    {
      group == req.group && groupKey == req.groupKey && addr == req.addr && port == req.port
    }

    constructor (ctl: GroupCtl, id: Groups.Gid, home: string)
      ensures this.ctl == ctl && this.id == id && Valid() && realLn == null
      ensures Model == Groups.Group(home, None, 0, [], None, 0, 0, 0, false)
    {
      this.ctl, this.id := ctl, id;
      group, groupKey, addr, port, realPort := "", "", "", 0, 0;
      realLn, lns, chanCloses := null, [], 0;
      Model := Groups.Group(home, None, 0, [], None, 0, 0, 0, false);
    }

    method Listen(req: Request, w: World, i: Groups.Pid) returns (ln: Listener?, r: Result)
      requires Valid() && i !in Model.lns
      requires ctl.portManager.Valid() && Ports.Visits(w.order, ctl.portManager.Model)
      modifies this, ctl.portManager, ctl.portManager.usedPorts.Values
      ensures Valid() && ctl.portManager.Valid()
      ensures (ctl.portManager.Model, Model, r)
              == Listened(old(ctl.portManager.Model), old(Model), ctl.IsCurrent(req.group, this), i, req, w)
      ensures ln != null <==> r.Joined?
      ensures ln != null ==> fresh(ln) && ln.g == this && ln.id == i && !ln.closed && lns == old(lns) + [ln]
      ensures ln != null && old(lns) == [] ==> realLn != null && fresh(realLn) && realLn.closes == 0
      ensures ln == null || old(lns) != [] ==> realLn == old(realLn)
    {
      if !ctl.IsCurrent(req.group, this) {
        return null, Stale;
      }
      if |lns| == 0 {
        ln, r := FirstListen(req, w, i);
      } else {
        ln, r := LaterListen(req, i);
      }
    }

    /** The first listener listens on the real address. */
    method FirstListen(req: Request, w: World, i: Groups.Pid) returns (ln: Listener?, r: Result)
      requires Valid() && lns == []
      requires ctl.portManager.Valid() && Ports.Visits(w.order, ctl.portManager.Model)
      modifies this, ctl.portManager, ctl.portManager.usedPorts.Values
      ensures Valid() && ctl.portManager.Valid()
      ensures (ctl.portManager.Model, Model, r) == Listened(old(ctl.portManager.Model), old(Model), true, i, req, w)
      ensures ln != null <==> r.Joined?
      ensures ln != null ==> fresh(ln) && ln.g == this && ln.id == i && !ln.closed && lns == [ln]
      ensures ln != null ==> realLn != null && fresh(realLn) && realLn.closes == 0
      ensures ln == null ==> lns == [] && realLn == old(realLn)
    {
      r := OpenPort(ctl.portManager, req, w);
      if !r.Joined? {
        return null, r;
      }
      ln := Open(req, r.port, i);
    }

    method Open(req: Request, p: int, i: Groups.Pid) returns (ln: Listener)
      requires Valid() && lns == []
      modifies this
      ensures Valid() && Model == old(Model).(params := Some(req), realPort := p, lns := [i], opens := old(Model).opens + 1)
      ensures fresh(ln) && ln.g == this && ln.id == i && !ln.closed && lns == [ln]
      ensures realLn != null && fresh(realLn) && realLn.closes == 0
    {
      addr, port, realPort := req.addr, req.port, p;
      InitBase(req.group, req.groupKey);
      Model := Model.(params := Some(req), realPort := p, opens := Model.opens + 1);
      ln := NewListener(i);
    }

    /** Address, port and key have to be those of the group. */
    method LaterListen(req: Request, i: Groups.Pid) returns (ln: Listener?, r: Result)
      requires Valid() && lns != [] && i !in Model.lns
      modifies this`lns, this`Model
      ensures Valid() && r == Admission(old(Model), req)
      ensures Model == if r.Joined? then old(Model).(lns := old(Model).lns + [i]) else old(Model)
      ensures ln != null <==> r.Joined?
      ensures ln != null ==> fresh(ln) && ln.g == this && ln.id == i && !ln.closed && lns == old(lns) + [ln]
    {
      if group != req.group || addr != req.addr {
        return null, ParamsInvalid;
      }
      if port != req.port {
        return null, DifferentPort;
      }
      if groupKey != req.groupKey {
        return null, AuthFailed;
      }
      ln := NewListener(i);
      r := Joined(realPort);
    }

    method InitBase(group: string, groupKey: string)
      modifies this`group, this`groupKey, this`realLn
      ensures this.group == group && this.groupKey == groupKey && realLn != null && fresh(realLn) && realLn.closes == 0
    {
      this.group, this.groupKey := group, groupKey;
      realLn := new RealListener();
    }

    method NewListener(i: Groups.Pid) returns (ln: Listener)
      requires i !in Model.lns
      modifies this`lns, this`Model
      ensures fresh(ln) && ln.g == this && ln.id == i && !ln.closed && lns == old(lns) + [ln]
      ensures Model == old(Model).(lns := old(Model).lns + [i])
      ensures Distinct(old(Model).lns) ==> Distinct(Model.lns)
    {
      ln := new Listener(this, i);
      lns := lns + [ln];
      AppendNew(Model.lns, i);
      Model := Model.(lns := Model.lns + [i]);
    }

    /** Ports and group after a listener is closed. */
    ghost function LeftValue(i: Groups.Pid, now: int): (Ports.State, Groups.Group)
      reads this, ctl, ctl.portManager
    {
      var (ports, _, gr) := Left(ctl.portManager.Model, map[], Model, id, i, now);
      (ports, gr)
    }

    method CloseListener(ln: Listener, now: int)
      requires Valid() && ln in lns && realLn != null && ctl.portManager.Valid()
      modifies this`lns, this`chanCloses, this`Model, realLn, ctl, ctl.portManager, ctl.portManager.usedPorts.Values
      ensures Valid() && ctl.portManager.Valid()
      ensures lns == Without(old(lns), ln)
      ensures (ctl.portManager.Model, Model) == old(LeftValue(ln.id, now))
      ensures realLn.closes == old(realLn.closes) + if lns == [] then 1 else 0
      ensures ctl.groups == if lns == [] && old(ctl.IsCurrent(group, this)) then old(ctl.groups) - {group} else old(ctl.groups)
    {
      RemoveListener(ln);
      if |lns| == 0 {
        Shut();
        Cleanup(now);
      }
    }

    /** Closes the accept channel and the real listener. */
    method Shut()
      requires Valid() && lns == [] && realLn != null
      modifies this`chanCloses, this`Model, realLn
      ensures Valid() && realLn.closes == old(realLn.closes) + 1
      ensures var m := old(Model);
              Model == m.(chanCloses := m.chanCloses + 1, listenerCloses := m.listenerCloses + 1, removed := true)
    {
      chanCloses := chanCloses + 1;
      Model := Model.(chanCloses := Model.chanCloses + 1, listenerCloses := Model.listenerCloses + 1, removed := true);
      realLn.Close();
    }

    /** `cleanupFn`. */
    method Cleanup(now: int)
      requires ctl.portManager.Valid()
      modifies ctl, ctl.portManager, ctl.portManager.usedPorts.Values
      ensures ctl.portManager.Valid() && ctl.portManager.Model == Ports.Released(old(ctl.portManager.Model), realPort, now)
      ensures ctl.groups == if old(ctl.IsCurrent(group, this)) then old(ctl.groups) - {group} else old(ctl.groups)
    {
      ctl.portManager.Release(realPort, now);
      ctl.RemoveIf(group, this);
    }

    method RemoveListener(ln: Listener)
      requires Valid() && ln in lns
      modifies this`lns, this`Model
      ensures Valid() && lns == Without(old(lns), ln) && Model == old(Model).(lns := Without(old(Model).lns, ln.id))
    {
      WithoutIds(lns, Model.lns, ln);
      WithoutDrops(Model.lns, ln.id);
      Take(ln);
      Model := Model.(lns := Without(Model.lns, ln.id));
    }

    method Take(ln: Listener)
      modifies this`lns
      ensures lns == Without(old(lns), ln)
    {
      for i := 0 to |lns|
        invariant lns == old(lns)
        invariant Without(lns, ln) == lns[..i] + Without(lns[i..], ln)
      {
        WithoutFrom(lns, ln, i);
        if lns[i] == ln {
          lns := lns[..i] + lns[i + 1..];
          return;
        }
      }
    }
  }

  /** A TCP proxy outside any group. */
  class TCPProxy {
    const name: string
    var realBindPort: int
    var listening: bool

    constructor (name: string)
      ensures this.name == name && !listening
    {
      this.name := name;
      realBindPort, listening := 0, false;
    }

    method Run(pm: Ports.Manager, remotePort: int, w: World) returns (r: Result)
      requires pm.Valid() && Ports.Visits(w.order, pm.Model)
      modifies this, pm, pm.usedPorts.Values
      ensures pm.Valid()
      ensures (pm.Model, r) == PortsAfter(old(pm.Model), Groups.Request(name, "", "", "", remotePort), w)
      ensures r.Joined? ==> listening && realBindPort == r.port
      ensures !r.Joined? ==> listening == old(listening)
    {
      r := OpenPort(pm, Groups.Request(name, "", "", "", remotePort), w);
      if r.Joined? {
        realBindPort, listening := r.port, true;
      }
    }

    method Close(pm: Ports.Manager, now: int)
      requires pm.Valid()
      modifies this, pm, pm.usedPorts.Values
      ensures pm.Valid() && !listening
      ensures pm.Model == Ports.Released(old(pm.Model), old(realBindPort), now)
    {
      listening := false;
      pm.Release(realBindPort, now);
    }
  }
}
