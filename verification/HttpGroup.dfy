/** HTTP load-balancing groups (server/group/http.go): members that share one route, how groups
    come and go under concurrent Register and UnRegister, and the turn each member gets.

    A step is one critical section of the registry, of the router or of a group's mutex, as in
    `Groups`; who holds a group's mutex across several of them is written down in the group. */
module HttpGroup {
  import opened Sequences
  import opened Int64

  // Names, keys, routes and callbacks are only compared; numbers stand for them.
  type Name = nat
  type Route = nat
  type Fn = nat

  /** Stands for the empty proxy name. */
  const NO_NAME: Name := 0

  datatype Result = Joined | Stale | RouteTaken | ParamsInvalid | AuthFailed | Repeated

  /** What the holder of a group's mutex is about to do. */
  datatype Mutex =
    | Free
    | Routing(p: Name, key: Name, route: Route, f: Fn)  // first member: about to add the route
    | Filling(p: Name, key: Name, route: Route, f: Fn)  // route added: about to become a member
    | LastOut                                           // took the last member out: about to delete the route
    | Unlisting                                         // route deleted: about to leave the registry

  /** A group object; `slot` is the name under which the registry made it. */
  datatype Group = Group(slot: Name, key: Name, route: Route, names: seq<Name>, funcs: map<Name, Fn>, mu: Mutex)

  function WithMember(g: Group, p: Name, f: Fn): Group {
    g.(names := g.names + [p], funcs := g.funcs[p := f])
  }

  function WithoutMember(g: Group, p: Name): Group {
    g.(names := Without(g.names, p), funcs := g.funcs - {p})
  }

  /** What a group with members says to another Register. */
  function Admission(g: Group, p: Name, key: Name, route: Route): Result {
    if g.route != route then ParamsInvalid
    else if g.key != key then AuthFailed
    else if p in g.funcs then Repeated
    else Joined
  }

  /** The list has every key of the map once. */
  ghost predicate Agree(g: Group) {
    Distinct(g.names) && (forall n :: n in g.names <==> n in g.funcs)
  }

  lemma JoinAgrees(g: Group, p: Name, f: Fn)
    requires Agree(g) && p !in g.funcs
    ensures Agree(WithMember(g, p, f))
  {
  }

  lemma LeaveAgrees(g: Group, p: Name)
    requires Agree(g)
    ensures Agree(WithoutMember(g, p))
  {
    WithoutDrops(g.names, p);
    var t := WithoutMember(g, p);
    assert forall n :: n in t.names ==> n in g.names;
    assert forall n :: n in g.names && n != p ==> n in t.names;
  }

  lemma NamedIffCalled(g: Group)
    requires Agree(g)
    ensures g.names != [] <==> g.funcs != map[]
  {
    if g.names != [] {
      assert g.names[0] in g.funcs;
    }
    if g.funcs != map[] {
      var n :| n in g.funcs;
      assert n in g.names;
    }
  }

  // ---------- every interleaving ----------

  datatype Owner = ByGroup(id: nat) | ByOther

  datatype Found = Missing | Here(id: nat)

  /** The registry and the router, the group objects, who joined what, and the UnRegister calls
      under way with the group they found. */
  datatype State = State(
    groups: map<Name, nat>, objs: seq<Group>, router: map<Route, Owner>,
    joined: map<(Name, Name), nat>, leaving: map<(Name, Name), Found>,
    asked: map<(Name, Name), (Name, Route)>)  // the key and the route that who joined asked for

  datatype Action =
    | Create(name: Name, key: Name, route: Route)  // getOrCreate on a missing name; key and route are not set yet
    | Join(id: nat, p: Name, key: Name, route: Route, f: Fn)
    | AddRoute(id: nat)
    | Fill(id: nat)
    | LeaveGet(p: Name, name: Name)
    | Leave(p: Name, name: Name)
    | DelRoute(id: nat)
    | Unlist(id: nat)
    | OtherAdd(route: Route)
    | OtherDel(route: Route)

  /** A Register call may hold any group it was ever given, however old; UnRegister follows a
      successful Register of that proxy in that group, once. */
  predicate Can(s: State, a: Action) {
    match a
    case Create(name, _, _) => name !in s.groups
    case Join(id, _, _, _, _) => id < |s.objs| && s.objs[id].mu.Free?
    case AddRoute(id) => id < |s.objs| && s.objs[id].mu.Routing?
    case Fill(id) => id < |s.objs| && s.objs[id].mu.Filling?
    case LeaveGet(p, name) => (p, name) in s.joined && (p, name) !in s.leaving
    case Leave(p, name) =>
      && (p, name) in s.leaving
      && (s.leaving[(p, name)].Here? ==> s.leaving[(p, name)].id < |s.objs| && s.objs[s.leaving[(p, name)].id].mu.Free?)
    case DelRoute(id) => id < |s.objs| && s.objs[id].mu.LastOut?
    case Unlist(id) => id < |s.objs| && s.objs[id].mu.Unlisting?
    case OtherAdd(route) => route !in s.router
    case OtherDel(route) => route in s.router && s.router[route] == ByOther
  }

  predicate Current(s: State, id: nat)
    requires id < |s.objs|
  {
    s.objs[id].slot in s.groups && s.groups[s.objs[id].slot] == id
  }

  function WithGroup(s: State, id: nat, g: Group): State
    requires id < |s.objs|
  {
    s.(objs := s.objs[id := g])
  }

  function Joining(s: State, id: nat, p: Name, key: Name, route: Route, f: Fn): State
    requires id < |s.objs|
  {
    var g := s.objs[id];
    if !Current(s, id) then s
    else if g.funcs == map[] then WithGroup(s, id, g.(mu := Routing(p, key, route, f)))
    else if Admission(g, p, key, route) != Joined then s
    else
      WithGroup(s, id, WithMember(g, p, f))
      .(joined := s.joined[(p, g.slot) := id], asked := s.asked[(p, g.slot) := (key, route)])
  }

  function Filled(s: State, id: nat): State
    requires id < |s.objs| && s.objs[id].mu.Filling?
  {
    var g := s.objs[id];
    var m := g.mu;
    WithGroup(s, id, WithMember(g.(key := m.key, route := m.route, mu := Free), m.p, m.f))
    .(joined := s.joined[(m.p, g.slot) := id], asked := s.asked[(m.p, g.slot) := (m.key, m.route)])
  }

  function Leaving(s: State, p: Name, name: Name): State
    requires Can(s, Leave(p, name))
  {
    var r := s.(leaving := s.leaving - {(p, name)}, joined := s.joined - {(p, name)}, asked := s.asked - {(p, name)});
    match s.leaving[(p, name)]
    case Missing => r
    case Here(id) =>
      var g := WithoutMember(s.objs[id], p);
      WithGroup(r, id, if g.funcs == map[] then g.(mu := LastOut) else g)
  }

  function Apply(s: State, a: Action): State
    requires Can(s, a)
  {
    match a
    case Create(name, key, route) =>
      s.(groups := s.groups[name := |s.objs|], objs := s.objs + [Group(name, key, route, [], map[], Free)])
    case Join(id, p, key, route, f) => Joining(s, id, p, key, route, f)
    case AddRoute(id) =>
      var g := s.objs[id];
      var m := g.mu;
      if m.route in s.router then WithGroup(s, id, g.(mu := Free))
      else WithGroup(s, id, g.(mu := Filling(m.p, m.key, m.route, m.f))).(router := s.router[m.route := ByGroup(id)])
    case Fill(id) => Filled(s, id)
    case LeaveGet(p, name) =>
      s.(leaving := s.leaving[(p, name) := if name in s.groups then Here(s.groups[name]) else Missing])
    case Leave(p, name) => Leaving(s, p, name)
    case DelRoute(id) =>
      WithGroup(s, id, s.objs[id].(mu := Unlisting)).(router := s.router - {s.objs[id].route})
    case Unlist(id) =>
      WithGroup(s, id, s.objs[id].(mu := Free))
      .(groups := if Current(s, id) then s.groups - {s.objs[id].slot} else s.groups)
    case OtherAdd(route) => s.(router := s.router[route := ByOther])
    case OtherDel(route) => s.(router := s.router - {route})
  }

  // ---------- what every step keeps ----------

  /** The group's own route is in the router: while it has members, and while the holder of its
      mutex has added or not yet deleted it. */
  predicate Shows(g: Group, r: Route) {
    if g.funcs != map[] || g.mu.LastOut? then r == g.route
    else g.mu.Filling? && r == g.mu.route
  }

  ghost predicate GroupOk(g: Group) {
    Agree(g) && (!g.mu.Free? ==> g.funcs == map[])
  }

  /** A group with members, or with its mutex held across steps, is the registered one of its name. */
  ghost predicate Sound(s: State) {
    && (forall n :: n in s.groups ==> s.groups[n] < |s.objs| && s.objs[s.groups[n]].slot == n)
    && (forall id :: 0 <= id < |s.objs| ==>
          GroupOk(s.objs[id]) && (s.objs[id].funcs != map[] || !s.objs[id].mu.Free? ==> Current(s, id)))
  }

  ghost predicate Routed(s: State) {
    && (forall id, r :: 0 <= id < |s.objs| && Shows(s.objs[id], r) ==> r in s.router && s.router[r] == ByGroup(id))
    && (forall r :: r in s.router && s.router[r].ByGroup? ==>
          s.router[r].id < |s.objs| && Shows(s.objs[s.router[r].id], r))
  }

  /** Who joined is a member, and an UnRegister under way has found the group to leave. */
  ghost predicate Tracked(s: State) {
    && (forall k :: k in s.joined ==>
          s.joined[k] < |s.objs| && s.objs[s.joined[k]].slot == k.1 && k.0 in s.objs[s.joined[k]].funcs)
    && (forall id, p :: 0 <= id < |s.objs| && p in s.objs[id].funcs ==>
          (p, s.objs[id].slot) in s.joined && s.joined[(p, s.objs[id].slot)] == id)
    && (forall k :: k in s.leaving ==> k in s.joined && s.leaving[k] == Here(s.joined[k]))
  }

  ghost predicate Inv(s: State) {
    Sound(s) && Routed(s) && Tracked(s)
  }

  /** A step on one group that leaves the registry alone. */
  lemma GroupStepSound(s: State, t: State, id: nat, g: Group)
    requires Sound(s) && id < |s.objs| && t.groups == s.groups && t.objs == s.objs[id := g]
    requires g.slot == s.objs[id].slot && GroupOk(g) && (g.funcs != map[] || !g.mu.Free? ==> Current(s, id))
    ensures Sound(t)
  {
    forall k | 0 <= k < |t.objs|
      ensures GroupOk(t.objs[k]) && (t.objs[k].funcs != map[] || !t.objs[k].mu.Free? ==> Current(t, k))
    {
      assert t.objs[k].slot == s.objs[k].slot;
    }
  }

  /** A step on one group that shows what it showed. */
  lemma GroupStepRouted(s: State, t: State, id: nat, g: Group)
    requires Routed(s) && id < |s.objs| && t.router == s.router && t.objs == s.objs[id := g]
    requires forall r :: Shows(g, r) <==> Shows(s.objs[id], r)
    ensures Routed(t)
  {
    forall k, r | 0 <= k < |t.objs| && Shows(t.objs[k], r) ensures r in t.router && t.router[r] == ByGroup(k) {
      assert Shows(s.objs[k], r);
    }
  }

  /** A step on one group that keeps its members. */
  lemma GroupStepTracked(s: State, t: State, id: nat, g: Group)
    requires Tracked(s) && id < |s.objs| && t.objs == s.objs[id := g] && t.joined == s.joined && t.leaving == s.leaving
    requires g.slot == s.objs[id].slot && g.funcs == s.objs[id].funcs
    ensures Tracked(t)
  {
    forall j, q | 0 <= j < |t.objs| && q in t.objs[j].funcs
      ensures (q, t.objs[j].slot) in t.joined && t.joined[(q, t.objs[j].slot)] == j
    {
      assert q in s.objs[j].funcs && t.objs[j].slot == s.objs[j].slot;
    }
  }

  lemma JoinedTracked(s: State, t: State, id: nat, g: Group, p: Name, f: Fn)
    requires Tracked(s) && id < |s.objs| && (p, s.objs[id].slot) !in s.joined && t.objs == s.objs[id := g]
    requires g.slot == s.objs[id].slot && g.funcs == s.objs[id].funcs[p := f]
    requires t.joined == s.joined[(p, s.objs[id].slot) := id] && t.leaving == s.leaving
    ensures Tracked(t)
  {
    forall k | k in t.joined
      ensures t.joined[k] < |t.objs| && t.objs[t.joined[k]].slot == k.1 && k.0 in t.objs[t.joined[k]].funcs
    {
      assert k in s.joined ==> t.joined[k] == s.joined[k];
    }
    forall j, q | 0 <= j < |t.objs| && q in t.objs[j].funcs
      ensures (q, t.objs[j].slot) in t.joined && t.joined[(q, t.objs[j].slot)] == j
    {
      assert t.objs[j].slot == s.objs[j].slot;
    }
  }

  /** Nobody joins a group twice, however many objects its name had. */
  lemma JoinedIsNew(s: State, id: nat, p: Name)
    requires Sound(s) && Tracked(s) && id < |s.objs| && Current(s, id) && p !in s.objs[id].funcs
    ensures (p, s.objs[id].slot) !in s.joined
  {
    var k := (p, s.objs[id].slot);
    assert k in s.joined ==> p in s.objs[s.joined[k]].funcs && Current(s, s.joined[k]);
  }

  lemma LeftTracked(s: State, t: State, id: nat, g: Group, p: Name)
    requires Tracked(s) && id < |s.objs| && p in s.objs[id].funcs && t.objs == s.objs[id := g]
    requires g.slot == s.objs[id].slot && g.funcs == s.objs[id].funcs - {p}
    requires t.joined == s.joined - {(p, g.slot)} && t.leaving == s.leaving - {(p, g.slot)}
    ensures Tracked(t)
  {
    forall k | k in t.joined
      ensures t.joined[k] < |t.objs| && t.objs[t.joined[k]].slot == k.1 && k.0 in t.objs[t.joined[k]].funcs
    {
      assert k in s.joined && t.joined[k] == s.joined[k];
      assert k == (k.0, k.1);
    }
    forall j, q | 0 <= j < |t.objs| && q in t.objs[j].funcs
      ensures (q, t.objs[j].slot) in t.joined && t.joined[(q, t.objs[j].slot)] == j
    {
      assert q in s.objs[j].funcs && t.objs[j].slot == s.objs[j].slot;
    }
  }

  lemma CreatedSound(s: State, t: State, g: Group)
    requires Sound(s) && g.slot !in s.groups && GroupOk(g) && t.objs == s.objs + [g]
    requires t.groups == s.groups[g.slot := |s.objs|]
    ensures Sound(t)
  {
    forall k | 0 <= k < |t.objs|
      ensures GroupOk(t.objs[k]) && (t.objs[k].funcs != map[] || !t.objs[k].mu.Free? ==> Current(t, k))
    {
      assert k < |s.objs| ==> t.objs[k] == s.objs[k];
    }
  }

  lemma CreatedRouted(s: State, t: State, g: Group)
    requires Routed(s) && t.objs == s.objs + [g] && t.router == s.router && forall r :: !Shows(g, r)
    ensures Routed(t)
  {
    forall k, r | 0 <= k < |t.objs| && Shows(t.objs[k], r) ensures r in t.router && t.router[r] == ByGroup(k) {
      assert k < |s.objs| && Shows(s.objs[k], r);
    }
  }

  lemma CreatedTracked(s: State, t: State, g: Group)
    requires Tracked(s) && t.objs == s.objs + [g] && g.funcs == map[] && t.joined == s.joined && t.leaving == s.leaving
    ensures Tracked(t)
  {
    forall j, q | 0 <= j < |t.objs| && q in t.objs[j].funcs
      ensures (q, t.objs[j].slot) in t.joined && t.joined[(q, t.objs[j].slot)] == j
    {
      assert q in s.objs[j].funcs && t.objs[j].slot == s.objs[j].slot;
    }
  }

  lemma CreateKeepsInv(s: State, name: Name, key: Name, route: Route)
    requires Inv(s) && name !in s.groups
    ensures Inv(Apply(s, Create(name, key, route)))
  {
    var g, t := Group(name, key, route, [], map[], Free), Apply(s, Create(name, key, route));
    CreatedSound(s, t, g);
    CreatedRouted(s, t, g);
    CreatedTracked(s, t, g);
  }

  lemma FirstJoins(s: State, t: State, id: nat, mu: Mutex)
    requires Inv(s) && id < |s.objs| && s.objs[id].mu.Free? && s.objs[id].funcs == map[] && Current(s, id) && mu.Routing?
    requires t == WithGroup(s, id, s.objs[id].(mu := mu))
    ensures Inv(t)
  {
    var h := s.objs[id].(mu := mu);
    assert GroupOk(s.objs[id]);
    GroupStepTracked(s, t, id, h);
    GroupStepSound(s, t, id, h);
    GroupStepRouted(s, t, id, h);
  }

  lemma LaterJoins(s: State, t: State, id: nat, p: Name, f: Fn, ask: (Name, Route))
    requires Inv(s) && id < |s.objs| && s.objs[id].mu.Free? && s.objs[id].funcs != map[] && p !in s.objs[id].funcs && Current(s, id)
    requires t == WithGroup(s, id, WithMember(s.objs[id], p, f))
                  .(joined := s.joined[(p, s.objs[id].slot) := id], asked := s.asked[(p, s.objs[id].slot) := ask])
    ensures Inv(t)
  {
    var h := WithMember(s.objs[id], p, f);
    assert GroupOk(s.objs[id]) && p in h.funcs;
    JoinAgrees(s.objs[id], p, f);
    JoinedIsNew(s, id, p);
    JoinedTracked(s, t, id, h, p, f);
    GroupStepSound(s, t, id, h);
    GroupStepRouted(s, t, id, h);
  }

  lemma JoinKeepsInv(s: State, id: nat, p: Name, key: Name, route: Route, f: Fn)
    requires Inv(s) && Can(s, Join(id, p, key, route, f))
    ensures Inv(Joining(s, id, p, key, route, f))
  {
    var g, t := s.objs[id], Joining(s, id, p, key, route, f);
    if Current(s, id) && g.funcs == map[] {
      FirstJoins(s, t, id, Routing(p, key, route, f));
    } else if Current(s, id) && Admission(g, p, key, route) == Joined {
      LaterJoins(s, t, id, p, f, (key, route));
    }
  }

  lemma AddRouteKeepsInv(s: State, id: nat)
    requires Inv(s) && Can(s, AddRoute(id))
    ensures Inv(Apply(s, AddRoute(id)))
  {
    if s.objs[id].mu.route in s.router {
      RouteIsTaken(s, Apply(s, AddRoute(id)), id);
    } else {
      RouteIsFree(s, Apply(s, AddRoute(id)), id);
    }
  }

  lemma RouteIsTaken(s: State, t: State, id: nat)
    requires Inv(s) && id < |s.objs| && s.objs[id].mu.Routing? && t == WithGroup(s, id, s.objs[id].(mu := Free))
    ensures Inv(t)
  {
    var h := s.objs[id].(mu := Free);
    assert GroupOk(s.objs[id]);
    HolderStep(s, t, id, h);
    GroupStepRouted(s, t, id, h);
  }

  lemma RouteIsFree(s: State, t: State, id: nat)
    requires Inv(s) && id < |s.objs| && s.objs[id].mu.Routing? && s.objs[id].mu.route !in s.router
    requires var m := s.objs[id].mu;
             t == WithGroup(s, id, s.objs[id].(mu := Filling(m.p, m.key, m.route, m.f)))
                  .(router := s.router[m.route := ByGroup(id)])
    ensures Inv(t)
  {
    var m := s.objs[id].mu;
    var h := s.objs[id].(mu := Filling(m.p, m.key, m.route, m.f));
    assert GroupOk(s.objs[id]);
    HolderStep(s, t, id, h);
    RouteAdded(s, t, id, h);
  }

  /** The holder of a mutex moves on, with no change of members or registry. */
  lemma HolderStep(s: State, t: State, id: nat, h: Group)
    requires Sound(s) && Tracked(s) && id < |s.objs| && !s.objs[id].mu.Free?
    requires t.groups == s.groups && t.objs == s.objs[id := h] && t.joined == s.joined && t.leaving == s.leaving
    requires h == s.objs[id].(mu := h.mu)
    ensures Sound(t) && Tracked(t)
  {
    assert Current(s, id) && GroupOk(s.objs[id]);
    GroupStepSound(s, t, id, h);
    GroupStepTracked(s, t, id, h);
  }

  lemma RouteAdded(s: State, t: State, id: nat, h: Group)
    requires Routed(s) && id < |s.objs| && t.objs == s.objs[id := h] && h.mu.Filling? && h.funcs == map[]
    requires (forall r :: !Shows(s.objs[id], r)) && h.mu.route !in s.router
    requires t.router == s.router[h.mu.route := ByGroup(id)]
    ensures Routed(t)
  {
    forall k, r | 0 <= k < |t.objs| && Shows(t.objs[k], r) ensures r in t.router && t.router[r] == ByGroup(k) {
      assert k != id ==> Shows(s.objs[k], r);
    }
  }

  lemma FillKeepsInv(s: State, id: nat)
    requires Inv(s) && Can(s, Fill(id))
    ensures Inv(Filled(s, id))
  {
    var g, t := s.objs[id], Filled(s, id);
    JoinAgrees(g.(key := g.mu.key, route := g.mu.route, mu := Free), g.mu.p, g.mu.f);
    JoinedIsNew(s, id, g.mu.p);
    assert g.mu.p in t.objs[id].funcs;
    GroupStepSound(s, t, id, t.objs[id]);
    GroupStepRouted(s, t, id, t.objs[id]);
    JoinedTracked(s, t, id, t.objs[id], g.mu.p, g.mu.f);
  }

  /** UnRegister finds the one group its proxy is a member of. */
  lemma LeaveFindsGroup(s: State, p: Name, name: Name)
    requires Inv(s) && (p, name) in s.leaving
    ensures s.leaving[(p, name)] == Here(s.joined[(p, name)])
    ensures var id := s.joined[(p, name)];
            id < |s.objs| && Current(s, id) && s.objs[id].slot == name && p in s.objs[id].funcs
  {
  }

  lemma LeaveKeepsInv(s: State, p: Name, name: Name)
    requires Inv(s) && Can(s, Leave(p, name))
    ensures Inv(Leaving(s, p, name))
  {
    LeaveFindsGroup(s, p, name);
    var id, t := s.joined[(p, name)], Leaving(s, p, name);
    var g := WithoutMember(s.objs[id], p);
    var h := if g.funcs == map[] then g.(mu := LastOut) else g;
    assert t.objs == s.objs[id := h] && t.groups == s.groups && t.router == s.router;
    LeftOk(s, t, id, p, h);
    LeftTracked(s, t, id, h, p);
  }

  lemma LeftOk(s: State, t: State, id: nat, p: Name, h: Group)
    requires Sound(s) && Routed(s) && id < |s.objs| && s.objs[id].mu.Free? && p in s.objs[id].funcs && Current(s, id)
    requires var g := WithoutMember(s.objs[id], p); h == if g.funcs == map[] then g.(mu := LastOut) else g
    requires t.objs == s.objs[id := h] && t.groups == s.groups && t.router == s.router
    ensures Sound(t) && Routed(t)
  {
    LeaveAgrees(s.objs[id], p);
    GroupStepSound(s, t, id, h);
    GroupStepRouted(s, t, id, h);
  }

  lemma DelRouteKeepsInv(s: State, id: nat)
    requires Inv(s) && Can(s, DelRoute(id))
    ensures Inv(Apply(s, DelRoute(id)))
  {
    var h := s.objs[id].(mu := Unlisting);
    HolderStep(s, Apply(s, DelRoute(id)), id, h);
    RouteDeleted(s, Apply(s, DelRoute(id)), id, h);
  }

  lemma RouteDeleted(s: State, t: State, id: nat, h: Group)
    requires Routed(s) && id < |s.objs| && t.objs == s.objs[id := h] && (forall r :: !Shows(h, r))
    requires s.objs[id].mu.LastOut? && t.router == s.router - {s.objs[id].route}
    ensures Routed(t)
  {
    assert Shows(s.objs[id], s.objs[id].route);
    assert s.router[s.objs[id].route] == ByGroup(id);
    forall k, r | 0 <= k < |t.objs| && Shows(t.objs[k], r) ensures r in t.router && t.router[r] == ByGroup(k) {
      assert k != id && Shows(s.objs[k], r);
    }
  }

  lemma UnlistKeepsInv(s: State, id: nat)
    requires Inv(s) && Can(s, Unlist(id))
    ensures Inv(Apply(s, Unlist(id)))
  {
    var t := Apply(s, Unlist(id));
    Unlisted(s, t, id, t.objs[id]);
    GroupStepRouted(s, t, id, t.objs[id]);
    GroupStepTracked(s, t, id, t.objs[id]);
  }

  lemma Unlisted(s: State, t: State, id: nat, h: Group)
    requires Sound(s) && id < |s.objs| && Current(s, id) && t.objs == s.objs[id := h]
    requires h.slot == s.objs[id].slot && GroupOk(h) && h.funcs == map[] && h.mu.Free?
    requires t.groups == s.groups - {h.slot}
    ensures Sound(t)
  {
    forall k | 0 <= k < |t.objs|
      ensures GroupOk(t.objs[k]) && (t.objs[k].funcs != map[] || !t.objs[k].mu.Free? ==> Current(t, k))
    {
      assert t.objs[k].slot == s.objs[k].slot;
      assert k != id && Current(s, k) ==> s.objs[k].slot != h.slot;
    }
  }

  lemma LeaveGetKeepsInv(s: State, p: Name, name: Name)
    requires Inv(s) && Can(s, LeaveGet(p, name))
    ensures Inv(Apply(s, LeaveGet(p, name)))
  {
    var id := s.joined[(p, name)];
    assert p in s.objs[id].funcs && s.objs[id].slot == name && Current(s, id);
    BeginsToLeave(s, Apply(s, LeaveGet(p, name)), (p, name));
    SameRegistry(s, Apply(s, LeaveGet(p, name)));
    SameRouter(s, Apply(s, LeaveGet(p, name)));
  }

  lemma BeginsToLeave(s: State, t: State, k: (Name, Name))
    requires Tracked(s) && k in s.joined && t.objs == s.objs && t.joined == s.joined
    requires t.leaving == s.leaving[k := Here(s.joined[k])]
    ensures Tracked(t)
  {
  }

  lemma SameRegistry(s: State, t: State)
    requires Sound(s) && t.objs == s.objs && t.groups == s.groups
    ensures Sound(t)
  {
    assert forall k :: 0 <= k < |t.objs| && Current(s, k) ==> Current(t, k);
  }

  lemma SameRouter(s: State, t: State)
    requires Routed(s) && t.objs == s.objs && t.router == s.router
    ensures Routed(t)
  {
  }

  lemma OtherRoute(s: State, t: State, r: Route)
    requires Routed(s) && t.objs == s.objs && (r in s.router ==> s.router[r] == ByOther)
    requires t.router == s.router[r := ByOther] || t.router == s.router - {r}
    ensures Routed(t)
  {
  }

  lemma OtherKeepsInv(s: State, a: Action)
    requires Inv(s) && Can(s, a) && (a.OtherAdd? || a.OtherDel?)
    ensures Inv(Apply(s, a))
  {
    SameRegistry(s, Apply(s, a));
    OtherRoute(s, Apply(s, a), a.route);
  }

  lemma StepKeepsInv(s: State, a: Action)
    requires Inv(s) && Can(s, a)
    ensures Inv(Apply(s, a))
  {
    match a
    case Create(name, key, route) => CreateKeepsInv(s, name, key, route);
    case Join(id, p, key, route, f) => JoinKeepsInv(s, id, p, key, route, f);
    case AddRoute(id) => AddRouteKeepsInv(s, id);
    case Fill(id) => FillKeepsInv(s, id);
    case LeaveGet(p, name) => LeaveGetKeepsInv(s, p, name);
    case Leave(p, name) => LeaveKeepsInv(s, p, name);
    case DelRoute(id) => DelRouteKeepsInv(s, id);
    case Unlist(id) => UnlistKeepsInv(s, id);
    case OtherAdd(_) => OtherKeepsInv(s, a);
    case OtherDel(_) => OtherKeepsInv(s, a);
  }

  ghost predicate CanRun(s: State, actions: seq<Action>)
    decreases |actions|
  {
    actions != [] ==> Can(s, actions[0]) && CanRun(Apply(s, actions[0]), actions[1..])
  }

  ghost function After(s: State, actions: seq<Action>): State
    requires CanRun(s, actions)
    decreases |actions|
  {
    if actions == [] then s else After(Apply(s, actions[0]), actions[1..])
  }

  const IDLE := State(map[], [], map[], map[], map[], map[])

  lemma {:induction false} RunKeepsInv(s: State, actions: seq<Action>)
    requires Inv(s) && CanRun(s, actions)
    ensures Inv(After(s, actions))
    decreases |actions|
  {
    if actions != [] {
      StepKeepsInv(s, actions[0]);
      RunKeepsInv(Apply(s, actions[0]), actions[1..]);
    }
  }

  /** In every interleaving: the list of a group has each of its members once; the group of a
      free mutex has its route in the router exactly while it has members; while the mutex is
      held across steps the group has none, and its route is there exactly between the adding
      and the filling, and between the last leaving and the deleting. No two groups with members
      share a name or a route. */
  lemma MembersAndRoute(actions: seq<Action>, id: nat, other: nat)
    requires CanRun(IDLE, actions) && id < |After(IDLE, actions).objs| && other < |After(IDLE, actions).objs|
    ensures var s := After(IDLE, actions);
            var g := s.objs[id];
            var routed := exists r :: r in s.router && s.router[r] == ByGroup(id);
            && Distinct(g.names) && (forall n :: n in g.names <==> n in g.funcs)
            && (g.mu.Free? ==> (g.names != [] <==> routed))
            && (!g.mu.Free? ==> g.names == [] && (routed <==> g.mu.Filling? || g.mu.LastOut?))
            && (forall r :: r in s.router && s.router[r] == ByGroup(id) ==>
                  r == if g.mu.Filling? then g.mu.route else g.route)
            && (id != other && g.names != [] && s.objs[other].names != [] ==>
                  g.slot != s.objs[other].slot && g.route != s.objs[other].route)
  {
    RunKeepsInv(IDLE, actions);
    var s := After(IDLE, actions);
    NamedIffCalled(s.objs[id]);
    NamedIffCalled(s.objs[other]);
    RouteOfMembers(s, id);
    if id != other && s.objs[id].names != [] && s.objs[other].names != [] {
      NothingShared(s, id, other);
    }
  }

  lemma NothingShared(s: State, id: nat, other: nat)
    requires Sound(s) && Routed(s) && id < |s.objs| && other < |s.objs| && id != other
    requires s.objs[id].funcs != map[] && s.objs[other].funcs != map[]
    ensures s.objs[id].slot != s.objs[other].slot && s.objs[id].route != s.objs[other].route
  {
    assert Current(s, id) && Current(s, other);
    assert Shows(s.objs[id], s.objs[id].route) && Shows(s.objs[other], s.objs[other].route);
    assert s.router[s.objs[id].route] == ByGroup(id) && s.router[s.objs[other].route] == ByGroup(other);
  }

  lemma RouteOfMembers(s: State, id: nat)
    requires Inv(s) && id < |s.objs|
    ensures var g := s.objs[id];
            && ((exists r :: r in s.router && s.router[r] == ByGroup(id)) <==>
                g.funcs != map[] || g.mu.Filling? || g.mu.LastOut?)
            && (forall r :: r in s.router && s.router[r] == ByGroup(id) ==>
                  r == if g.mu.Filling? then g.mu.route else g.route)
            && GroupOk(g)
  {
    var g := s.objs[id];
    assert GroupOk(g);
    if g.funcs != map[] || g.mu.LastOut? {
      assert Shows(g, g.route) && s.router[g.route] == ByGroup(id);
    } else if g.mu.Filling? {
      assert Shows(g, g.mu.route) && s.router[g.mu.route] == ByGroup(id);
    }
    forall r | r in s.router && s.router[r] == ByGroup(id)
      ensures r == (if g.mu.Filling? then g.mu.route else g.route) && (g.funcs != map[] || g.mu.Filling? || g.mu.LastOut?)
    {
      assert Shows(g, r);
    }
  }

  /** A request that finds a group by its route waits for the group's mutex; when it gets it, the
      group has members, unless its last member has left in the meantime and it is gone for good. */
  lemma RequestFindsMembers(actions: seq<Action>, later: seq<Action>, r: Route, id: nat)
    requires CanRun(IDLE, actions) && CanRun(After(IDLE, actions), later)
    requires r in After(IDLE, actions).router && After(IDLE, actions).router[r] == ByGroup(id)
    ensures var t := After(After(IDLE, actions), later);
            id < |t.objs| && (t.objs[id].mu.Free? && t.objs[id].names == [] ==> !Current(t, id))
  {
    var s := After(IDLE, actions);
    RunKeepsInv(IDLE, actions);
    RouteOfMembers(s, id);
    OnceRouted(s, later, id);
    NamedIffCalled(After(s, later).objs[id]);
  }

  /** Once a group has been routed, it is either never again without members and mutex holder, or
      it has been taken out of the registry. */
  lemma {:induction false} OnceRouted(s: State, actions: seq<Action>, id: nat)
    requires Inv(s) && CanRun(s, actions) && id < |s.objs|
    requires Busy(s.objs[id]) || !Current(s, id)
    ensures var t := After(s, actions); Inv(t) && id < |t.objs| && (Busy(t.objs[id]) || !Current(t, id))
    decreases |actions|
  {
    if actions != [] {
      StepKeepsInv(s, actions[0]);
      BusyOrGone(s, actions[0], id);
      OnceRouted(Apply(s, actions[0]), actions[1..], id);
    }
  }

  predicate Busy(g: Group) {
    g.funcs != map[] || g.mu.Filling? || g.mu.LastOut? || g.mu.Unlisting?
  }

  lemma BusyOrGone(s: State, a: Action, id: nat)
    requires Inv(s) && Can(s, a) && id < |s.objs| && (Busy(s.objs[id]) || !Current(s, id))
    ensures id < |Apply(s, a).objs| && (Busy(Apply(s, a).objs[id]) || !Current(Apply(s, a), id))
  {
    if !Current(s, id) {
      NotBackAgain(s, a, id);
    } else {
      assert GroupOk(s.objs[id]);
      if a.Leave? {
        LeaveFindsGroup(s, a.p, a.name);
      }
      BusyStep(s, a, id);
    }
  }

  lemma BusyStep(s: State, a: Action, id: nat)
    requires Can(s, a) && id < |s.objs| && Busy(s.objs[id]) && GroupOk(s.objs[id]) && Current(s, id)
    requires a.Leave? ==> s.leaving[(a.p, a.name)].Here?
    ensures id < |Apply(s, a).objs| && (Busy(Apply(s, a).objs[id]) || !Current(Apply(s, a), id))
  {
    var t := Apply(s, a);
    match a {
      case Fill(i) => assert i == id ==> s.objs[id].mu.p in t.objs[id].funcs;
      case Join(i, p, _, _, _) => assert i == id && t.objs != s.objs ==> p in t.objs[id].funcs;
      case _ =>
    }
  }

  /** The members of the groups of a name are exactly the proxies that joined it and have not
      left: a successful Register counts until its UnRegister, and nobody is lost. */
  lemma MembersAreTheJoined(actions: seq<Action>, p: Name, name: Name)
    requires CanRun(IDLE, actions)
    ensures var s := After(IDLE, actions);
            (p, name) in s.joined <==>
            exists id :: 0 <= id < |s.objs| && s.objs[id].slot == name && p in s.objs[id].names
  {
    RunKeepsInv(IDLE, actions);
    var s := After(IDLE, actions);
    if (p, name) in s.joined {
      var id := s.joined[(p, name)];
      assert GroupOk(s.objs[id]) && p in s.objs[id].names;
    }
    if id :| 0 <= id < |s.objs| && s.objs[id].slot == name && p in s.objs[id].names {
      assert GroupOk(s.objs[id]);
    }
  }

  /** A group that is no longer registered has no member and never gets one again. */
  lemma {:induction false} RemovedForGood(s: State, actions: seq<Action>, id: nat)
    requires Inv(s) && CanRun(s, actions) && id < |s.objs| && !Current(s, id)
    ensures var t := After(s, actions); id < |t.objs| && !Current(t, id) && t.objs[id].names == [] && t.objs[id].mu.Free?
    decreases |actions|
  {
    NamedIffCalled(s.objs[id]);
    if actions != [] {
      StepKeepsInv(s, actions[0]);
      NotBackAgain(s, actions[0], id);
      RemovedForGood(Apply(s, actions[0]), actions[1..], id);
    }
  }

  lemma NotBackAgain(s: State, a: Action, id: nat)
    requires Inv(s) && Can(s, a) && id < |s.objs| && !Current(s, id)
    ensures id < |Apply(s, a).objs| && !Current(Apply(s, a), id)
  {
    SlotsStay(s, a, id);
  }

  /** No step renames a group or registers an old one. */
  lemma SlotsStay(s: State, a: Action, id: nat)
    requires Can(s, a) && id < |s.objs|
    ensures id < |Apply(s, a).objs| && Apply(s, a).objs[id].slot == s.objs[id].slot
    ensures Current(Apply(s, a), id) ==> Current(s, id)
  {
    NamesStay(s, a, id);
    RegistryOnlyGains(s, a, id);
  }

  lemma NamesStay(s: State, a: Action, id: nat)
    requires Can(s, a) && id < |s.objs|
    ensures id < |Apply(s, a).objs| && Apply(s, a).objs[id].slot == s.objs[id].slot
  {
    if a.Join? {
      JoinKeepsName(s, a.id, a.p, a.key, a.route, a.f, id);
    } else if a.Leave? {
      LeaveKeepsName(s, a.p, a.name, id);
    }
  }

  lemma JoinKeepsName(s: State, j: nat, p: Name, key: Name, route: Route, f: Fn, id: nat)
    requires j < |s.objs| && id < |s.objs|
    ensures var t := Joining(s, j, p, key, route, f); |t.objs| == |s.objs| && t.objs[id].slot == s.objs[id].slot
  {
  }

  lemma LeaveKeepsName(s: State, p: Name, name: Name, id: nat)
    requires Can(s, Leave(p, name)) && id < |s.objs|
    ensures var t := Leaving(s, p, name); |t.objs| == |s.objs| && t.objs[id].slot == s.objs[id].slot
  {
  }

  lemma RegistryOnlyGains(s: State, a: Action, id: nat)
    requires Can(s, a) && id < |s.objs|
    ensures forall n :: n in Apply(s, a).groups && Apply(s, a).groups[n] == id ==> n in s.groups && s.groups[n] == id
  {
  }

  // ---------- who may share a group ----------

  /** Every member asked for the key and the route of its group. */
  ghost predicate Alike(s: State) {
    forall k :: k in s.joined ==> AskedFor(s, k)
  }

  ghost predicate AskedFor(s: State, k: (Name, Name)) {
    k in s.joined && s.joined[k] < |s.objs| && k in s.asked && s.asked[k] == (s.objs[s.joined[k]].key, s.objs[s.joined[k]].route)
  }

  /** A group whose mutex is not held across steps keeps its key and its route. */
  lemma KeyAndRouteStay(s: State, a: Action, id: nat)
    requires Can(s, a) && id < |s.objs| && s.objs[id].mu.Free?
    ensures id < |Apply(s, a).objs|
    ensures Apply(s, a).objs[id].key == s.objs[id].key && Apply(s, a).objs[id].route == s.objs[id].route
  {
    if a.Join? {
      JoinKeepsKeyAndRoute(s, a.id, a.p, a.key, a.route, a.f, id);
    } else if a.Leave? {
      LeaveKeepsKeyAndRoute(s, a.p, a.name, id);
    }
  }

  lemma JoinKeepsKeyAndRoute(s: State, j: nat, p: Name, key: Name, route: Route, f: Fn, id: nat)
    requires j < |s.objs| && id < |s.objs|
    ensures var t := Joining(s, j, p, key, route, f);
            |t.objs| == |s.objs| && t.objs[id].key == s.objs[id].key && t.objs[id].route == s.objs[id].route
  {
  }

  lemma LeaveKeepsKeyAndRoute(s: State, p: Name, name: Name, id: nat)
    requires Can(s, Leave(p, name)) && id < |s.objs|
    ensures var t := Leaving(s, p, name);
            |t.objs| == |s.objs| && t.objs[id].key == s.objs[id].key && t.objs[id].route == s.objs[id].route
  {
  }

  /** Who is joined after a step was so before, with the same request, or has just joined a group that
      has what it asked for. */
  lemma JoinedAfter(s: State, a: Action, k: (Name, Name))
    requires Can(s, a) && k in Apply(s, a).joined
    ensures var t := Apply(s, a);
            || (k in s.joined && t.joined[k] == s.joined[k] && (k in s.asked ==> k in t.asked && t.asked[k] == s.asked[k]))
            || AskedFor(t, k)
  {
    match a
    case Join(id, p, key, route, f) => JoinedByJoin(s, id, p, key, route, f, k);
    case Fill(id) =>
    case Leave(p, name) =>
    case _ =>
  }

  lemma JoinedByJoin(s: State, id: nat, p: Name, key: Name, route: Route, f: Fn, k: (Name, Name))
    requires id < |s.objs| && k in Joining(s, id, p, key, route, f).joined
    ensures var t := Joining(s, id, p, key, route, f);
            || (k in s.joined && t.joined[k] == s.joined[k] && (k in s.asked ==> k in t.asked && t.asked[k] == s.asked[k]))
            || AskedFor(t, k)
  {
  }

  lemma StepKeepsAlike(s: State, a: Action)
    requires Inv(s) && Alike(s) && Can(s, a)
    ensures Alike(Apply(s, a))
  {
    var t := Apply(s, a);
    forall k | k in t.joined ensures AskedFor(t, k) {
      JoinedAfter(s, a, k);
      if !AskedFor(t, k) {
        assert AskedFor(s, k);
        var id := s.joined[k];
        assert k.0 in s.objs[id].funcs && s.objs[id].mu.Free?;
        KeyAndRouteStay(s, a, id);
      }
    }
  }

  lemma {:induction false} RunKeepsAlike(s: State, actions: seq<Action>)
    requires Inv(s) && Alike(s) && CanRun(s, actions)
    ensures Alike(After(s, actions)) && Inv(After(s, actions))
    decreases |actions|
  {
    if actions != [] {
      StepKeepsInv(s, actions[0]);
      StepKeepsAlike(s, actions[0]);
      RunKeepsAlike(Apply(s, actions[0]), actions[1..]);
    }
  }

  /** In every run the members of a group asked for one key and one route. */
  lemma MembersAskedAlike(actions: seq<Action>, p: Name, q: Name, name: Name)
    requires CanRun(IDLE, actions)
    requires (p, name) in After(IDLE, actions).joined && (q, name) in After(IDLE, actions).joined
    ensures var s := After(IDLE, actions);
            && (p, name) in s.asked && (q, name) in s.asked && s.asked[(p, name)] == s.asked[(q, name)]
            && s.joined[(p, name)] == s.joined[(q, name)]
  {
    RunKeepsAlike(IDLE, actions);
    var s := After(IDLE, actions);
    assert AskedFor(s, (p, name)) && AskedFor(s, (q, name));
    var i, j := s.joined[(p, name)], s.joined[(q, name)];
    assert Current(s, i) && Current(s, j);
  }

  /** In every run, what a Register that nobody disturbs answers in terms of what any member asked for:
      another route, then another key, then a name that is in already are turned away, and
      everybody else is in. */
  lemma RegisterAnswers(actions: seq<Action>, m: Name, name: Name, p: Name, key: Name, route: Route, f: Fn)
    requires CanRun(IDLE, actions) && (m, name) in After(IDLE, actions).joined
    ensures var s := After(IDLE, actions);
            var id := s.joined[(m, name)];
            && id < |s.objs| && (m, name) in s.asked
            && var (k, r) := s.asked[(m, name)];
               var e := Registered(s.objs[id], Current(s, id), route !in s.router, p, key, route, f).1;
               && (e == ParamsInvalid <==> route != r)
               && (e == AuthFailed <==> route == r && key != k)
               && (e == Repeated <==> route == r && key == k && (p, name) in s.joined)
               && (e == Joined <==> route == r && key == k && (p, name) !in s.joined)
  {
    RunKeepsAlike(IDLE, actions);
    var s := After(IDLE, actions);
    assert AskedFor(s, (m, name));
    var id := s.joined[(m, name)];
    assert s.objs[id].slot == name && m in s.objs[id].funcs && Current(s, id);
    if p !in s.objs[id].funcs {
      JoinedIsNew(s, id, p);
    }
  }

  /** Without members: in exactly if the route is free. */
  lemma FirstRegisterAnswers(g: Group, current: bool, free: bool, p: Name, key: Name, route: Route, f: Fn)
    requires g.funcs == map[] && g.names == []
    ensures var (h, e) := Registered(g, current, free, p, key, route, f);
            && (e == Stale <==> !current) && (e == RouteTaken <==> current && !free) && (e == Joined <==> current && free)
            && (e == Joined ==> h.names == [p] && h.funcs == map[p := f] && h.key == key && h.route == route)
            && (e != Joined ==> h == g)
  {
  }

  // ---------- calls that nobody disturbs ----------

  /** The whole of `HTTPGroup.Register` on a group that is or is not the registered one, with the
      route free or not. */
  function Registered(g: Group, current: bool, free: bool, p: Name, key: Name, route: Route, f: Fn): (Group, Result) {
    if !current then (g, Stale)
    else if g.funcs == map[] then
      if free then (WithMember(g.(key := key, route := route), p, f), Joined) else (g, RouteTaken)
    else
      var r := Admission(g, p, key, route);
      (if r == Joined then WithMember(g, p, f) else g, r)
  }

  /** The steps of a Register, as far as they are enabled. */
  function Tried(s: State, a: Action): State {
    if Can(s, a) then Apply(s, a) else s
  }

  /** Undisturbed, the three steps of a Register come to that, and they leave everything but this
      group, the router and the record of members alone. */
  lemma RegisterIsThreeSteps(s: State, id: nat, p: Name, key: Name, route: Route, f: Fn)
    requires id < |s.objs| && s.objs[id].mu.Free?
    ensures var t := Tried(Tried(Tried(s, Join(id, p, key, route, f)), AddRoute(id)), Fill(id));
            var g := s.objs[id];
            var (h, r) := Registered(g, Current(s, id), route !in s.router, p, key, route, f);
            && t.objs == s.objs[id := h] && t.groups == s.groups && t.leaving == s.leaving
            && t.joined == (if r == Joined then s.joined[(p, g.slot) := id] else s.joined)
            && t.router == (if r == Joined && g.funcs == map[] then s.router[route := ByGroup(id)] else s.router)
  {
    var g := s.objs[id];
    var t1 := Tried(s, Join(id, p, key, route, f));
    if Current(s, id) && g.funcs == map[] {
      assert t1 == WithGroup(s, id, g.(mu := Routing(p, key, route, f)));
      FirstOneIn(t1, id);
    } else {
      assert t1.objs[id].mu.Free?;
    }
  }

  lemma FirstOneIn(s: State, id: nat)
    requires id < |s.objs| && s.objs[id].mu.Routing?
    ensures var t := Tried(Tried(s, AddRoute(id)), Fill(id));
            var g, m := s.objs[id].(mu := Free), s.objs[id].mu;
            && t.groups == s.groups && t.leaving == s.leaving
            && if m.route in s.router then t.objs == s.objs[id := g] && t.joined == s.joined && t.router == s.router
               else
                 && t.objs == s.objs[id := WithMember(g.(key := m.key, route := m.route), m.p, m.f)]
                 && t.joined == s.joined[(m.p, g.slot) := id] && t.router == s.router[m.route := ByGroup(id)]
  {
    var m := s.objs[id].mu;
    var t := Tried(s, AddRoute(id));
    if m.route in s.router {
      assert t.objs[id].mu.Free?;
    } else {
      assert t.objs == s.objs[id := s.objs[id].(mu := Filling(m.p, m.key, m.route, m.f))];
    }
  }

  /** Likewise the steps of an UnRegister that has found the group of its proxy. */
  lemma UnRegisterIsThreeSteps(s: State, p: Name, name: Name, id: nat)
    requires Can(s, Leave(p, name)) && s.leaving[(p, name)] == Here(id) && s.objs[id].slot == name && Current(s, id)
    ensures var t := Tried(Tried(Tried(s, Leave(p, name)), DelRoute(id)), Unlist(id));
            var h := WithoutMember(s.objs[id], p);
            && t.objs == s.objs[id := h]
            && t.router == (if h.funcs == map[] then s.router - {h.route} else s.router)
            && t.groups == (if h.funcs == map[] then s.groups - {name} else s.groups)
  {
    var h := WithoutMember(s.objs[id], p);
    var t1 := Tried(s, Leave(p, name));
    if h.funcs == map[] {
      assert t1.objs == s.objs[id := h.(mu := LastOut)] && t1.groups == s.groups && t1.router == s.router;
      LastOneOut(t1, id);
    } else {
      assert t1.objs == s.objs[id := h] && t1.objs[id].mu.Free?;
    }
  }

  lemma LastOneOut(s: State, id: nat)
    requires id < |s.objs| && s.objs[id].mu.LastOut? && Current(s, id)
    ensures var t := Tried(Tried(s, DelRoute(id)), Unlist(id));
            && t.objs == s.objs[id := s.objs[id].(mu := Free)]
            && t.router == s.router - {s.objs[id].route} && t.groups == s.groups - {s.objs[id].slot}
  {
    var t := Tried(s, DelRoute(id));
    assert t.objs == s.objs[id := s.objs[id].(mu := Unlisting)] && t.groups == s.groups && Current(t, id);
  }

  // ---------- taking turns ----------

  /** The place in the list that the i-th draw after `index` picks; the counter has 64 bits. */
  function Turn(index: nat, i: nat, n: nat): (r: nat)
    requires n > 0
    ensures r < n
  {
    ((index + 1 + i) % WORD) % n
  }

  /** The places that `n` draws in a row pick. */
  function Places(index: nat, n: nat): (r: seq<nat>)
    requires n > 0
    ensures |r| == n
  {
    seq(n, i requires 0 <= i < n => Turn(index, i, n))
  }

  /** Every place once. */
  ghost predicate Fair(places: seq<nat>) {
    Distinct(places) && forall k :: 0 <= k < |places| ==> k in places
  }

  lemma ModOf(x: int, n: int, q: int, r: int)
    requires n > 0 && x == q * n + r && 0 <= r < n
    ensures x % n == r
  {
    var d := x / n - q;
    assert x % n == x - (x / n) * n;
    assert (x / n) * n == q * n + d * n;
    assert d > 0 ==> d * n >= n;
    assert d < 0 ==> d * n <= -n;
  }

  lemma ModAdds(x: int, i: int, n: int)
    requires n > 0 && 0 <= i < n
    ensures (x + i) % n == if x % n + i < n then x % n + i else x % n + i - n
  {
    var c, q := x % n, x / n;
    assert x + i == q * n + (c + i) == (q + 1) * n + (c + i - n);
    if c + i < n {
      ModOf(x + i, n, q, c + i);
    } else {
      ModOf(x + i, n, q + 1, c + i - n);
    }
  }

  /** Draws in a row that do not pass the end of the counter pick every place once. */
  lemma TurnsInARow(index: nat, n: nat)
    requires 0 < n && index + n < WORD
    ensures Fair(Places(index, n))
  {
    var places := Places(index, n);
    var c := (index + 1) % n;
    forall i | 0 <= i < n ensures places[i] == if c + i < n then c + i else c + i - n {
      ModAdds(index + 1, i, n);
    }
    forall k | 0 <= k < n ensures k in places {
      var i := if k >= c then k - c else k - c + n;
      assert places[i] == k;
    }
  }

  /** For every value of the counter: `n` draws in a row pick every place once exactly if they do
      not pass its end, or start right there, or the number of members divides the number of
      its values. */
  lemma TurnsAreFairIff(index: nat, n: nat)
    requires index < WORD && 0 < n <= WORD
    ensures Fair(Places(index, n)) <==> index + n < WORD || index == WORD - 1 || WORD % n == 0
  {
    if index + n < WORD {
      TurnsInARow(index, n);
    } else if index == WORD - 1 {
      var places := Places(index, n);
      forall i | 0 <= i < n ensures places[i] == i && i in places {
        EarlyTurn(index, i, n);
        assert places[i] == i;
      }
    } else {
      TurnsPastTheEnd(index, n);
    }
  }

  lemma TurnsPastTheEnd(index: nat, n: nat)
    requires 0 < n <= WORD && index + 1 < WORD <= index + n
    ensures Fair(Places(index, n)) <==> WORD % n == 0
  {
    var places := Places(index, n);
    var m := WORD - (index + 1);
    var c := (index + 1) % n;
    forall i | 0 <= i < m ensures places[i] == if c + i < n then c + i else c + i - n {
      ModAdds(index + 1, i, n);
    }
    forall i | m <= i < n ensures places[i] == i - m {
      EarlyTurn(index, i, n);
    }
    ModAdds(index + 1, m, n);
    SplitIsFairIff(places, m, c);
  }

  /** `m` places from `c` on, then places from 0 on. */
  lemma SplitIsFairIff(places: seq<nat>, m: nat, c: nat)
    requires 0 < m < |places| && c < |places|
    requires forall i :: 0 <= i < m ==> places[i] == if c + i < |places| then c + i else c + i - |places|
    requires forall i :: m <= i < |places| ==> places[i] == i - m
    ensures Fair(places) <==> c + m == |places|
  {
    var n := |places|;
    if c + m == n {
      forall k | 0 <= k < n ensures k in places {
        assert places[if k >= c then k - c else k + m] == k;
      }
    } else if c + m < n {
      assert n - 1 !in places;
    } else {
      assert places[n - c] == 0 && places[m] == 0;
    }
  }

  lemma EarlyTurn(index: nat, i: nat, n: nat)
    requires n <= WORD && i < n && index < WORD <= index + 1 + i
    ensures Turn(index, i, n) == index + 1 + i - WORD
  {
    var y := index + 1 + i - WORD;
    assert (index + 1 + i) % WORD == y;
    ModOf(y, n, 0, y);
  }

  /** Who is served by as many draws in a row as there are members. */
  function Served(g: Group, index: nat): (r: seq<Name>)
    ensures |r| == |g.names|
  {
    var n := |g.names|;
    seq(n, i requires 0 <= i < n => g.names[Turn(index, i, n)])
  }

  lemma PickedOnce(names: seq<Name>, places: seq<nat>, served: seq<Name>)
    requires Distinct(names) && Fair(places) && |served| == |places| == |names|
    requires forall i :: 0 <= i < |places| ==> places[i] < |names| && served[i] == names[places[i]]
    ensures Distinct(served) && forall n :: n in served <==> n in names
  {
    forall n | n in names ensures n in served {
      var k :| 0 <= k < |names| && names[k] == n;
      assert k in places;
      var i :| 0 <= i < |places| && places[i] == k;
      assert served[i] == n;
    }
  }

  /** With members that stay, each of them is served once. */
  lemma MembersTakeTurns(g: Group, index: nat)
    requires Agree(g) && index + |g.names| < WORD
    ensures Distinct(Served(g, index)) && forall n :: n in Served(g, index) <==> n in g.funcs
  {
    if g.names != [] {
      TurnsInARow(index, |g.names|);
      PickedOnce(g.names, Places(index, |g.names|), Served(g, index));
    }
  }

  // ---------- the objects ----------

  datatype Pick = Nobody | Picked(name: Name)

  class Controller {
    var groups: map<Name, HTTPGroup>
    /** Routes of proxies outside this kind of group belong to nobody here. */
    var router: map<Route, HTTPGroup?>

    constructor ()
      ensures groups == map[] && router == map[]
    {
      groups, router := map[], map[];
    }
  }

  class HTTPGroup {
    const ctl: Controller
    const slot: Name
    var key: Name
    var route: Route
    var pxyNames: seq<Name>
    var createFuncs: map<Name, Fn>
    var index: nat

    ghost function Model(): Group
      reads this
    {
      Group(slot, key, route, pxyNames, createFuncs, Free)
    }

    constructor (ctl: Controller, slot: Name)
      ensures this.ctl == ctl && Model() == Group(slot, 0, 0, [], map[], Free) && index == 0
    {
      this.ctl, this.slot := ctl, slot;
      key, route, pxyNames, createFuncs, index := 0, 0, [], map[], 0;
    }

    predicate IsCurrent()
      reads this, ctl
    {
      slot in ctl.groups && ctl.groups[slot] == this
    }

    method Register(p: Name, groupKey: Name, r: Route, f: Fn) returns (e: Result)
      modifies this`key, this`route, this`pxyNames, this`createFuncs, ctl`router
      ensures (Model(), e) ==
              Registered(old(Model()), old(IsCurrent()), r !in old(ctl.router), p, groupKey, r, f)
      ensures ctl.router ==
              if e == Joined && old(createFuncs) == map[] then old(ctl.router)[r := this] else old(ctl.router)
    {
      if !IsCurrent() {
        return Stale;
      }
      if createFuncs == map[] {
        if r in ctl.router {
          return RouteTaken;
        }
        ctl.router := ctl.router[r := this];
        key, route := groupKey, r;
      } else {
        if route != r {
          return ParamsInvalid;
        }
        if key != groupKey {
          return AuthFailed;
        }
      }
      if p in createFuncs {
        return Repeated;
      }
      createFuncs := createFuncs[p := f];
      pxyNames := pxyNames + [p];
      return Joined;
    }

    method UnRegister(p: Name)
      modifies this`pxyNames, this`createFuncs, ctl
      ensures Model() == WithoutMember(old(Model()), p)
      ensures ctl.router == if createFuncs == map[] then old(ctl.router) - {route} else old(ctl.router)
      ensures ctl.groups == if createFuncs == map[] && old(IsCurrent()) then old(ctl.groups) - {slot} else old(ctl.groups)
    {
      createFuncs := createFuncs - {p};
      RemoveName(p);
      if createFuncs == map[] {
        ctl.router := ctl.router - {route};
        if IsCurrent() {
          ctl.groups := ctl.groups - {slot};
        }
      }
    }

    method RemoveName(p: Name)
      modifies this`pxyNames
      ensures pxyNames == Without(old(pxyNames), p)
    {
      for i := 0 to |pxyNames|
        invariant pxyNames == old(pxyNames)
        invariant Without(pxyNames, p) == pxyNames[..i] + Without(pxyNames[i..], p)
      {
        WithoutFrom(pxyNames, p, i);
        if pxyNames[i] == p {
          pxyNames := pxyNames[..i] + pxyNames[i + 1..];
          return;
        }
      }
    }

    /** `chooseEndpoint`: an empty name, like no member, is an error. */
    method ChooseEndpoint() returns (r: Pick)
      modifies this`index
      ensures index == (old(index) + 1) % WORD
      ensures r == if pxyNames == [] || pxyNames[Turn(old(index), 0, |pxyNames|)] == NO_NAME then Nobody
                   else Picked(pxyNames[Turn(old(index), 0, |pxyNames|)])
    {
      index := (index + 1) % WORD;
      var name := NO_NAME;
      if |pxyNames| > 0 {
        name := pxyNames[index % |pxyNames|];
      }
      if name == NO_NAME {
        return Nobody;
      }
      return Picked(name);
    }

    /** `createConn` draws the same way and calls the member's callback, whatever its name. */
    method CreateConn() returns (f: seq<Fn>)
      requires Agree(Model())
      modifies this`index
      ensures index == (old(index) + 1) % WORD
      ensures f == if pxyNames == [] then [] else [createFuncs[pxyNames[Turn(old(index), 0, |pxyNames|)]]]
    {
      index := (index + 1) % WORD;
      if |pxyNames| > 0 {
        var name := pxyNames[index % |pxyNames|];
        return [createFuncs[name]];
      }
      return [];
    }
  }
}
