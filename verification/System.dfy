/** Sessions and resources together (server/control.go, server/proxy/tcp.go, server/group/tcp.go):
    a control's registration runs a TCP proxy, and its closing, its teardown and a failed
    registration close it. A step is a step of `Session` or of `Groups`; a step of `Session` that
    stands for the end of `Run` or `Close` waits for the proxy to have got there. */
module System {
  import opened Wrappers
  import Session
  import Groups

  /** Which control answers for a proxy life. */
  datatype Who =
    | Nobody
    | Hand(c: Session.CtlId)                // the registration in progress
    | Held(c: Session.CtlId, name: string)  // the proxy of that name

  datatype State = State(server: Session.Server, res: Groups.State, who: seq<Who>)

  datatype Action =
    | Spawn(c: Session.CtlId, req: Groups.Request)  // the registration begins to run its proxy
    | Ctl(st: Session.Step)
    | Res(step: Groups.Step)

  function Init(quota: nat, allowed: set<int>): State {
    State(Session.Init(quota), Groups.Init(allowed), [])
  }

  predicate Up(st: Groups.Stage) {
    st.Member? || st.Serving?
  }

  ghost predicate AllEnded(s: State, w: Who) {
    forall i :: 0 <= i < |s.who| && i < |s.res.proxies| && s.who[i] == w ==> s.res.proxies[i].stage.Ended?
  }

  ghost predicate AllUp(s: State, w: Who) {
    forall i :: 0 <= i < |s.who| && i < |s.res.proxies| && s.who[i] == w ==> Up(s.res.proxies[i].stage)
  }

  /** Its control is closing this life. */
  predicate BeingClosed(server: Session.Server, w: Who) {
    match w
    case Nobody => false
    case Hand(c) => c < |server.controls| && server.controls[c].handling.Undoing?
    case Held(c, n) =>
      c < |server.controls| && (server.controls[c].handling == Session.Removing(n) || n in server.controls[c].toClose)
  }

  /** `Run` has returned, or `Close` has, where the source goes on only then. */
  ghost predicate Ready(s: State, c: Session.CtlId, act: Session.Action)
    requires c < |s.server.controls|
  {
    match act
    case RunProxy(ok) => Hand(c) in s.who && (if ok then AllUp(s, Hand(c)) else AllEnded(s, Hand(c)))
    case Refund => AllEnded(s, Hand(c))
    case DelFromManager => s.server.controls[c].handling.Removing? ==> AllEnded(s, Held(c, s.server.controls[c].handling.name))
    case TeardownOne(name) => AllEnded(s, Held(c, name))
    case _ => true
  }

  ghost predicate Can(s: State, a: Action) {
    match a
    case Spawn(c, req) =>
      && c < |s.server.controls| && s.server.controls[c].handling.Checked? && Hand(c) !in s.who
      && req.name == s.server.controls[c].handling.name
    case Ctl(st) => Session.Enabled(s.server, st) && (st.Act? ==> Ready(s, st.c, st.act))
    case Res(step) =>
      && !step.Spawn?
      && (step.Act? && (step.act.BeginClose? || step.act.CloseAlone?) ==>
            step.i < |s.who| && BeingClosed(s.server, s.who[step.i]))
  }

  function Reassigned(who: seq<Who>, from: Who, to: Who): (r: seq<Who>)
    ensures |r| == |who| && forall i :: 0 <= i < |who| ==> r[i] == if who[i] == from then to else who[i]
  {
    seq(|who|, i requires 0 <= i < |who| => if who[i] == from then to else who[i])
  }

  /** Who answers for the lives after a control's step. */
  function WhoAfter(s: State, c: Session.CtlId, act: Session.Action): seq<Who>
    requires c < |s.server.controls| && Session.CanAct(s.server, c, act)
  {
    var h := s.server.controls[c].handling;
    match act
    case RunProxy(ok) => if ok then s.who else Reassigned(s.who, Hand(c), Nobody)
    case AddToManager => if h.name in s.server.pxys then s.who else Reassigned(s.who, Hand(c), Held(c, h.name))
    case Refund => Reassigned(s.who, Hand(c), Nobody)
    case DelFromManager => Reassigned(s.who, Held(c, h.name), Nobody)
    case TeardownOne(name) => Reassigned(s.who, Held(c, name), Nobody)
    case _ => s.who
  }

  ghost function Apply(s: State, a: Action): State
    requires Can(s, a)
  {
    match a
    case Spawn(c, req) => s.(res := Groups.Apply(s.res, Groups.Spawn(req)), who := s.who + [Hand(c)])
    case Ctl(st) =>
      State(Session.Apply(s.server, st), s.res, if st.Act? then WhoAfter(s, st.c, st.act) else s.who)
    case Res(step) => s.(res := Groups.Apply(s.res, step))
  }

  // ---------- what every step keeps ----------

  /** A life has ended, or its control still has to do with it; a proxy that is registered and not
      being closed is up. */
  ghost predicate LifeOk(server: Session.Server, st: Groups.Stage, w: Who) {
    match w
    case Nobody => st.Ended?
    case Hand(c) =>
      && c < |server.controls|
      && var h := server.controls[c].handling;
         (h.Checked? || h.Ran? || h.Undoing?) && (h.Ran? ==> Up(st))
    case Held(c, n) =>
      && c < |server.controls| && n in Session.Owned(server.controls[c])
      && (BeingClosed(server, w) || Up(st))
  }

  ghost predicate LivesOk(s: State) {
    && |s.who| == |s.res.proxies|
    && (forall i :: 0 <= i < |s.who| ==> LifeOk(s.server, s.res.proxies[i].stage, s.who[i]))
  }

  /** Every name a control owns, and every proxy just run, has a life. */
  ghost predicate Alive(server: Session.Server, who: seq<Who>) {
    && (forall c: Session.CtlId, n ::
          c < |server.controls| && n in Session.Owned(server.controls[c]) ==> Held(c, n) in who)
    && (forall c: Session.CtlId :: c < |server.controls| && server.controls[c].handling.Ran? ==> Hand(c) in who)
  }

  ghost predicate Inv(s: State, allowed: set<int>) {
    Session.Inv(s.server) && Groups.Inv(s.res, allowed) && LivesOk(s) && Alive(s.server, s.who)
  }

  /** A life that is up moves only by being closed; one that has ended stays so. */
  lemma StageMoves(s: Groups.State, step: Groups.Step, i: Groups.Pid)
    requires i < |s.proxies| && !step.Spawn?
    requires Up(s.proxies[i].stage) ==> !(step.Act? && step.i == i && (step.act.BeginClose? || step.act.CloseAlone?))
    ensures i < |Groups.Apply(s, step).proxies|
    ensures var p, q := s.proxies[i].stage, Groups.Apply(s, step).proxies[i].stage;
            (p.Ended? ==> q.Ended?) && (Up(p) ==> Up(q))
  {
    if step.Act? && Groups.CanAct(s, step.i, step.act) {
      if step.i != i {
        Groups.ActLeavesOthers(s, step.i, step.act, i);
      }
    }
  }

  lemma ResKeepsLives(s: State, step: Groups.Step)
    requires LivesOk(s) && Can(s, Res(step))
    ensures LivesOk(Apply(s, Res(step)))
  {
    var t := Apply(s, Res(step));
    Groups.StepKeepsCount(s.res, step);
    forall i | 0 <= i < |s.who| ensures LifeOk(t.server, t.res.proxies[i].stage, t.who[i]) {
      assert LifeOk(s.server, s.res.proxies[i].stage, s.who[i]);
      if !BeingClosed(s.server, s.who[i]) {
        StageMoves(s.res, step, i);
      }
    }
  }

  lemma SpawnKeepsLives(s: State, c: Session.CtlId, req: Groups.Request)
    requires LivesOk(s) && Alive(s.server, s.who) && Can(s, Spawn(c, req))
    ensures var t := Apply(s, Spawn(c, req)); LivesOk(t) && Alive(t.server, t.who)
  {
    var t := Apply(s, Spawn(c, req));
    forall i | 0 <= i < |t.who| ensures LifeOk(t.server, t.res.proxies[i].stage, t.who[i]) {
      assert i < |s.who| ==> LifeOk(s.server, s.res.proxies[i].stage, s.who[i]);
    }
    assert forall w :: w in s.who ==> w in t.who;
  }

  /** What a life depends on in its control. */
  predicate Alike(a: Session.Control, b: Session.Control) {
    a.handling == b.handling && a.proxies == b.proxies && a.toClose == b.toClose
  }

  lemma LoginLeavesAlike(s: Session.Server, st: Session.Step)
    requires st.Login? && Session.Enabled(s, st)
    ensures var t := Session.Apply(s, st);
            && |t.controls| == |s.controls| + 1
            && (forall j :: 0 <= j < |s.controls| ==> Alike(t.controls[j], s.controls[j]))
            && t.controls[|s.controls|].handling.Idle? && Session.Owned(t.controls[|s.controls|]) == {}
  {
  }

  lemma LoginKeepsLives(s: State, st: Session.Step)
    requires LivesOk(s) && Alive(s.server, s.who) && st.Login? && Can(s, Ctl(st))
    ensures var t := Apply(s, Ctl(st)); LivesOk(t) && Alive(t.server, t.who)
  {
    var t := Apply(s, Ctl(st));
    LoginLeavesAlike(s.server, st);
    forall i | 0 <= i < |s.who| ensures LifeOk(t.server, t.res.proxies[i].stage, t.who[i]) {
      assert LifeOk(s.server, s.res.proxies[i].stage, s.who[i]);
    }
    forall c: Session.CtlId | c < |t.server.controls|
      ensures forall n :: n in Session.Owned(t.server.controls[c]) ==> Held(c, n) in t.who
      ensures t.server.controls[c].handling.Ran? ==> Hand(c) in t.who
    {
      assert c < |s.server.controls| ==> Alike(t.server.controls[c], s.server.controls[c]);
    }
  }

  // ---------- one step of a control ----------

  /** The life of the registration in progress. */
  lemma HandAfterAct(s: State, c: Session.CtlId, act: Session.Action, i: nat)
    requires i < |s.who| && i < |s.res.proxies| && s.who[i] == Hand(c)
    requires LifeOk(s.server, s.res.proxies[i].stage, Hand(c)) && c < |s.server.controls|
    requires Session.CanAct(s.server, c, act) && Ready(s, c, act)
    requires Session.WellFormed(s.server.quota, s.server.controls[c])
    ensures LifeOk(Session.Apply(s.server, Session.Act(c, act)), s.res.proxies[i].stage, WhoAfter(s, c, act)[i])
  {
    var t := Session.Apply(s.server, Session.Act(c, act));
    assert t.controls == s.server.controls[c := Session.Acted(s.server, c, act)];
  }

  /** The life of a proxy by name. */
  lemma HeldAfterAct(s: State, c: Session.CtlId, act: Session.Action, i: nat, n: string)
    requires i < |s.who| && i < |s.res.proxies| && s.who[i] == Held(c, n)
    requires LifeOk(s.server, s.res.proxies[i].stage, Held(c, n)) && c < |s.server.controls|
    requires Session.CanAct(s.server, c, act) && Ready(s, c, act)
    requires Session.WellFormed(s.server.quota, s.server.controls[c])
    ensures LifeOk(Session.Apply(s.server, Session.Act(c, act)), s.res.proxies[i].stage, WhoAfter(s, c, act)[i])
  {
    var t := Session.Apply(s.server, Session.Act(c, act));
    assert t.controls == s.server.controls[c := Session.Acted(s.server, c, act)];
  }

  lemma OtherAfterAct(s: State, c: Session.CtlId, act: Session.Action, i: nat)
    requires i < |s.who| && i < |s.res.proxies| && (s.who[i] == Nobody || s.who[i].c != c)
    requires LifeOk(s.server, s.res.proxies[i].stage, s.who[i]) && c < |s.server.controls|
    requires Session.CanAct(s.server, c, act)
    ensures LifeOk(Session.Apply(s.server, Session.Act(c, act)), s.res.proxies[i].stage, WhoAfter(s, c, act)[i])
  {
    var t := Session.Apply(s.server, Session.Act(c, act));
    assert t.controls == s.server.controls[c := Session.Acted(s.server, c, act)];
  }

  lemma StillIn(who: seq<Who>, from: Who, to: Who, w: Who)
    requires w in who
    ensures w != from ==> w in Reassigned(who, from, to)
    ensures w == from ==> to in Reassigned(who, from, to)
  {
    var i :| 0 <= i < |who| && who[i] == w;
    assert Reassigned(who, from, to)[i] == if w == from then to else w;
  }

  /** What a step does to the names and the handling of its own control. */
  lemma OwnedAfterAct(s: Session.Server, c: Session.CtlId, act: Session.Action)
    requires Session.CanAct(s, c, act) && Session.WellFormed(s.quota, s.controls[c])
    ensures var a, b := s.controls[c], Session.Acted(s, c, act);
            && Session.Owned(b) ==
               (if act.AddToManager? && a.handling.name !in s.pxys then Session.Owned(a) + {a.handling.name}
                else if act.DelFromManager? then Session.Owned(a) - {a.handling.name}
                else if act.TeardownOne? then Session.Owned(a) - {act.name}
                else Session.Owned(a))
            && (b.handling.Ran? ==> act == Session.RunProxy(true) || (a.handling.Ran? && b == a.(phase := b.phase)))
  {
  }

  lemma WhoStays(s: State, c: Session.CtlId, act: Session.Action, w: Who)
    requires c < |s.server.controls| && Session.CanAct(s.server, c, act) && w in s.who
    requires w != Hand(c) || !(act.AddToManager? || act.Refund? || act == Session.RunProxy(false))
    requires w.Held? && w.c == c ==> !(act == Session.TeardownOne(w.name))
                                     && !(act.DelFromManager? && s.server.controls[c].handling.name == w.name)
    ensures w in WhoAfter(s, c, act)
  {
    var h := s.server.controls[c].handling;
    match act
    case RunProxy(ok) => StillIn(s.who, Hand(c), Nobody, w);
    case AddToManager => StillIn(s.who, Hand(c), Held(c, h.name), w);
    case Refund => StillIn(s.who, Hand(c), Nobody, w);
    case DelFromManager => StillIn(s.who, Held(c, h.name), Nobody, w);
    case TeardownOne(name) => StillIn(s.who, Held(c, name), Nobody, w);
    case _ =>
  }

  lemma ActKeepsAlive(s: State, c: Session.CtlId, act: Session.Action)
    requires Alive(s.server, s.who) && c < |s.server.controls|
    requires Session.CanAct(s.server, c, act) && Ready(s, c, act)
    requires Session.WellFormed(s.server.quota, s.server.controls[c])
    ensures Alive(Session.Apply(s.server, Session.Act(c, act)), WhoAfter(s, c, act))
  {
    var t, who := Session.Apply(s.server, Session.Act(c, act)), WhoAfter(s, c, act);
    assert t.controls == s.server.controls[c := Session.Acted(s.server, c, act)];
    OwnedAfterAct(s.server, c, act);
    var h := s.server.controls[c].handling;
    forall d: Session.CtlId, n | d < |t.controls| && n in Session.Owned(t.controls[d]) ensures Held(d, n) in who {
      if d == c && act.AddToManager? && h.name !in s.server.pxys && n == h.name {
        StillIn(s.who, Hand(c), Held(c, n), Hand(c));
      } else {
        assert n in Session.Owned(s.server.controls[d]);
        WhoStays(s, c, act, Held(d, n));
      }
    }
    forall d: Session.CtlId | d < |t.controls| && t.controls[d].handling.Ran? ensures Hand(d) in who {
      WhoStays(s, c, act, Hand(d));
    }
  }

  lemma ActKeepsLives(s: State, c: Session.CtlId, act: Session.Action)
    requires LivesOk(s) && c < |s.server.controls|
    requires Session.CanAct(s.server, c, act) && Ready(s, c, act)
    requires Session.WellFormed(s.server.quota, s.server.controls[c])
    ensures LivesOk(State(Session.Apply(s.server, Session.Act(c, act)), s.res, WhoAfter(s, c, act)))
  {
    forall i | 0 <= i < |s.who|
      ensures LifeOk(Session.Apply(s.server, Session.Act(c, act)), s.res.proxies[i].stage, WhoAfter(s, c, act)[i])
    {
      assert LifeOk(s.server, s.res.proxies[i].stage, s.who[i]);
      match s.who[i]
      case Nobody => OtherAfterAct(s, c, act, i);
      case Hand(d) => if d == c { HandAfterAct(s, c, act, i); } else { OtherAfterAct(s, c, act, i); }
      case Held(d, n) => if d == c { HeldAfterAct(s, c, act, i, n); } else { OtherAfterAct(s, c, act, i); }
    }
  }

  lemma StepKeepsInv(s: State, a: Action, allowed: set<int>)
    requires 0 !in allowed && Inv(s, allowed) && Can(s, a)
    ensures Inv(Apply(s, a), allowed)
  {
    match a
    case Spawn(c, req) =>
      Groups.StepKeepsInv(s.res, Groups.Spawn(req), allowed);
      SpawnKeepsLives(s, c, req);
    case Res(step) =>
      Groups.StepKeepsInv(s.res, step, allowed);
      ResKeepsLives(s, step);
    case Ctl(st) =>
      Session.StepKeepsChain(s.server, st);
      Session.StepKeepsNames(s.server, st);
      if st.Act? {
        assert Session.WellFormed(s.server.quota, s.server.controls[st.c]);
        ActKeepsLives(s, st.c, st.act);
        ActKeepsAlive(s, st.c, st.act);
      } else {
        LoginKeepsLives(s, st);
      }
  }

  // ---------- every run ----------

  ghost predicate CanRun(s: State, actions: seq<Action>)
    decreases |actions|
  {
    actions != [] ==> Can(s, actions[0]) && CanRun(Apply(s, actions[0]), actions[1..])
  }

  ghost function After(s: State, actions: seq<Action>): State
    requires CanRun(s, actions)
    decreases |actions|
  {
    if actions == [] then s else After(Apply(s, actions[0]), actions[1..])
  }

  lemma {:induction false} RunKeepsInv(s: State, actions: seq<Action>, allowed: set<int>)
    requires 0 !in allowed && Inv(s, allowed) && CanRun(s, actions)
    ensures Inv(After(s, actions), allowed)
    decreases |actions|
  {
    if actions != [] {
      StepKeepsInv(s, actions[0], allowed);
      RunKeepsInv(Apply(s, actions[0]), actions[1..], allowed);
    }
  }

  lemma InitInv(quota: nat, allowed: set<int>)
    ensures Inv(Init(quota, allowed), allowed)
  {
  }

  ghost predicate AllSettled(s: Session.Server) {
    forall c :: 0 <= c < |s.controls| ==> Session.Settled(s.controls[c].phase)
  }

  /** In every run: once every control has finished or was refused, every port the server may use
      is free again, whatever registrations failed and whatever was torn down half-way. */
  lemma AllSettledAllFree(quota: nat, allowed: set<int>, actions: seq<Action>)
    requires 0 !in allowed && CanRun(Init(quota, allowed), actions)
    requires AllSettled(After(Init(quota, allowed), actions).server)
    ensures After(Init(quota, allowed), actions).res.ports.free == allowed
  {
    InitInv(quota, allowed);
    RunKeepsInv(Init(quota, allowed), actions, allowed);
    SettledAllEnded(After(Init(quota, allowed), actions));
    Groups.EndedAllFree(After(Init(quota, allowed), actions).res, allowed);
  }

  lemma SettledAllEnded(s: State)
    requires LivesOk(s) && Session.ShapeOk(s.server) && Session.NamesOwned(s.server) && AllSettled(s.server)
    ensures forall i :: 0 <= i < |s.res.proxies| ==> s.res.proxies[i].stage.Ended?
  {
    forall i | 0 <= i < |s.res.proxies| ensures s.res.proxies[i].stage.Ended? {
      assert LifeOk(s.server, s.res.proxies[i].stage, s.who[i]);
      if s.who[i] != Nobody {
        Session.SettledOwnsNothing(s.server, s.who[i].c);
      }
    }
  }

  /** In every run: a name in the proxy manager whose control is not closing it belongs to a proxy
      that serves, on a port of its own or as a member of a group. */
  lemma RegisteredNamesServe(quota: nat, allowed: set<int>, actions: seq<Action>, name: string)
    requires 0 !in allowed && CanRun(Init(quota, allowed), actions)
    requires var s := After(Init(quota, allowed), actions);
             name in s.server.pxys && !BeingClosed(s.server, Held(s.server.pxys[name], name))
    ensures var s := After(Init(quota, allowed), actions);
            exists i :: 0 <= i < |s.who| && i < |s.res.proxies| && s.who[i] == Held(s.server.pxys[name], name)
                        && Up(s.res.proxies[i].stage)
  {
    InitInv(quota, allowed);
    RunKeepsInv(Init(quota, allowed), actions, allowed);
    var s := After(Init(quota, allowed), actions);
    var c := s.server.pxys[name];
    OwnerOwns(s.server, name);
    var i :| 0 <= i < |s.who| && s.who[i] == Held(c, name);
    assert LifeOk(s.server, s.res.proxies[i].stage, s.who[i]);
  }

  lemma OwnerOwns(s: Session.Server, name: string)
    requires Session.NamesOwned(s) && name in s.pxys
    ensures s.pxys[name] < |s.controls| && name in Session.Owned(s.controls[s.pxys[name]])
  {
  }
}
