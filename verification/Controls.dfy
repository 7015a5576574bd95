/** The server's control objects themselves (server/control.go, server/proxy/proxy.go): the
    manager of controls, the manager of proxies, and a control that registers and closes
    proxies. `Session` is about their interleavings; here each method runs undisturbed, and
    its outcome is that of the steps of `Session` taken one after the other. */
module Controls {
  import opened Wrappers
  import Session

  datatype Error = NoError | ExceedsMaxPorts | NameExists | RunFailed

  // ---------- undisturbed calls as steps ----------

  /** What a call changes: a control's own table and count, and the proxy manager. */
  datatype View = View(proxies: map<string, nat>, portsUsed: int, pxys: map<string, Session.CtlId>)

  function ViewOf(s: Session.Server, c: Session.CtlId): View
    requires c < |s.controls|
  {
    View(s.controls[c].proxies, s.controls[c].portsUsed, s.pxys)
  }

  /** Nothing but that view of `c` differs. */
  ghost predicate OnlyViewDiffers(s: Session.Server, t: Session.Server, c: Session.CtlId)
    requires c < |s.controls|
  {
    && c < |t.controls|
    && t == s.(controls := s.controls[c := s.controls[c].(proxies := t.controls[c].proxies,
                                                          portsUsed := t.controls[c].portsUsed)],
               pxys := t.pxys)
  }

  function RegisterSteps(c: Session.CtlId, name: string, ports: nat, runs: bool): seq<Session.Step> {
    [Session.Act(c, Session.NewProxy(name, ports)), Session.Act(c, Session.CheckExist),
     Session.Act(c, Session.RunProxy(runs)), Session.Act(c, Session.AddToManager),
     Session.Act(c, Session.Commit), Session.Act(c, Session.Refund)]
  }

  /** `RegisterProxy` when nobody is in between. */
  function RegisteredView(v: View, quota: nat, c: Session.CtlId, name: string, ports: nat, runs: bool): View {
    if (quota > 0 && v.portsUsed + ports > quota) || name in v.pxys || !runs then v
    else View(v.proxies[name := ports], if quota > 0 then v.portsUsed + ports else v.portsUsed, v.pxys[name := c])
  }

  /** `s` with that control in place `c` and that proxy manager. */
  function At(s: Session.Server, c: Session.CtlId, ctl: Session.Control, pxys: map<string, Session.CtlId>): Session.Server
    requires c < |s.controls|
  {
    s.(controls := s.controls[c := ctl], pxys := pxys)
  }

  lemma Moves(
    s: Session.Server, c: Session.CtlId, ctl: Session.Control, pxys: map<string, Session.CtlId>, act: Session.Action,
    ctl': Session.Control, pxys': map<string, Session.CtlId>)
    requires c < |s.controls| && Session.CanAct(At(s, c, ctl, pxys), c, act)
    requires !act.Del? && !act.Register? && !act.MarkOffline?
    requires ctl' == Session.Acted(At(s, c, ctl, pxys), c, act)
    requires pxys' == Session.ManagerAfter(At(s, c, ctl, pxys), c, act)
    ensures Session.Apply(At(s, c, ctl, pxys), Session.Act(c, act)) == At(s, c, ctl', pxys')
  {
    assert s.controls[c := ctl][c := ctl'] == s.controls[c := ctl'];
  }

  lemma Skips(s: Session.Server, c: Session.CtlId, act: Session.Action)
    requires !Session.CanAct(s, c, act)
    ensures Session.Apply(s, Session.Act(c, act)) == s
  {
  }

  lemma ExecOfThree(s: Session.Server, a: Session.Step, b: Session.Step, c: Session.Step)
    ensures Session.Exec(s, [a, b, c]) == Session.Apply(Session.Apply(Session.Apply(s, a), b), c)
  {
    ExecOfTwo(s, a, b);
    Session.ExecSnoc(s, [a, b], c);
    assert [a, b] + [c] == [a, b, c];
  }

  lemma {:induction false} ExecInTwo(s: Session.Server, first: seq<Session.Step>, second: seq<Session.Step>)
    ensures Session.Exec(s, first + second) == Session.Exec(Session.Exec(s, first), second)
    decreases |first|
  {
    if first == [] {
      assert first + second == second;
    } else {
      assert (first + second)[1..] == first[1..] + second;
      ExecInTwo(Session.Apply(s, first[0]), first[1..], second);
    }
  }

  /** Six steps, three by three. */
  lemma ExecOfSix(s: Session.Server, a: seq<Session.Step>)
    requires |a| == 6
    ensures var h := Session.Apply(Session.Apply(Session.Apply(s, a[0]), a[1]), a[2]);
            Session.Exec(s, a) == Session.Apply(Session.Apply(Session.Apply(h, a[3]), a[4]), a[5])
  {
    var first, second := [a[0], a[1], a[2]], [a[3], a[4], a[5]];
    assert a == first + second;
    ExecInTwo(s, first, second);
    ExecOfThree(s, a[0], a[1], a[2]);
    ExecOfThree(Session.Exec(s, first), a[3], a[4], a[5]);
  }

  /** In an idle control the steps of a registration come to `RegisteredView`, whichever of them
      are enabled, and change nothing else. */
  lemma RegisterIsSteps(s: Session.Server, c: Session.CtlId, name: string, ports: nat, runs: bool)
    requires c < |s.controls| && s.controls[c].phase.Live? && s.controls[c].handling.Idle?
    ensures var t := Session.Exec(s, RegisterSteps(c, name, ports, runs));
            OnlyViewDiffers(s, t, c) && ViewOf(t, c) == RegisteredView(ViewOf(s, c), s.quota, c, name, ports, runs)
  {
    if Session.OverQuota(s, s.controls[c], ports) {
      RefusedAtOnce(s, c, name, ports, runs);
    } else if name in s.pxys || !runs {
      FailsAndRefunds(s, c, name, ports, runs);
    } else {
      RunsAndCommits(s, c, name, ports);
    }
  }

  lemma RefusedAtOnce(s: Session.Server, c: Session.CtlId, name: string, ports: nat, runs: bool)
    requires c < |s.controls| && s.controls[c].phase.Live? && s.controls[c].handling.Idle?
    requires Session.OverQuota(s, s.controls[c], ports)
    ensures Session.Exec(s, RegisterSteps(c, name, ports, runs)) == s
  {
    ExecOfSix(s, RegisterSteps(c, name, ports, runs));
    assert At(s, c, s.controls[c], s.pxys) == s;
    Moves(s, c, s.controls[c], s.pxys, Session.NewProxy(name, ports), s.controls[c], s.pxys);
    SkipsToTheEnd(s, c, runs);
  }

  lemma SkipsToTheEnd(s: Session.Server, c: Session.CtlId, runs: bool)
    requires c < |s.controls| && s.controls[c].handling.Idle?
    ensures Session.Apply(s, Session.Act(c, Session.CheckExist)) == s
    ensures Session.Apply(s, Session.Act(c, Session.RunProxy(runs))) == s
    ensures Session.Apply(s, Session.Act(c, Session.AddToManager)) == s
    ensures Session.Apply(s, Session.Act(c, Session.Commit)) == s
    ensures Session.Apply(s, Session.Act(c, Session.Refund)) == s
  {
    Skips(s, c, Session.CheckExist);
    Skips(s, c, Session.RunProxy(runs));
    Skips(s, c, Session.AddToManager);
    Skips(s, c, Session.Commit);
    Skips(s, c, Session.Refund);
  }

  /** The control after the quota is charged. */
  function Charged(s: Session.Server, c: Session.CtlId, ports: nat, h: Session.Handling): Session.Control
    requires c < |s.controls|
  {
    s.controls[c].(handling := h, portsUsed := Session.Charge(s, s.controls[c].portsUsed, ports))
  }

  lemma BeginsToRegister(s: Session.Server, c: Session.CtlId, name: string, ports: nat)
    requires c < |s.controls| && s.controls[c].phase.Live? && s.controls[c].handling.Idle?
    requires !Session.OverQuota(s, s.controls[c], ports)
    ensures Session.Apply(s, Session.Act(c, Session.NewProxy(name, ports)))
            == At(s, c, Charged(s, c, ports, Session.Reserved(name, ports)), s.pxys)
  {
    assert At(s, c, s.controls[c], s.pxys) == s;
    Moves(s, c, s.controls[c], s.pxys, Session.NewProxy(name, ports), Charged(s, c, ports, Session.Reserved(name, ports)), s.pxys);
  }

  lemma ChecksName(s: Session.Server, c: Session.CtlId, name: string, ports: nat)
    requires c < |s.controls|
    ensures Session.Apply(At(s, c, Charged(s, c, ports, Session.Reserved(name, ports)), s.pxys), Session.Act(c, Session.CheckExist))
            == At(s, c, Charged(s, c, ports, if name in s.pxys then Session.Undoing(name, ports) else Session.Checked(name, ports)),
                  s.pxys)
  {
    Moves(s, c, Charged(s, c, ports, Session.Reserved(name, ports)), s.pxys, Session.CheckExist,
          Charged(s, c, ports, if name in s.pxys then Session.Undoing(name, ports) else Session.Checked(name, ports)), s.pxys);
  }

  lemma RunsProxy(s: Session.Server, c: Session.CtlId, name: string, ports: nat, runs: bool)
    requires c < |s.controls|
    ensures Session.Apply(At(s, c, Charged(s, c, ports, Session.Checked(name, ports)), s.pxys), Session.Act(c, Session.RunProxy(runs)))
            == At(s, c, Charged(s, c, ports, if runs then Session.Ran(name, ports) else Session.Undoing(name, ports)), s.pxys)
  {
    Moves(s, c, Charged(s, c, ports, Session.Checked(name, ports)), s.pxys, Session.RunProxy(runs),
          Charged(s, c, ports, if runs then Session.Ran(name, ports) else Session.Undoing(name, ports)), s.pxys);
  }

  lemma AddsAndCommits(s: Session.Server, c: Session.CtlId, name: string, ports: nat)
    requires c < |s.controls| && name !in s.pxys
    ensures Session.Apply(Session.Apply(At(s, c, Charged(s, c, ports, Session.Ran(name, ports)), s.pxys),
                                        Session.Act(c, Session.AddToManager)), Session.Act(c, Session.Commit))
            == At(s, c, Charged(s, c, ports, Session.Idle).(proxies := s.controls[c].proxies[name := ports]), s.pxys[name := c])
  {
    var added := Charged(s, c, ports, Session.Added(name, ports));
    Moves(s, c, Charged(s, c, ports, Session.Ran(name, ports)), s.pxys, Session.AddToManager, added, s.pxys[name := c]);
    Moves(s, c, added, s.pxys[name := c], Session.Commit,
          Charged(s, c, ports, Session.Idle).(proxies := s.controls[c].proxies[name := ports]), s.pxys[name := c]);
  }

  lemma RunsAndCommits(s: Session.Server, c: Session.CtlId, name: string, ports: nat)
    requires c < |s.controls| && s.controls[c].phase.Live? && s.controls[c].handling.Idle?
    requires !Session.OverQuota(s, s.controls[c], ports) && name !in s.pxys
    ensures Session.Exec(s, RegisterSteps(c, name, ports, true))
            == At(s, c, Charged(s, c, ports, Session.Idle).(proxies := s.controls[c].proxies[name := ports]), s.pxys[name := c])
  {
    ExecOfSix(s, RegisterSteps(c, name, ports, true));
    BeginsToRegister(s, c, name, ports);
    ChecksName(s, c, name, ports);
    RunsProxy(s, c, name, ports, true);
    AddsAndCommits(s, c, name, ports);
    var done := Charged(s, c, ports, Session.Idle).(proxies := s.controls[c].proxies[name := ports]);
    Skips(At(s, c, done, s.pxys[name := c]), c, Session.Refund);
  }

  lemma Refunds(s: Session.Server, c: Session.CtlId, name: string, ports: nat)
    requires c < |s.controls| && s.controls[c].handling.Idle?
    ensures var u := At(s, c, Charged(s, c, ports, Session.Undoing(name, ports)), s.pxys);
            && Session.Apply(u, Session.Act(c, Session.AddToManager)) == u
            && Session.Apply(u, Session.Act(c, Session.Commit)) == u
            && Session.Apply(u, Session.Act(c, Session.Refund)) == s
  {
    var undoing := Charged(s, c, ports, Session.Undoing(name, ports));
    Skips(At(s, c, undoing, s.pxys), c, Session.AddToManager);
    Skips(At(s, c, undoing, s.pxys), c, Session.Commit);
    Moves(s, c, undoing, s.pxys, Session.Refund, s.controls[c], s.pxys);
    assert At(s, c, s.controls[c], s.pxys) == s;
  }

  /** The first half of a registration that fails: the quota is to be given back. */
  lemma Fails(s: Session.Server, c: Session.CtlId, name: string, ports: nat, runs: bool)
    requires c < |s.controls| && s.controls[c].phase.Live? && s.controls[c].handling.Idle?
    requires !Session.OverQuota(s, s.controls[c], ports) && (name in s.pxys || !runs)
    ensures Session.Apply(Session.Apply(Session.Apply(s, Session.Act(c, Session.NewProxy(name, ports))),
                                        Session.Act(c, Session.CheckExist)), Session.Act(c, Session.RunProxy(runs)))
            == At(s, c, Charged(s, c, ports, Session.Undoing(name, ports)), s.pxys)
  {
    BeginsToRegister(s, c, name, ports);
    ChecksName(s, c, name, ports);
    if name in s.pxys {
      Skips(At(s, c, Charged(s, c, ports, Session.Undoing(name, ports)), s.pxys), c, Session.RunProxy(runs));
    } else {
      RunsProxy(s, c, name, ports, runs);
    }
  }

  lemma FailsAndRefunds(s: Session.Server, c: Session.CtlId, name: string, ports: nat, runs: bool)
    requires c < |s.controls| && s.controls[c].phase.Live? && s.controls[c].handling.Idle?
    requires !Session.OverQuota(s, s.controls[c], ports) && (name in s.pxys || !runs)
    ensures Session.Exec(s, RegisterSteps(c, name, ports, runs)) == s
  {
    ExecOfSix(s, RegisterSteps(c, name, ports, runs));
    Fails(s, c, name, ports, runs);
    Refunds(s, c, name, ports);
  }

  /** `CloseProxy` when nobody is in between. */
  function ClosedView(v: View, quota: nat, name: string): View {
    if name !in v.proxies then v
    else View(v.proxies - {name}, if quota > 0 then v.portsUsed - v.proxies[name] else v.portsUsed, v.pxys - {name})
  }

  lemma CloseIsSteps(s: Session.Server, c: Session.CtlId, name: string)
    requires c < |s.controls| && s.controls[c].phase.Live? && s.controls[c].handling.Idle?
    ensures var t := Session.Exec(s, [Session.Act(c, Session.CloseProxy(name)), Session.Act(c, Session.DelFromManager)]);
            OnlyViewDiffers(s, t, c) && ViewOf(t, c) == ClosedView(ViewOf(s, c), s.quota, name)
  {
    ExecOfTwo(s, Session.Act(c, Session.CloseProxy(name)), Session.Act(c, Session.DelFromManager));
    ClosesAndDeletes(s, c, name);
  }

  lemma ExecOfTwo(s: Session.Server, a: Session.Step, b: Session.Step)
    ensures Session.Exec(s, [a, b]) == Session.Apply(Session.Apply(s, a), b)
  {
    Session.ExecSnoc(s, [], a);
    Session.ExecSnoc(s, [a], b);
    assert [] + [a] == [a] && [a] + [b] == [a, b];
  }

  lemma ClosesAndDeletes(s: Session.Server, c: Session.CtlId, name: string)
    requires c < |s.controls| && s.controls[c].phase.Live? && s.controls[c].handling.Idle?
    ensures var v := ClosedView(ViewOf(s, c), s.quota, name);
            Session.Apply(Session.Apply(s, Session.Act(c, Session.CloseProxy(name))), Session.Act(c, Session.DelFromManager))
            == At(s, c, s.controls[c].(proxies := v.proxies, portsUsed := v.portsUsed), v.pxys)
  {
    var ctl := s.controls[c];
    assert At(s, c, ctl, s.pxys) == s;
    if name in ctl.proxies {
      var removing := ctl.(handling := Session.Removing(name), proxies := ctl.proxies - {name},
                           portsUsed := Session.Uncharge(s, ctl.portsUsed, ctl.proxies[name]));
      Moves(s, c, ctl, s.pxys, Session.CloseProxy(name), removing, s.pxys);
      Moves(s, c, removing, s.pxys, Session.DelFromManager, removing.(handling := Session.Idle), s.pxys - {name});
    } else {
      Moves(s, c, ctl, s.pxys, Session.CloseProxy(name), ctl, s.pxys);
      Skips(s, c, Session.DelFromManager);
    }
  }

  function TeardownSteps(c: Session.CtlId, order: seq<string>): seq<Session.Step> {
    if order == [] then [Session.Act(c, Session.Teardown)]
    else TeardownSteps(c, order[..|order| - 1]) + [Session.Act(c, Session.TeardownOne(order[|order| - 1]))]
  }

  /** The worker's teardown, in any order of the proxies it took: their names leave the manager,
      and nothing is left to close. */
  lemma {:induction false} TeardownIsSteps(s: Session.Server, c: Session.CtlId, order: seq<string>)
    requires c < |s.controls| && s.controls[c].phase.Live? && s.controls[c].handling.Idle?
    requires forall n :: n in order ==> n in s.controls[c].proxies
    ensures var t := Session.Exec(s, TeardownSteps(c, order));
            && c < |t.controls|
            && t.controls == s.controls[c := s.controls[c].(phase := Session.Closing, proxies := map[],
                                                           toClose := t.controls[c].toClose)]
            && t.controls[c].toClose == (set n | n in s.controls[c].proxies && n !in order)
            && t.pxys == (map n | n in s.pxys && n !in order :: s.pxys[n])
            && t.quota == s.quota && t.ctls == s.ctls && t.registry == s.registry
    decreases |order|
  {
    if order == [] {
      assert s.controls[c].proxies.Keys == set n | n in s.controls[c].proxies && n !in order;
    } else {
      var k := |order| - 1;
      TeardownIsSteps(s, c, order[..k]);
      assert order == order[..k] + [order[k]];
      var t := Session.Exec(s, TeardownSteps(c, order[..k]));
      Session.ExecSnoc(s, TeardownSteps(c, order[..k]), Session.Act(c, Session.TeardownOne(order[k])));
      TeardownStep(s, t, c, order[..k], order[k]);
    }
  }

  lemma TeardownStep(s: Session.Server, t: Session.Server, c: Session.CtlId, done: seq<string>, name: string)
    requires c < |s.controls| && c < |t.controls| && name in s.controls[c].proxies
    requires t.controls == s.controls[c := s.controls[c].(phase := Session.Closing, proxies := map[],
                                                          toClose := t.controls[c].toClose)]
    requires t.controls[c].toClose == set n | n in s.controls[c].proxies && n !in done
    requires t.pxys == map n | n in s.pxys && n !in done :: s.pxys[n]
    ensures var u := Session.Apply(t, Session.Act(c, Session.TeardownOne(name)));
            && c < |u.controls|
            && u.controls == s.controls[c := s.controls[c].(phase := Session.Closing, proxies := map[],
                                                            toClose := u.controls[c].toClose)]
            && u.controls[c].toClose == (set n | n in s.controls[c].proxies && n !in done + [name])
            && u.pxys == (map n | n in s.pxys && n !in done + [name] :: s.pxys[n])
            && u.quota == t.quota && u.ctls == t.ctls && u.registry == t.registry
  {
    var u := Session.Apply(t, Session.Act(c, Session.TeardownOne(name)));
    if name in done {
      assert forall n :: n in done + [name] <==> n in done;
      assert u == t;
    } else {
      assert u.controls[c].toClose == t.controls[c].toClose - {name};
      assert u.pxys == t.pxys - {name};
    }
  }

  /** `ControlManager.Add` is the login step: the newest control is entered, the displaced one
      has no run ID of its own any more, and every other control keeps its own. */
  lemma AddIsLogin(s: Session.Server, runID: string, user: string, clientID: string)
    requires Session.Enabled(s, Session.Login(runID, user, clientID))
    ensures var t := Session.Apply(s, Session.Login(runID, user, clientID));
            && |t.controls| == |s.controls| + 1
            && t.ctls == s.ctls[runID := |s.controls|]
            && (forall i :: 0 <= i < |s.controls| ==>
                  Session.OwnRunID(t.controls[i]) ==
                  if runID in s.ctls && s.ctls[runID] == i then "" else Session.OwnRunID(s.controls[i]))
  {
  }

  function DeletedEntries(ctls: map<string, Session.CtlId>, runID: string, c: Session.CtlId): map<string, Session.CtlId> {
    if runID in ctls && ctls[runID] == c then ctls - {runID} else ctls
  }

  /** `ControlManager.Del` is the deletion step, which changes nothing else. */
  lemma DelIsStep(s: Session.Server, c: Session.CtlId)
    requires Session.CanAct(s, c, Session.Del)
    ensures Session.Apply(s, Session.Act(c, Session.Del))
            == s.(ctls := DeletedEntries(s.ctls, s.controls[c].runID, c))
  {
    assert s.controls[c := s.controls[c]] == s.controls;
  }

  // ---------- the objects ----------

  /** Proxies by name; the value is the control that added the entry. */
  class ProxyManager {
    var pxys: map<string, Control>

    /** The owners by the numbers they have in `Session`. */
    ghost function Owners(): map<string, Session.CtlId>
      reads this
    {
      map n | n in pxys :: pxys[n].id
    }

    constructor ()
      ensures pxys == map[]
    {
      pxys := map[];
    }

    method Add(name: string, owner: Control) returns (ok: bool)
      modifies this
      ensures ok == (name !in old(pxys))
      ensures pxys == if ok then old(pxys)[name := owner] else old(pxys)
      ensures Owners() == if ok then old(Owners())[name := owner.id] else old(Owners())
    {
      if name in pxys {
        return false;
      }
      pxys := pxys[name := owner];
      return true;
    }

    method Del(name: string)
      modifies this
      ensures pxys == old(pxys) - {name} && Owners() == old(Owners()) - {name}
    {
      pxys := pxys - {name};
    }
  }

  class Control {
    const id: Session.CtlId
    var runID: string
    var connClosed: bool
    var proxies: map<string, nat>
    var portsUsedNum: int

    constructor (id: Session.CtlId, runID: string)
      ensures this.id == id && this.runID == runID && !connClosed && proxies == map[] && portsUsedNum == 0
    {
      this.id := id;
      this.runID := runID;
      connClosed := false;
      proxies := map[];
      portsUsedNum := 0;
    }

    ghost function Value(pm: ProxyManager): View
      reads this, pm
    {
      View(proxies, portsUsedNum, pm.Owners())
    }

    /** The proxy manager and this control agree on which names are this control's. */
    ghost predicate Holds(pm: ProxyManager)
      reads this, pm
    {
      forall n :: n in proxies <==> n in pm.pxys && pm.pxys[n] == this
    }

    ghost predicate WithinQuota(maxPorts: nat)
      reads this
    {
      maxPorts > 0 ==> portsUsedNum == Session.SumPorts(proxies) && portsUsedNum <= maxPorts
    }

    method Replaced()
      modifies this
      ensures runID == "" && connClosed
      ensures proxies == old(proxies) && portsUsedNum == old(portsUsedNum)
    {
      runID := "";
      connClosed := true;
    }

    /** The four ways a registration ends. Every failing one gives back the quota it
        charged and leaves both objects as they were. */
    method RegisterProxy(pm: ProxyManager, maxPorts: nat, name: string, ports: nat, runs: bool) returns (err: Error)
      requires Holds(pm) && WithinQuota(maxPorts)
      modifies this`proxies, this`portsUsedNum, pm
      ensures Holds(pm) && WithinQuota(maxPorts)
      ensures err == if maxPorts > 0 && old(portsUsedNum) + ports > maxPorts then ExceedsMaxPorts
                     else if name in old(pm.pxys) then NameExists
                     else if !runs then RunFailed
                     else NoError
      ensures err.NoError? ==> proxies == old(proxies)[name := ports] && pm.pxys == old(pm.pxys)[name := this]
      ensures !err.NoError? ==>
                proxies == old(proxies) && pm.pxys == old(pm.pxys) && portsUsedNum == old(portsUsedNum)
      ensures Value(pm) == RegisteredView(old(Value(pm)), maxPorts, id, name, ports, runs)
    {
      if maxPorts > 0 {
        if portsUsedNum + ports > maxPorts {
          return ExceedsMaxPorts;
        }
        portsUsedNum := portsUsedNum + ports;
      }
      if name in pm.pxys {
        err := NameExists;
      } else if !runs {
        err := RunFailed;
      } else {
        var added := pm.Add(name, this);
        err := if added then NoError else NameExists;
      }
      if !err.NoError? {
        if maxPorts > 0 {
          portsUsedNum := portsUsedNum - ports;
        }
        return;
      }
      Record(name, ports);
    }

    /** The last step of a registration. */
    method Record(name: string, ports: nat)
      requires name !in proxies
      modifies this`proxies
      ensures proxies == old(proxies)[name := ports]
      ensures Session.SumPorts(proxies) == Session.SumPorts(old(proxies)) + ports
    {
      Session.SumWith(proxies, name, ports);
      proxies := proxies[name := ports];
    }

    method CloseProxy(pm: ProxyManager, maxPorts: nat, name: string)
      requires Holds(pm) && WithinQuota(maxPorts)
      modifies this`proxies, this`portsUsedNum, pm
      ensures Holds(pm) && WithinQuota(maxPorts)
      ensures proxies == old(proxies) - {name}
      ensures pm.pxys == if name in old(proxies) then old(pm.pxys) - {name} else old(pm.pxys)
      ensures Value(pm) == ClosedView(old(Value(pm)), maxPorts, name)
    {
      if name !in proxies {
        return;
      }
      Session.SumWithout(proxies, name);
      if maxPorts > 0 {
        portsUsedNum := portsUsedNum - proxies[name];
      }
      proxies := proxies - {name};
      pm.Del(name);
    }

    /** The worker's teardown takes exactly this control's entries out of the manager. */
    method CloseAll(pm: ProxyManager)
      requires Holds(pm)
      modifies this`proxies, pm
      ensures proxies == map[] && Holds(pm)
      ensures pm.pxys == map n | n in old(pm.pxys) && old(pm.pxys[n]) != this :: old(pm.pxys[n])
      ensures pm.Owners() == map n | n in old(pm.Owners()) && n !in old(proxies) :: old(pm.Owners())[n]
    {
      var rest := proxies.Keys;
      proxies := map[];
      while rest != {}
        invariant proxies == map[]
        invariant forall n :: n in pm.pxys <==> n in old(pm.pxys) && (old(pm.pxys[n]) != this || n in rest)
        invariant forall n :: n in pm.pxys ==> pm.pxys[n] == old(pm.pxys[n])
        invariant forall n :: n in rest ==> n in old(pm.pxys) && old(pm.pxys[n]) == this
        decreases rest
      {
        var name :| name in rest;
        pm.Del(name);
        rest := rest - {name};
      }
    }
  }

  class ControlManager {
    var ctlsByRunID: map<string, Control>

    ghost function Entries(): map<string, Session.CtlId>
      reads this
    {
      map r | r in ctlsByRunID :: ctlsByRunID[r].id
    }

    constructor ()
      ensures ctlsByRunID == map[]
    {
      ctlsByRunID := map[];
    }

    /** Installs `ctl`; the control it displaces loses its run ID and its connection. */
    method Add(runID: string, ctl: Control) returns (displaced: Option<Control>)
      modifies this, ctlsByRunID.Values
      ensures ctlsByRunID == old(ctlsByRunID)[runID := ctl] && Entries() == old(Entries())[runID := ctl.id]
      ensures displaced == if runID in old(ctlsByRunID) then Some(old(ctlsByRunID)[runID]) else None
      ensures displaced.Some? ==> displaced.value.runID == "" && displaced.value.connClosed
      ensures forall c :: c in old(ctlsByRunID.Values) && (displaced.None? || c != displaced.value) ==>
                c.runID == old(c.runID) && c.connClosed == old(c.connClosed)
      ensures forall c :: c in old(ctlsByRunID.Values) ==> c.proxies == old(c.proxies)
    {
      displaced := None;
      if runID in ctlsByRunID {
        ctlsByRunID[runID].Replaced();
        displaced := Some(ctlsByRunID[runID]);
      }
      ctlsByRunID := ctlsByRunID[runID := ctl];
    }

    /** Removes the entry only if it is `ctl`'s own. */
    method Del(runID: string, ctl: Control)
      modifies this
      ensures runID in old(ctlsByRunID) && old(ctlsByRunID)[runID] != ctl ==> ctlsByRunID == old(ctlsByRunID)
      ensures !(runID in ctlsByRunID && ctlsByRunID[runID] == ctl)
      ensures ctlsByRunID - {runID} == old(ctlsByRunID) - {runID}
      ensures (runID in old(ctlsByRunID) && old(ctlsByRunID[runID]).id == ctl.id ==> old(ctlsByRunID[runID]) == ctl) ==>
                Entries() == DeletedEntries(old(Entries()), runID, ctl.id)
    {
      if runID in ctlsByRunID && ctlsByRunID[runID] == ctl {
        ctlsByRunID := ctlsByRunID - {runID};
      }
    }
  }
}
