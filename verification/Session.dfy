/** Sessions on the server as a state machine: logins, replacement of a control by a newer
    one with the same run ID, proxy registration and teardown (server/control.go,
    server/service.go, server/proxy/proxy.go).

    Each step is one critical section, or one effect between two of them, so a sequence
    of steps is an interleaving of any number of login, dispatcher and worker goroutines.
    A step that is not enabled leaves the state as it is, so every sequence is a run.
 */
module Session {
  import opened Wrappers
  import Registry

  type CtlId = nat

  /** Where a control is between login and the closing of its done channel. */
  datatype Phase =
    | Waiting(pred: CtlId)  // blocked on the done channel of the control it replaced
    | Admitted              // may register with the client registry
    | Rejected              // refused because its client ID is online; never started
    | Accepted              // registered, about to start
    | Live                  // its dispatcher reads messages
    | Closing               // its worker closes the proxies it had
    | Offline               // marked offline, done channel still open
    | Done                  // done channel closed

  /** Progress of the one message its dispatcher is handling. */
  datatype Handling =
    | Idle
    | Reserved(name: string, ports: nat)   // quota charged
    | Checked(name: string, ports: nat)    // the name was free when looked up
    | Ran(name: string, ports: nat)        // the proxy runs
    | Added(name: string, ports: nat)      // in the proxy manager, not yet in the control
    | Undoing(name: string, ports: nat)    // failed; the quota is still to be given back
    | Removing(name: string)               // out of the control, not yet out of the manager

  datatype Control = Control(
    runID: string,                // from the login message
    user: string,
    clientID: string,
    replacedBy: Option<CtlId>,    // set when `Replaced` blanks the control's own run ID
    phase: Phase,
    handling: Handling,
    proxies: map<string, nat>,    // used ports by proxy name
    toClose: set<string>,         // taken by the worker at teardown, not yet closed
    portsUsed: int)

  datatype Server = Server(
    quota: nat,                   // MaxPortsPerClient; 0 is no limit
    ctls: map<string, CtlId>,     // ctlsByRunID
    controls: seq<Control>,       // in the order of their logins
    pxys: map<string, CtlId>,     // proxy manager: owner by proxy name
    registry: Registry.State)

  function Init(quota: nat): Server {
    Server(quota, map[], [], map[], Registry.EMPTY)
  }

  /** The steps of one control. */
  datatype Action =
    | Wake
    | Register
    | Start
    | Del
    | NewProxy(name: string, ports: nat)
    | CheckExist
    | RunProxy(ok: bool)
    | AddToManager
    | Commit
    | Refund
    | CloseProxy(name: string)
    | DelFromManager
    | Teardown
    | TeardownOne(name: string)
    | MarkOffline
    | Finish

  datatype Step =
    | Login(runID: string, user: string, clientID: string)
    | Act(c: CtlId, act: Action)

  predicate Settled(p: Phase) {
    p.Rejected? || p.Done?
  }

  /** Started and not done. */
  predicate Running(p: Phase) {
    p.Live? || p.Closing? || p.Offline?
  }

  function WithControl(s: Server, c: CtlId, ctl: Control): Server
    requires c < |s.controls|
  {
    s.(controls := s.controls[c := ctl])
  }

  /** `ControlManager.Add` with `Replaced`, one critical section. */
  function LoggedIn(s: Server, runID: string, user: string, clientID: string): Server
    requires runID in s.ctls ==> s.ctls[runID] < |s.controls|
  {
    var n := |s.controls|;
    var fresh' := Control(runID, user, clientID, None, Admitted, Idle, map[], {}, 0);
    if runID in s.ctls then
      var old' := s.ctls[runID];
      s.(ctls := s.ctls[runID := n],
         controls := s.controls[old' := s.controls[old'].(replacedBy := Some(n))]
                     + [fresh'.(phase := Waiting(old'))])
    else
      s.(ctls := s.ctls[runID := n], controls := s.controls + [fresh'])
  }

  predicate Conflict(s: Server, c: CtlId)
    requires c < |s.controls|
  {
    var ctl := s.controls[c];
    Registry.Conflicts(s.registry, ctl.user, ctl.clientID, ctl.runID)
  }

  function OwnRunID(ctl: Control): string {
    if ctl.replacedBy.Some? then "" else ctl.runID
  }

  predicate OverQuota(s: Server, ctl: Control, ports: nat) {
    s.quota > 0 && ctl.portsUsed + ports > s.quota
  }

  function Charge(s: Server, portsUsed: int, ports: nat): int {
    if s.quota > 0 then portsUsed + ports else portsUsed
  }

  function Uncharge(s: Server, portsUsed: int, ports: nat): int {
    if s.quota > 0 then portsUsed - ports else portsUsed
  }

  predicate CanAct(s: Server, c: CtlId, act: Action) {
    c < |s.controls| &&
    var ctl := s.controls[c];
    match act
    case Wake => ctl.phase.Waiting? && ctl.phase.pred < |s.controls| && s.controls[ctl.phase.pred].phase.Done?
    case Register => ctl.phase.Admitted?
    case Start => ctl.phase.Accepted?
    case Del => Settled(ctl.phase)
    case NewProxy(name, ports) => ctl.phase.Live? && ctl.handling.Idle?
    case CheckExist => ctl.handling.Reserved?
    case RunProxy(ok) => ctl.handling.Checked?
    case AddToManager => ctl.handling.Ran?
    case Commit => ctl.handling.Added?
    case Refund => ctl.handling.Undoing?
    case CloseProxy(name) => ctl.phase.Live? && ctl.handling.Idle?
    case DelFromManager => ctl.handling.Removing?
    case Teardown => ctl.phase.Live? && ctl.handling.Idle?
    case TeardownOne(name) => ctl.phase.Closing? && name in ctl.toClose
    case MarkOffline => ctl.phase.Closing? && ctl.toClose == {}
    case Finish => ctl.phase.Offline?
  }

  /** The acting control after its step. */
  function Acted(s: Server, c: CtlId, act: Action): Control
    requires CanAct(s, c, act)
  {
    var ctl := s.controls[c];
    var h := ctl.handling;
    match act
    case Wake => ctl.(phase := Admitted)
    case Register => ctl.(phase := if Conflict(s, c) then Rejected else Accepted)
    case Start => ctl.(phase := Live)
    case Del => ctl
    case NewProxy(name, ports) =>
      if OverQuota(s, ctl, ports) then ctl
      else ctl.(handling := Reserved(name, ports), portsUsed := Charge(s, ctl.portsUsed, ports))
    case CheckExist =>
      ctl.(handling := if h.name in s.pxys then Undoing(h.name, h.ports) else Checked(h.name, h.ports))
    case RunProxy(ok) => ctl.(handling := if ok then Ran(h.name, h.ports) else Undoing(h.name, h.ports))
    case AddToManager =>
      ctl.(handling := if h.name in s.pxys then Undoing(h.name, h.ports) else Added(h.name, h.ports))
    case Commit => ctl.(handling := Idle, proxies := ctl.proxies[h.name := h.ports])
    case Refund => ctl.(handling := Idle, portsUsed := Uncharge(s, ctl.portsUsed, h.ports))
    case CloseProxy(name) =>
      if name !in ctl.proxies then ctl
      else ctl.(handling := Removing(name), proxies := ctl.proxies - {name},
                portsUsed := Uncharge(s, ctl.portsUsed, ctl.proxies[name]))
    case DelFromManager => ctl.(handling := Idle)
    case Teardown => ctl.(phase := Closing, toClose := ctl.proxies.Keys, proxies := map[])
    case TeardownOne(name) => ctl.(toClose := ctl.toClose - {name})
    case MarkOffline => ctl.(phase := Offline)
    case Finish => ctl.(phase := Done)
  }

  function ManagerAfter(s: Server, c: CtlId, act: Action): map<string, CtlId>
    requires CanAct(s, c, act)
  {
    var h := s.controls[c].handling;
    match act
    case AddToManager => if h.name in s.pxys then s.pxys else s.pxys[h.name := c]
    case DelFromManager => s.pxys - {h.name}
    case TeardownOne(name) => s.pxys - {name}
    case _ => s.pxys
  }

  function RegistryAfter(s: Server, c: CtlId, act: Action): Registry.State
    requires CanAct(s, c, act)
  {
    var ctl := s.controls[c];
    match act
    case Register => Registry.Registered(s.registry, ctl.user, ctl.clientID, ctl.runID)
    case MarkOffline => Registry.MarkedOffline(s.registry, OwnRunID(ctl))
    case _ => s.registry
  }

  /** `ControlManager.Del`: only the control's own entry goes. */
  function EntriesAfter(s: Server, c: CtlId, act: Action): map<string, CtlId>
    requires CanAct(s, c, act)
  {
    var r := s.controls[c].runID;
    if act.Del? && r in s.ctls && s.ctls[r] == c then s.ctls - {r} else s.ctls
  }

  predicate Enabled(s: Server, st: Step) {
    match st
    case Login(r, _, _) => r != "" && (r in s.ctls ==> s.ctls[r] < |s.controls|)
    case Act(c, act) => CanAct(s, c, act)
  }

  function Apply(s: Server, st: Step): Server {
    if !Enabled(s, st) then s
    else match st
      case Login(r, user, clientID) => LoggedIn(s, r, user, clientID)
      case Act(c, act) =>
        Server(s.quota, EntriesAfter(s, c, act), s.controls[c := Acted(s, c, act)],
               ManagerAfter(s, c, act), RegistryAfter(s, c, act))
  }

  function Exec(s: Server, steps: seq<Step>): Server
    decreases |steps|
  {
    if steps == [] then s else Exec(Apply(s, steps[0]), steps[1..])
  }

  // ---------- replacement: who may run under a run ID ----------

  /** What replacement is about: the run ID, the phase and the replacer of each control. */
  datatype Slot<R> = Slot(runID: R, phase: Phase, replacedBy: Option<CtlId>)

  function Slots(controls: seq<Control>): (r: seq<Slot<string>>)
    ensures |r| == |controls|
    ensures forall i :: 0 <= i < |r| ==> r[i] == Slot(controls[i].runID, controls[i].phase, controls[i].replacedBy)
  {
    seq(|controls|, i requires 0 <= i < |controls| =>
      Slot(controls[i].runID, controls[i].phase, controls[i].replacedBy))
  }

  /** A control that got past waiting has only finished or refused controls of its run ID
      before it. */
  ghost predicate EarlierSettled<R>(q: seq<Slot<R>>) {
    forall i, j :: 0 <= i < j < |q| && q[i].runID == q[j].runID && !q[j].phase.Waiting? ==> Settled(q[i].phase)
  }

  /** The manager's entry is the newest control of its run ID. */
  ghost predicate EntryIsNewest<R>(ctls: map<R, CtlId>, q: seq<Slot<R>>) {
    && (forall r :: r in ctls ==> ctls[r] < |q| && q[ctls[r]].runID == r)
    && (forall i :: 0 <= i < |q| && q[i].runID in ctls ==> i <= ctls[q[i].runID])
  }

  /** Without an entry, nothing of that run ID is still to finish. */
  ghost predicate NoEntrySettled<R>(ctls: map<R, CtlId>, q: seq<Slot<R>>) {
    forall i :: 0 <= i < |q| && q[i].runID !in ctls ==> Settled(q[i].phase)
  }

  ghost predicate WaitOk<R>(q: seq<Slot<R>>, j: CtlId)
    requires j < |q|
  {
    q[j].phase.Waiting? ==>
      && q[j].phase.pred < j && q[q[j].phase.pred].runID == q[j].runID
      && q[q[j].phase.pred].replacedBy == Some(j)
  }

  /** A waiting control waits for the control directly before it. */
  ghost predicate WaitsForNeighbour<R>(q: seq<Slot<R>>) {
    && (forall j: CtlId {:trigger WaitOk(q, j)} :: j < |q| ==> WaitOk(q, j))
    && (forall i, j :: 0 <= i < j < |q| && q[j].phase.Waiting? && q[i].runID == q[j].runID ==> i <= q[j].phase.pred)
  }

  /** A control that is neither finished nor replaced is the one the manager finds. */
  ghost predicate UnreplacedIsFound<R>(ctls: map<R, CtlId>, q: seq<Slot<R>>) {
    forall i :: 0 <= i < |q| && !Settled(q[i].phase) && q[i].replacedBy.None? ==>
                  q[i].runID in ctls && ctls[q[i].runID] == i
  }

  ghost predicate ReplacedOk<R>(q: seq<Slot<R>>, i: CtlId)
    requires i < |q|
  {
    q[i].replacedBy.Some? && !q[i].phase.Done? ==>
      q[i].replacedBy.value < |q| && q[q[i].replacedBy.value].phase == Waiting(i)
  }

  /** Whoever replaced a control waits until that control is done. */
  ghost predicate ReplacerWaits<R>(q: seq<Slot<R>>) {
    forall i: CtlId {:trigger ReplacedOk(q, i)} :: i < |q| ==> ReplacedOk(q, i)
  }

  ghost predicate ChainOk<R>(ctls: map<R, CtlId>, q: seq<Slot<R>>) {
    && EarlierSettled(q) && EntryIsNewest(ctls, q) && NoEntrySettled(ctls, q)
    && WaitsForNeighbour(q) && UnreplacedIsFound(ctls, q) && ReplacerWaits(q)
  }

  ghost predicate Chain(s: Server) {
    ChainOk(s.ctls, Slots(s.controls))
  }

  lemma FirstLoginKeepsChain<R>(ctls: map<R, CtlId>, q: seq<Slot<R>>, r: R)
    requires ChainOk(ctls, q) && r !in ctls
    ensures ChainOk(ctls[r := |q|], q + [Slot(r, Admitted, None)])
  {
    var t := q + [Slot(r, Admitted, None)];
    forall j: CtlId | j < |t| ensures WaitOk(t, j) && ReplacedOk(t, j) {
      assert j < |q| ==> WaitOk(q, j) && ReplacedOk(q, j);
    }
  }

  /** The slots after a login that replaces control `old'`. */
  function Replaced<R>(q: seq<Slot<R>>, r: R, old': CtlId): (t: seq<Slot<R>>)
    requires old' < |q|
    ensures |t| == |q| + 1
  {
    q[old' := q[old'].(replacedBy := Some(|q|))] + [Slot(r, Waiting(old'), None)]
  }

  lemma ReplacedSettled<R>(ctls: map<R, CtlId>, q: seq<Slot<R>>, r: R)
    requires ChainOk(ctls, q) && r in ctls
    ensures var t := Replaced(q, r, ctls[r]);
            EarlierSettled(t) && EntryIsNewest(ctls[r := |q|], t) && NoEntrySettled(ctls[r := |q|], t)
  {
    var t := Replaced(q, r, ctls[r]);
    assert forall i :: 0 <= i < |q| ==> t[i].runID == q[i].runID && t[i].phase == q[i].phase;
  }

  lemma ReplacedWaits<R>(ctls: map<R, CtlId>, q: seq<Slot<R>>, r: R)
    requires ChainOk(ctls, q) && r in ctls
    ensures var t := Replaced(q, r, ctls[r]); WaitsForNeighbour(t) && ReplacerWaits(t)
  {
    var t := Replaced(q, r, ctls[r]);
    assert forall i :: 0 <= i < |q| ==> t[i].runID == q[i].runID && t[i].phase == q[i].phase;
    forall j: CtlId | j < |t| ensures WaitOk(t, j) && ReplacedOk(t, j) {
      assert j < |q| ==> WaitOk(q, j) && ReplacedOk(q, j);
    }
  }

  lemma ReplacingLoginKeepsChain<R>(ctls: map<R, CtlId>, q: seq<Slot<R>>, r: R)
    requires ChainOk(ctls, q) && r in ctls
    ensures ChainOk(ctls[r := |q|], Replaced(q, r, ctls[r]))
  {
    ReplacedSettled(ctls, q, r);
    ReplacedWaits(ctls, q, r);
    assert UnreplacedIsFound(ctls[r := |q|], Replaced(q, r, ctls[r]));
  }

  lemma WakeKeepsChain<R>(ctls: map<R, CtlId>, q: seq<Slot<R>>, c: CtlId)
    requires ChainOk(ctls, q)
    requires c < |q| && q[c].phase.Waiting? && q[c].phase.pred < |q| && q[q[c].phase.pred].phase.Done?
    ensures ChainOk(ctls, q[c := q[c].(phase := Admitted)])
  {
    var p := q[c].phase.pred;
    var t := q[c := q[c].(phase := Admitted)];
    assert WaitOk(q, c);
    forall i | 0 <= i < c && q[i].runID == q[c].runID
      ensures Settled(q[i].phase)
    {
      assert i <= p;
      assert i < p ==> q[i].runID == q[p].runID && !q[p].phase.Waiting?;
    }
    assert EarlierSettled(t);
    forall j: CtlId | j < |t| ensures WaitOk(t, j) && ReplacedOk(t, j) {
      assert WaitOk(q, j) && ReplacedOk(q, j);
    }
  }

  /** A control that is past waiting and not settled moves on to another phase. */
  lemma AdvanceKeepsChain<R>(ctls: map<R, CtlId>, q: seq<Slot<R>>, c: CtlId, phase: Phase)
    requires ChainOk(ctls, q)
    requires c < |q| && !q[c].phase.Waiting? && !Settled(q[c].phase) && !phase.Waiting?
    ensures ChainOk(ctls, q[c := q[c].(phase := phase)])
  {
    var t := q[c := q[c].(phase := phase)];
    assert EarlierSettled(t);
    forall j: CtlId | j < |t| ensures WaitOk(t, j) && ReplacedOk(t, j) {
      assert WaitOk(q, j) && ReplacedOk(q, j);
    }
  }

  lemma DelKeepsChain<R>(ctls: map<R, CtlId>, q: seq<Slot<R>>, c: CtlId)
    requires ChainOk(ctls, q)
    requires c < |q| && Settled(q[c].phase) && q[c].runID in ctls && ctls[q[c].runID] == c
    ensures ChainOk(ctls - {q[c].runID}, q)
  {
    assert forall i :: 0 <= i < |q| && q[i].runID == q[c].runID && i != c ==> i < c && Settled(q[i].phase);
  }

  lemma StepKeepsChain(s: Server, st: Step)
    requires Chain(s)
    ensures Chain(Apply(s, st))
  {
    var t := Apply(s, st);
    var q := Slots(s.controls);
    if Enabled(s, st) {
      match st
      case Login(r, user, clientID) =>
        if r in s.ctls {
          ReplacingLoginKeepsChain(s.ctls, q, r);
          assert Slots(t.controls) == Replaced(q, r, s.ctls[r]);
        } else {
          FirstLoginKeepsChain(s.ctls, q, r);
          assert Slots(t.controls) == q + [Slot(r, Admitted, None)];
        }
      case Act(c, act) => ActKeepsChain(s, c, act);
    }
  }

  lemma ActKeepsChain(s: Server, c: CtlId, act: Action)
    requires Chain(s) && CanAct(s, c, act)
    ensures Chain(Apply(s, Act(c, act)))
  {
    var t := Apply(s, Act(c, act));
    var q := Slots(s.controls);
    assert Slots(t.controls) == q[c := q[c].(phase := Acted(s, c, act).phase)];
    if act.Wake? {
      WakeKeepsChain(s.ctls, q, c);
    } else if act.Del? {
      assert Slots(t.controls) == q;
      if t.ctls != s.ctls {
        DelKeepsChain(s.ctls, q, c);
      }
    } else if act.Register? || act.Start? || act.Teardown? || act.MarkOffline? || act.Finish? {
      AdvanceKeepsChain(s.ctls, q, c, Acted(s, c, act).phase);
    } else {
      assert Slots(t.controls) == q;
    }
  }

  // ---------- proxies: names and quota ----------

  ghost function SumPorts(m: map<string, nat>): nat
    decreases |m|
  {
    if m == map[] then 0
    else
      var k :| k in m;
      m[k] + SumPorts(m - {k})
  }

  /** The sum does not depend on the order in which names are taken out. */
  lemma {:induction false} SumWithout(m: map<string, nat>, k: string)
    requires k in m
    ensures SumPorts(m) == m[k] + SumPorts(m - {k})
    decreases |m|
  {
    var first :| first in m && SumPorts(m) == m[first] + SumPorts(m - {first});
    if first != k {
      SumWithout(m - {first}, k);
      SumWithout(m - {k}, first);
      assert m - {first} - {k} == m - {k} - {first};
    }
  }

  lemma SumWith(m: map<string, nat>, k: string, v: nat)
    requires k !in m
    ensures SumPorts(m[k := v]) == SumPorts(m) + v
  {
    SumWithout(m[k := v], k);
    assert m[k := v] - {k} == m;
  }

  function InFlight(h: Handling): nat {
    match h
    case Reserved(_, ports) => ports
    case Checked(_, ports) => ports
    case Ran(_, ports) => ports
    case Added(_, ports) => ports
    case Undoing(_, ports) => ports
    case _ => 0
  }

  /** The names a control holds in the proxy manager. */
  function Owned(ctl: Control): set<string> {
    ctl.proxies.Keys + ctl.toClose +
    (if ctl.handling.Added? || ctl.handling.Removing? then {ctl.handling.name} else {})
  }

  ghost predicate QuotaExact(quota: nat, ctl: Control) {
    && ctl.portsUsed == SumPorts(ctl.proxies) + InFlight(ctl.handling)
    && ctl.portsUsed <= quota
  }

  predicate TornDown(p: Phase) {
    p.Closing? || p.Offline? || p.Done?
  }

  ghost predicate WellFormed(quota: nat, ctl: Control) {
    && (!ctl.handling.Idle? ==> ctl.phase.Live?)
    && (ctl.proxies != map[] ==> ctl.phase.Live?)
    && (ctl.toClose != {} ==> ctl.phase.Closing?)
    && (ctl.handling.Added? || ctl.handling.Removing? ==> ctl.handling.name !in ctl.proxies)
    && (quota > 0 && !TornDown(ctl.phase) ==> QuotaExact(quota, ctl))
  }

  ghost predicate ShapeOk(s: Server) {
    forall i :: 0 <= i < |s.controls| ==> WellFormed(s.quota, s.controls[i])
  }

  /** The proxy manager holds exactly the controls' own names. */
  ghost predicate NamesOwned(s: Server) {
    && (forall n :: n in s.pxys ==> s.pxys[n] < |s.controls|)
    && (forall i, n :: 0 <= i < |s.controls| ==>
          (n in Owned(s.controls[i]) <==> n in s.pxys && s.pxys[n] == i))
  }

  lemma LoginKeepsNames(s: Server, r: string, user: string, clientID: string)
    requires ShapeOk(s) && NamesOwned(s)
    requires r in s.ctls ==> s.ctls[r] < |s.controls|
    ensures ShapeOk(LoggedIn(s, r, user, clientID)) && NamesOwned(LoggedIn(s, r, user, clientID))
  {
    var t := LoggedIn(s, r, user, clientID);
    var n := |s.controls|;
    forall i | 0 <= i < |t.controls|
      ensures WellFormed(t.quota, t.controls[i])
      ensures Owned(t.controls[i]) == if i < n then Owned(s.controls[i]) else {}
    {
      assert i < n ==> WellFormed(s.quota, s.controls[i]);
    }
  }

  /** A step of one control that leaves its names and the manager alone. */
  lemma LocalKeepsNames(s: Server, c: CtlId, ctl: Control)
    requires c < |s.controls| && ShapeOk(s) && NamesOwned(s)
    requires WellFormed(s.quota, ctl) && Owned(ctl) == Owned(s.controls[c])
    ensures ShapeOk(WithControl(s, c, ctl)) && NamesOwned(WithControl(s, c, ctl))
  {
  }

  lemma TakeKeepsNames(s: Server, c: CtlId, ctl: Control, name: string)
    requires c < |s.controls| && ShapeOk(s) && NamesOwned(s) && name !in s.pxys
    requires WellFormed(s.quota, ctl) && Owned(ctl) == Owned(s.controls[c]) + {name}
    ensures var t := WithControl(s, c, ctl).(pxys := s.pxys[name := c]); ShapeOk(t) && NamesOwned(t)
  {
  }

  lemma GiveKeepsNames(s: Server, c: CtlId, ctl: Control, name: string)
    requires c < |s.controls| && ShapeOk(s) && NamesOwned(s)
    requires name in Owned(s.controls[c])
    requires WellFormed(s.quota, ctl) && Owned(ctl) == Owned(s.controls[c]) - {name}
    ensures var t := WithControl(s, c, ctl).(pxys := s.pxys - {name}); ShapeOk(t) && NamesOwned(t)
  {
  }

  lemma ActKeepsNames(s: Server, c: CtlId, act: Action)
    requires ShapeOk(s) && NamesOwned(s) && CanAct(s, c, act)
    ensures ShapeOk(Apply(s, Act(c, act))) && NamesOwned(Apply(s, Act(c, act)))
  {
    var ctl := s.controls[c];
    var after := Acted(s, c, act);
    assert WellFormed(s.quota, ctl);
    ActKeepsShape(s, c, act);
    if act.AddToManager? && ctl.handling.name !in s.pxys {
      TakeKeepsNames(s, c, after, ctl.handling.name);
    } else if act.DelFromManager? {
      GiveKeepsNames(s, c, after, ctl.handling.name);
    } else if act.TeardownOne? {
      GiveKeepsNames(s, c, after, act.name);
    } else {
      LocalKeepsNames(s, c, after);
    }
  }

  lemma ActKeepsShape(s: Server, c: CtlId, act: Action)
    requires ShapeOk(s) && NamesOwned(s) && CanAct(s, c, act)
    ensures WellFormed(s.quota, Acted(s, c, act))
  {
    var ctl := s.controls[c];
    assert WellFormed(s.quota, ctl);
    match act
    case AddToManager => assert ctl.handling.name in s.pxys || ctl.handling.name !in Owned(ctl);
    case Commit => SumWith(ctl.proxies, ctl.handling.name, ctl.handling.ports);
    case CloseProxy(name) =>
      if name in ctl.proxies {
        SumWithout(ctl.proxies, name);
      }
    case _ =>
  }

  lemma StepKeepsNames(s: Server, st: Step)
    requires Chain(s) && ShapeOk(s) && NamesOwned(s)
    ensures ShapeOk(Apply(s, st)) && NamesOwned(Apply(s, st))
  {
    if Enabled(s, st) {
      match st
      case Login(r, user, clientID) => LoginKeepsNames(s, r, user, clientID);
      case Act(c, act) => ActKeepsNames(s, c, act);
    }
  }

  // ---------- every run ----------

  ghost predicate Inv(s: Server) {
    Chain(s) && ShapeOk(s) && NamesOwned(s)
  }

  lemma {:induction false} RunKeepsInv(s: Server, steps: seq<Step>)
    requires Inv(s)
    ensures Inv(Exec(s, steps))
    decreases |steps|
  {
    if steps != [] {
      StepKeepsChain(s, steps[0]);
      StepKeepsNames(s, steps[0]);
      RunKeepsInv(Apply(s, steps[0]), steps[1..]);
    }
  }

  lemma OneRuns<R>(q: seq<Slot<R>>, i: CtlId, j: CtlId)
    requires EarlierSettled(q) && i < |q| && j < |q|
    requires q[i].runID == q[j].runID && Running(q[i].phase) && Running(q[j].phase)
    ensures i == j
  {
  }

  /** In every run at most one control of a run ID is started and not done. */
  lemma MutualExclusion(quota: nat, steps: seq<Step>, i: CtlId, j: CtlId)
    requires var s := Exec(Init(quota), steps);
             && i < |s.controls| && j < |s.controls|
             && s.controls[i].runID == s.controls[j].runID
             && Running(s.controls[i].phase) && Running(s.controls[j].phase)
    ensures i == j
  {
    RunKeepsInv(Init(quota), steps);
    OneRuns(Slots(Exec(Init(quota), steps).controls), i, j);
  }

  /** Whenever a control may start, every earlier control of its run ID is finished or was
      refused, and none of their proxies is left in the proxy manager. */
  lemma StartsClean(quota: nat, steps: seq<Step>, c: CtlId, i: CtlId)
    requires var s := Exec(Init(quota), steps);
             && Enabled(s, Act(c, Start)) && i < c
             && s.controls[i].runID == s.controls[c].runID
    ensures var s := Exec(Init(quota), steps);
            && Settled(s.controls[i].phase)
            && forall n :: n in s.pxys ==> s.pxys[n] != i
  {
    RunKeepsInv(Init(quota), steps);
    var s := Exec(Init(quota), steps);
    EarlierIsSettled(Slots(s.controls), i, c);
    SettledOwnsNothing(s, i);
  }

  lemma EarlierIsSettled<R>(q: seq<Slot<R>>, i: CtlId, j: CtlId)
    requires EarlierSettled(q) && i < j < |q| && q[i].runID == q[j].runID && !q[j].phase.Waiting?
    ensures Settled(q[i].phase)
  {
  }

  lemma SettledOwnsNothing(s: Server, c: CtlId)
    requires ShapeOk(s) && NamesOwned(s) && c < |s.controls| && Settled(s.controls[c].phase)
    ensures s.controls[c].handling.Idle? && Owned(s.controls[c]) == {}
    ensures forall n :: n in s.pxys ==> s.pxys[n] != c
  {
    assert WellFormed(s.quota, s.controls[c]);
    assert Owned(s.controls[c]) == {};
  }

  lemma {:induction false} QuotaIsFixed(s: Server, steps: seq<Step>)
    ensures Exec(s, steps).quota == s.quota
    decreases |steps|
  {
    if steps != [] {
      QuotaIsFixed(Apply(s, steps[0]), steps[1..]);
    }
  }

  /** A deletion never takes away the entry of a control that is still to finish: whatever
      step runs, a control that is neither settled nor replaced stays the one found under
      its run ID. */
  lemma DelSparesCurrent(quota: nat, steps: seq<Step>, st: Step, c: CtlId)
    requires var t := Exec(Init(quota), steps + [st]);
             c < |t.controls| && !Settled(t.controls[c].phase) && t.controls[c].replacedBy.None?
    ensures var t := Exec(Init(quota), steps + [st]);
            t.controls[c].runID in t.ctls && t.ctls[t.controls[c].runID] == c
  {
    RunKeepsInv(Init(quota), steps + [st]);
  }

  lemma CloserOwns(s: Server, c: CtlId, name: string)
    requires NamesOwned(s)
    requires CanAct(s, c, TeardownOne(name)) || (CanAct(s, c, DelFromManager) && s.controls[c].handling.name == name)
    ensures name in s.pxys && s.pxys[name] == c
  {
    assert name in Owned(s.controls[c]);
  }

  /** In every run a name has one owner, and the deletions of a close take out the closer's
      own entry. */
  lemma CloseDeletesOwnEntry(quota: nat, steps: seq<Step>, c: CtlId, name: string)
    requires var s := Exec(Init(quota), steps);
             || (Enabled(s, Act(c, TeardownOne(name))))
             || (Enabled(s, Act(c, DelFromManager)) && s.controls[c].handling.name == name)
    ensures var s := Exec(Init(quota), steps); name in s.pxys && s.pxys[name] == c
  {
    RunKeepsInv(Init(quota), steps);
    CloserOwns(Exec(Init(quota), steps), c, name);
  }

  /** With a quota and no message in progress, a control that is not being torn down has
      counted exactly the ports of its proxies, and never more than the quota. */
  lemma QuotaIsExact(quota: nat, steps: seq<Step>, c: CtlId)
    requires quota > 0
    requires var s := Exec(Init(quota), steps);
             c < |s.controls| && !TornDown(s.controls[c].phase) && s.controls[c].handling.Idle?
    ensures var ctl := Exec(Init(quota), steps).controls[c];
            ctl.portsUsed == SumPorts(ctl.proxies) <= quota
  {
    RunKeepsInv(Init(quota), steps);
    QuotaIsFixed(Init(quota), steps);
    assert WellFormed(quota, Exec(Init(quota), steps).controls[c]);
  }

  // ---------- a refused control ----------

  /** A refused control that was replaced, before its refusal or between its refusal and
      its deletion, is exactly one that some later login of the run ID waits for. */
  lemma RefusedIsAwaitedIff(quota: nat, steps: seq<Step>, c: CtlId)
    requires var s := Exec(Init(quota), steps); c < |s.controls| && s.controls[c].phase.Rejected?
    ensures var s := Exec(Init(quota), steps);
            (exists j :: 0 <= j < |s.controls| && s.controls[j].phase == Waiting(c))
            <==> s.controls[c].replacedBy.Some?
  {
    RunKeepsInv(Init(quota), steps);
    var s := Exec(Init(quota), steps);
    var q := Slots(s.controls);
    if s.controls[c].replacedBy.Some? {
      assert ReplacedOk(q, c);
      assert s.controls[s.controls[c].replacedBy.value].phase == Waiting(c);
    }
    if j: CtlId :| j < |s.controls| && s.controls[j].phase == Waiting(c) {
      assert WaitOk(q, j);
    }
  }

  /** What an action of one control can do to the phases: a refused control stays refused, and a
      waiting one is only woken once the one it waits for is done. */
  lemma PhaseAfterAct(s: Server, d: CtlId, act: Action, c: CtlId)
    requires CanAct(s, d, act) && c < |s.controls|
    requires s.controls[c].phase.Rejected? ==> WellFormed(s.quota, s.controls[c])
    ensures var a, b := s.controls[c], Apply(s, Act(d, act)).controls[c];
            && b.runID == a.runID
            && (a.phase.Rejected? ==> b.phase.Rejected?)
            && (a.phase.Waiting? && a.phase.pred < |s.controls| && !s.controls[a.phase.pred].phase.Done? ==> b.phase == a.phase)
  {
    assert Apply(s, Act(d, act)).controls == s.controls[d := Acted(s, d, act)];
    if c == d {
      OwnPhaseAfterAct(s, d, act);
    }
  }

  lemma OwnPhaseAfterAct(s: Server, c: CtlId, act: Action)
    requires CanAct(s, c, act)
    requires s.controls[c].phase.Rejected? ==> WellFormed(s.quota, s.controls[c])
    ensures var a, b := s.controls[c], Acted(s, c, act);
            && b.runID == a.runID
            && (a.phase.Rejected? ==> b.phase.Rejected?)
            && (a.phase.Waiting? && a.phase.pred < |s.controls| && !s.controls[a.phase.pred].phase.Done? ==> b.phase == a.phase)
  {
  }

  lemma PhaseAfterLogin(s: Server, r: string, user: string, clientID: string, c: CtlId)
    requires Enabled(s, Login(r, user, clientID)) && c < |s.controls|
    ensures var t := Apply(s, Login(r, user, clientID));
            c < |t.controls| && t.controls[c].phase == s.controls[c].phase && t.controls[c].runID == s.controls[c].runID
  {
  }

  lemma StepKeepsRefused(s: Server, st: Step, c: CtlId)
    requires Inv(s) && c < |s.controls| && s.controls[c].phase.Rejected?
    ensures c < |Apply(s, st).controls| && Apply(s, st).controls[c].phase.Rejected?
    ensures Apply(s, st).controls[c].runID == s.controls[c].runID
  {
    assert WellFormed(s.quota, s.controls[c]);
    if Enabled(s, st) {
      match st
      case Login(r, user, clientID) => PhaseAfterLogin(s, r, user, clientID, c);
      case Act(d, act) => PhaseAfterAct(s, d, act, c);
    }
  }

  lemma StepKeepsStuck(s: Server, st: Step, p: CtlId, c: CtlId)
    requires Inv(s) && p < |s.controls| && s.controls[p].phase.Rejected?
    requires c < |s.controls| && s.controls[c].phase == Waiting(p)
    ensures c < |Apply(s, st).controls| && Apply(s, st).controls[c].phase == Waiting(p)
    ensures Apply(s, st).controls[c].runID == s.controls[c].runID
  {
    if Enabled(s, st) {
      match st
      case Login(r, user, clientID) => PhaseAfterLogin(s, r, user, clientID, c);
      case Act(d, act) => PhaseAfterAct(s, d, act, c);
    }
  }

  /** A login that waits for a refused control waits forever, and so does every later login
      of that run ID: none of them is ever admitted again. */
  lemma {:induction false} RefusedLocksRunIDOut(s: Server, steps: seq<Step>, p: CtlId, c: CtlId)
    requires Inv(s) && p < |s.controls| && s.controls[p].phase.Rejected?
    requires c < |s.controls| && s.controls[c].phase == Waiting(p)
    ensures var t := Exec(s, steps);
            && c < |t.controls| && t.controls[c].phase == Waiting(p)
            && t.controls[c].runID == s.controls[c].runID
            && forall j :: c <= j < |t.controls| && t.controls[j].runID == s.controls[c].runID ==>
                 t.controls[j].phase.Waiting?
    decreases |steps|
  {
    if steps == [] {
      var q := Slots(s.controls);
      forall j | c <= j < |s.controls| && s.controls[j].runID == s.controls[c].runID
        ensures s.controls[j].phase.Waiting?
      {
        assert q[j].runID == q[c].runID && q[c].phase.Waiting?;
      }
    } else {
      StepKeepsRefused(s, steps[0], p);
      StepKeepsStuck(s, steps[0], p, c);
      StepKeepsChain(s, steps[0]);
      StepKeepsNames(s, steps[0]);
      RefusedLocksRunIDOut(Apply(s, steps[0]), steps[1..], p, c);
    }
  }

  /** Neither waiting, refused nor about to be refused. */
  predicate CanMoveOn(s: Server, p: CtlId) {
    p < |s.controls| && !s.controls[p].phase.Waiting? && !s.controls[p].phase.Rejected?
    && (s.controls[p].phase.Admitted? ==> !Conflict(s, p))
  }

  /** The next step of such a control towards its end. */
  ghost function NextAct(ctl: Control): Action {
    match ctl.phase
    case Admitted => Register
    case Accepted => Start
    case Live =>
      (match ctl.handling
       case Idle => Teardown
       case Reserved(_, _) => CheckExist
       case Checked(_, _) => RunProxy(false)
       case Ran(_, _) => AddToManager
       case Added(_, _) => Commit
       case Undoing(_, _) => Refund
       case Removing(_) => DelFromManager)
    case Closing =>
      if ctl.toClose == {} then MarkOffline
      else
        var name :| name in ctl.toClose;
        TeardownOne(name)
    case _ => Finish
  }

  function PhaseRank(p: Phase): nat {
    match p
    case Waiting(_) => 7
    case Admitted => 6
    case Accepted => 5
    case Live => 4
    case Closing => 3
    case Offline => 2
    case _ => 1
  }

  function HandlingRank(h: Handling): nat {
    match h
    case Reserved(_, _) => 5
    case Checked(_, _) => 4
    case Ran(_, _) => 3
    case Added(_, _) => 2
    case Idle => 0
    case _ => 1
  }

  lemma NextActIsProgress(s: Server, p: CtlId)
    requires CanMoveOn(s, p) && !s.controls[p].phase.Done?
    ensures var act := NextAct(s.controls[p]);
            && CanAct(s, p, act)
            && var a, b := s.controls[p], Acted(s, p, act);
               && !b.phase.Waiting? && !b.phase.Rejected? && !b.phase.Admitted?
               && (PhaseRank(b.phase) < PhaseRank(a.phase)
                   || (b.phase == a.phase && HandlingRank(b.handling) < HandlingRank(a.handling))
                   || (b.phase == a.phase && b.handling == a.handling && b.toClose < a.toClose))
  {
  }

  /** Such a control can always get done by steps of its own. */
  lemma {:induction false} FinishesAlone(s: Server, p: CtlId) returns (steps: seq<Step>)
    requires CanMoveOn(s, p)
    ensures forall k :: 0 <= k < |steps| ==> steps[k].Act? && steps[k].c == p
    ensures var t := Exec(s, steps);
            && |t.controls| == |s.controls| && t.controls[p].phase.Done?
            && (forall j :: 0 <= j < |s.controls| && j != p ==> t.controls[j] == s.controls[j])
    decreases PhaseRank(s.controls[p].phase), HandlingRank(s.controls[p].handling), s.controls[p].toClose
  {
    if s.controls[p].phase.Done? {
      steps := [];
    } else {
      NextActIsProgress(s, p);
      var st := Act(p, NextAct(s.controls[p]));
      var t := Apply(s, st);
      assert t.controls == s.controls[p := Acted(s, p, st.act)];
      var rest := FinishesAlone(t, p);
      steps := [st] + rest;
      assert steps[1..] == rest;
    }
  }

  /** So whoever waits for it can be admitted by nothing but its steps and the waking. */
  lemma WaiterCanBeAdmitted(s: Server, p: CtlId, c: CtlId) returns (steps: seq<Step>)
    requires CanMoveOn(s, p) && c < |s.controls| && s.controls[c].phase == Waiting(p)
    ensures forall k :: 0 <= k < |steps| ==> steps[k].Act? && steps[k].c == p
    ensures var t := Exec(s, steps + [Act(c, Wake)]); c < |t.controls| && t.controls[c].phase.Admitted?
  {
    steps := FinishesAlone(s, p);
    ExecSnoc(s, steps, Act(c, Wake));
  }

  lemma {:induction false} ExecSnoc(s: Server, steps: seq<Step>, st: Step)
    ensures Exec(s, steps + [st]) == Apply(Exec(s, steps), st)
    decreases |steps|
  {
    if steps == [] {
      assert steps + [st] == [st];
      assert Exec(Apply(s, st), [st][1..]) == Apply(s, st);
    } else {
      assert (steps + [st])[1..] == steps[1..] + [st];
      ExecSnoc(Apply(s, steps[0]), steps[1..], st);
    }
  }

  // ---------- sessions and the client registry ----------

  /** A control of an online run: it is under way, or it waits for one that will finish. */
  ghost predicate Hopeful(controls: seq<Control>, i: CtlId)
    requires i < |controls|
  {
    match controls[i].phase
    case Waiting(p) => p < |controls| && !controls[p].phase.Waiting? && !controls[p].phase.Rejected?
    case Admitted => true
    case Accepted => true
    case Live => true
    case Closing => true
    case _ => false
  }

  ghost predicate Attended(s: Server, r: string) {
    exists i: CtlId :: i < |s.controls| && s.controls[i].runID == r && Hopeful(s.controls, i)
  }

  /** Every online client is indexed, and every indexed run has a control that will
      register again or mark it offline. */
  ghost predicate RegistryInStep(s: Server) {
    && Registry.IndexAgrees(s.registry) && Registry.OnlineIndexed(s.registry)
    && (forall i :: 0 <= i < |s.controls| ==> s.controls[i].runID != "")
    && (forall r :: r in s.registry.runIndex ==> Attended(s, r))
  }

  /** A registration that the registry can follow: a run ID that is still indexed comes back
      under the same client key and is not refused. */
  predicate Clean(s: Server, c: CtlId)
    requires c < |s.controls|
  {
    var ctl := s.controls[c];
    ctl.runID in s.registry.runIndex ==>
      !Conflict(s, c) && s.registry.runIndex[ctl.runID] == Registry.KeyOf(ctl.user, ctl.clientID, ctl.runID)
  }

  ghost predicate CleanStep(s: Server, st: Step) {
    st.Act? && st.act.Register? && CanAct(s, st.c, st.act) ==> Clean(s, st.c)
  }

  ghost predicate CleanRun(s: Server, steps: seq<Step>)
    decreases |steps|
  {
    steps == [] || (CleanStep(s, steps[0]) && CleanRun(Apply(s, steps[0]), steps[1..]))
  }

  lemma AttendedAfterLogin(s: Server, r: string, user: string, clientID: string, run: string)
    requires Chain(s) && Attended(s, run) && Enabled(s, Login(r, user, clientID))
    ensures Attended(Apply(s, Login(r, user, clientID)), run)
  {
    var t := Apply(s, Login(r, user, clientID));
    var i: CtlId :| i < |s.controls| && s.controls[i].runID == run && Hopeful(s.controls, i);
    assert t.controls[i].runID == run && t.controls[i].phase == s.controls[i].phase;
    assert Hopeful(t.controls, i);
  }

  /** How an action may move its control's phase. */
  lemma ActedPhase(s: Server, c: CtlId, act: Action)
    requires CanAct(s, c, act)
    ensures var p, t := s.controls[c].phase, Acted(s, c, act).phase;
            && (p.Waiting? ==> t == p || t.Admitted?)
            && (!p.Waiting? ==> !t.Waiting?)
            && (t.Rejected? ==> p.Rejected? || (act.Register? && Conflict(s, c)))
            && ((p.Admitted? || p.Accepted? || p.Live? || p.Closing?) && !t.Rejected? && !act.MarkOffline? ==>
                  t.Accepted? || t.Live? || t.Closing? || t.Admitted?)
    ensures Acted(s, c, act).runID == s.controls[c].runID
  {
  }

  lemma HopefulAfterAct(s: Server, c: CtlId, act: Action, i: CtlId)
    requires CanAct(s, c, act) && i < |s.controls| && Hopeful(s.controls, i)
    requires i == c ==> !act.MarkOffline?
    requires i == c || s.controls[i].phase == Waiting(c) ==> !(act.Register? && Conflict(s, c))
    ensures Hopeful(s.controls[c := Acted(s, c, act)], i)
  {
    ActedPhase(s, c, act);
  }

  /** An action other than a refusal or marking offline loses no attendant. */
  lemma AttendedAfterAct(s: Server, c: CtlId, act: Action, run: string)
    requires Inv(s) && Attended(s, run) && CanAct(s, c, act)
    requires act.Register? && Conflict(s, c) ==> s.controls[c].runID != run
    requires act.MarkOffline? ==> s.controls[c].runID != run
    ensures Attended(Apply(s, Act(c, act)), run)
  {
    var t := Apply(s, Act(c, act));
    var i: CtlId :| i < |s.controls| && s.controls[i].runID == run && Hopeful(s.controls, i);
    assert WaitOk(Slots(s.controls), i);
    HopefulAfterAct(s, c, act, i);
    ActedPhase(s, c, act);
    assert t.controls[i].runID == run && Hopeful(t.controls, i);
  }

  lemma AttendedByReplacer(s: Server, c: CtlId)
    requires Inv(s) && CanAct(s, c, MarkOffline) && s.controls[c].replacedBy.Some?
    ensures Attended(Apply(s, Act(c, MarkOffline)), s.controls[c].runID)
  {
    var t := Apply(s, Act(c, MarkOffline));
    var q := Slots(s.controls);
    assert ReplacedOk(q, c);
    var j := s.controls[c].replacedBy.value;
    assert WaitOk(q, j);
    assert t.controls[j].runID == s.controls[c].runID && Hopeful(t.controls, j);
  }

  lemma LoginKeepsRegistryInStep(s: Server, r: string, user: string, clientID: string)
    requires Inv(s) && RegistryInStep(s) && Enabled(s, Login(r, user, clientID))
    ensures RegistryInStep(Apply(s, Login(r, user, clientID)))
  {
    var t := Apply(s, Login(r, user, clientID));
    forall run | run in t.registry.runIndex ensures Attended(t, run) {
      AttendedAfterLogin(s, r, user, clientID, run);
    }
  }

  /** The registry's own part. */
  lemma RegistryAfterAct(s: Server, c: CtlId, act: Action)
    requires RegistryInStep(s) && CanAct(s, c, act) && (act.Register? ==> Clean(s, c))
    ensures var t := Apply(s, Act(c, act)).registry; Registry.IndexAgrees(t) && Registry.OnlineIndexed(t)
  {
    var ctl := s.controls[c];
    if act.Register? {
      Registry.RegisterKeepsOnlineIndexedIff(s.registry, ctl.user, ctl.clientID, ctl.runID);
      Registry.RunKeepsIndexAgreement(s.registry, [Registry.Register(ctl.user, ctl.clientID, ctl.runID)]);
      OneEvent(s.registry, Registry.Register(ctl.user, ctl.clientID, ctl.runID));
    } else if act.MarkOffline? {
      Registry.MarkOfflineKeepsOnlineIndexed(s.registry, OwnRunID(ctl));
    }
  }

  lemma AttendedStill(s: Server, c: CtlId, act: Action, run: string)
    requires Inv(s) && RegistryInStep(s) && CanAct(s, c, act) && (act.Register? ==> Clean(s, c))
    requires run in Apply(s, Act(c, act)).registry.runIndex
    ensures Attended(Apply(s, Act(c, act)), run)
  {
    var ctl, t := s.controls[c], Apply(s, Act(c, act));
    if act.MarkOffline? && run == ctl.runID {
      AttendedByReplacer(s, c);
    } else if act.Register? && run == ctl.runID {
      assert Hopeful(t.controls, c);
    } else {
      AttendedAfterAct(s, c, act, run);
    }
  }

  lemma StepKeepsRegistryInStep(s: Server, st: Step)
    requires Inv(s) && RegistryInStep(s) && CleanStep(s, st)
    ensures RegistryInStep(Apply(s, st))
  {
    if Enabled(s, st) {
      match st
      case Login(r, user, clientID) => LoginKeepsRegistryInStep(s, r, user, clientID);
      case Act(c, act) =>
        RegistryAfterAct(s, c, act);
        ActedPhase(s, c, act);
        forall run | run in Apply(s, st).registry.runIndex ensures Attended(Apply(s, st), run) {
          AttendedStill(s, c, act, run);
        }
    }
  }

  lemma OneEvent(s: Registry.State, e: Registry.Event)
    ensures Registry.Run(s, [e]) == Registry.Apply(s, e)
  {
    assert Registry.Run(Registry.Apply(s, e), [e][1..]) == Registry.Apply(s, e);
  }

  lemma {:induction false} CleanRunKeepsRegistryInStep(s: Server, steps: seq<Step>)
    requires Inv(s) && RegistryInStep(s) && CleanRun(s, steps)
    ensures RegistryInStep(Exec(s, steps))
    decreases |steps|
  {
    if steps != [] {
      StepKeepsRegistryInStep(s, steps[0]);
      StepKeepsChain(s, steps[0]);
      StepKeepsNames(s, steps[0]);
      CleanRunKeepsRegistryInStep(Apply(s, steps[0]), steps[1..]);
    }
  }

  /** In a run of clean registrations no client stays online once every control of its run
      ID has finished or been refused. */
  lemma NoGhostClients(quota: nat, steps: seq<Step>, key: string)
    requires CleanRun(Init(quota), steps)
    requires var s := Exec(Init(quota), steps);
             && key in s.registry.clients
             && forall i :: 0 <= i < |s.controls| && s.controls[i].runID == s.registry.clients[key].runID ==>
                  Settled(s.controls[i].phase)
    ensures !Exec(Init(quota), steps).registry.clients[key].online
  {
    CleanRunKeepsRegistryInStep(Init(quota), steps);
    var s := Exec(Init(quota), steps);
  }

  /** A registration keeps sessions and registry in step exactly when it is clean. */
  lemma RegisterInStepIffClean(s: Server, c: CtlId)
    requires Inv(s) && RegistryInStep(s) && CanAct(s, c, Register)
    ensures RegistryInStep(Apply(s, Act(c, Register))) <==> Clean(s, c)
  {
    var ctl := s.controls[c];
    var t := Apply(s, Act(c, Register));
    if Clean(s, c) {
      StepKeepsRegistryInStep(s, Act(c, Register));
    } else if Conflict(s, c) {
      RefusedIsUnattended(s, c);
    } else {
      Registry.RegisterKeepsOnlineIndexedIff(s.registry, ctl.user, ctl.clientID, ctl.runID);
    }
  }

  lemma RefusedIsUnattended(s: Server, c: CtlId)
    requires Inv(s) && CanAct(s, c, Register) && Conflict(s, c)
    ensures !Attended(Apply(s, Act(c, Register)), s.controls[c].runID)
  {
    var t := Apply(s, Act(c, Register));
    var q := Slots(s.controls);
    forall i: CtlId | i < |t.controls| && t.controls[i].runID == s.controls[c].runID
      ensures !Hopeful(t.controls, i)
    {
      assert q[i].runID == q[c].runID;
      if i > c {
        assert q[i].phase.Waiting?;
        assert WaitOk(q, i);
        assert c <= q[i].phase.pred < i;
        if q[i].phase.pred != c {
          assert q[q[i].phase.pred].phase.Waiting?;
        }
      }
    }
  }

  // ---------- two runs ----------

  ghost predicate Reached(s: Server) {
    exists steps :: s == Exec(Init(0), steps)
  }

  lemma Then(s: Server, st: Step)
    requires Reached(s)
    ensures Reached(Apply(s, st))
  {
    var steps :| s == Exec(Init(0), steps);
    ExecSnoc(Init(0), steps, st);
  }

  /** Two clients, "x" of run "r1" and "y" of run "r2", are online. */
  lemma TwoClientsOnline() returns (s: Server)
    ensures Reached(s)
    ensures s == Server(0, map["r1" := 0, "r2" := 1],
                        [Control("r1", "", "x", None, Live, Idle, map[], {}, 0),
                         Control("r2", "", "y", None, Live, Idle, map[], {}, 0)],
                        map[],
                        Registry.State(map["x" := Registry.Info("x", "r1", true), "y" := Registry.Info("y", "r2", true)],
                                       map["r1" := "x", "r2" := "y"]))
  {
    s := Init(0);
    assert s == Exec(Init(0), []);
    Then(s, Login("r1", "", "x")); s := Apply(s, Login("r1", "", "x"));
    Then(s, Act(0, Register)); s := Apply(s, Act(0, Register));
    Then(s, Act(0, Start)); s := Apply(s, Act(0, Start));
    Then(s, Login("r2", "", "y")); s := Apply(s, Login("r2", "", "y"));
    Then(s, Act(1, Register)); s := Apply(s, Act(1, Register));
    Then(s, Act(1, Start)); s := Apply(s, Act(1, Start));
  }

  /** A replaced control without proxies leaves, and the registry does not notice. */
  lemma ReplacedLeavesUnmarked(s: Server, c: CtlId) returns (t: Server)
    requires Reached(s) && c < |s.controls|
    requires s.controls[c].phase.Live? && s.controls[c].handling.Idle?
    requires s.controls[c].proxies == map[] && s.controls[c].toClose == {}
    requires s.controls[c].replacedBy.Some? && Registry.IndexAgrees(s.registry)
    ensures Reached(t) && t == s.(controls := s.controls[c := s.controls[c].(phase := Done)])
  {
    Then(s, Act(c, Teardown)); t := Apply(s, Act(c, Teardown));
    assert Acted(s, c, Teardown) == s.controls[c].(phase := Closing) by {
      assert s.controls[c].proxies.Keys == {};
    }
    assert t == s.(controls := s.controls[c := s.controls[c].(phase := Closing)]);
    Then(t, Act(c, MarkOffline)); t := Apply(t, Act(c, MarkOffline));
    assert t == s.(controls := s.controls[c := s.controls[c].(phase := Offline)]);
    Then(t, Act(c, Finish)); t := Apply(t, Act(c, Finish));
  }

  /** Run "r1" reconnects as "y". */
  lemma OldControlLeft() returns (s: Server)
    ensures Reached(s)
    ensures |s.controls| == 3 && s.controls[0].runID == "r1" && s.controls[0].phase.Done?
    ensures s.controls[1].runID == "r2"
    ensures s.controls[2] == Control("r1", "", "y", None, Waiting(0), Idle, map[], {}, 0)
    ensures s.registry.clients == map["x" := Registry.Info("x", "r1", true), "y" := Registry.Info("y", "r2", true)]
  {
    s := TwoClientsOnline();
    Then(s, Login("r1", "", "y")); s := Apply(s, Login("r1", "", "y"));
    s := ReplacedLeavesUnmarked(s, 0);
  }

  /** The new control is refused because "y" is online, and "x" stays online although every
      control of its run has ended. */
  lemma GhostClient() returns (s: Server)
    ensures Reached(s)
    ensures "x" in s.registry.clients && s.registry.clients["x"] == Registry.Info("x", "r1", true)
    ensures forall i :: 0 <= i < |s.controls| && s.controls[i].runID == "r1" ==> Settled(s.controls[i].phase)
  {
    s := OldControlLeft();
    Then(s, Act(2, Wake)); s := Apply(s, Act(2, Wake));
    Then(s, Act(2, Register)); s := Apply(s, Act(2, Register));
  }

  /** A third login of a run whose second login is refused meanwhile waits for the refused
      control, so the run ID is locked out. */
  lemma LockedOutRun() returns (s: Server)
    ensures Reached(s)
    ensures |s.controls| == 4 && s.controls[2].phase.Rejected? && s.controls[3].phase == Waiting(2)
  {
    s := TwoClientsOnline();
    Then(s, Login("r3", "", "y")); s := Apply(s, Login("r3", "", "y"));
    Then(s, Login("r3", "", "z")); s := Apply(s, Login("r3", "", "z"));
    Then(s, Act(2, Register)); s := Apply(s, Act(2, Register));
  }
}
