/** The port allocator (server/ports/ports.go).

    The operating system's answer to "can this port be bound" is the parameter `probe`: the
    answer for a port may change from one probe of a call to the next, so it also takes
    the number of probes made before. The order in which Go visits the free ports is the
    parameter `order`.
 */
module Ports {
  import opened Wrappers
  import opened Int64

  const MIN_PORT := 1
  const MAX_PORT := 65535
  const MAX_RESERVED_SECONDS := 24 * 60 * 60
  const MAX_TRY_TIMES := 5

  type Probe = (int, nat) -> bool

  datatype Error = PortAlreadyUsed | PortNotAllowed | PortUnAvailable | NoAvailablePort

  datatype Outcome = Ok(port: int) | Err(error: Error)

  datatype Reservation = Reservation(port: int, closed: bool, updated: int)

  /** Free ports, holders of the used ports by name, and what each name got last. */
  datatype State = State(free: set<int>, used: map<int, string>, reserved: map<string, Reservation>)

  // ---------- the allowed ports ----------

  datatype PortsRange = PortsRange(start: int, end: int, single: int)

  function Interval(lo: int, hi: int): (r: set<int>)
    ensures forall p :: p in r <==> lo <= p <= hi
    decreases hi - lo
  {
    if lo > hi then {} else Interval(lo, hi - 1) + {hi}
  }

  function RangePorts(r: PortsRange): set<int> {
    if r.single > 0 then {r.single} else Interval(r.start, r.end)
  }

  function Allowed(ranges: seq<PortsRange>): set<int> {
    if ranges == [] then Interval(MIN_PORT, MAX_PORT)
    else set i, p | 0 <= i < |ranges| && p in RangePorts(ranges[i]) :: p
  }

  /** The fields are 64-bit numbers. */
  predicate RangeFits(r: PortsRange) {
    Fits(r.start) && Fits(r.end) && Fits(r.single)
  }

  /** `NewManager` comes to the end of this range. */
  ghost predicate RangeEnds(r: PortsRange) {
    r.single > 0 || Ends(r.start, r.end)
  }

  lemma RangeEndsIff(r: PortsRange)
    requires RangeFits(r)
    ensures RangeEnds(r) <==> r.single > 0 || r.end != MAX_INT64
  {
    CountsForEverIff(r.start, r.end);
    assert Counted(r.start, r.end).Some? <==> Ends(r.start, r.end);
  }

  function Initial(allowed: set<int>): State {
    State(allowed, map[], map[])
  }

  // ---------- one call each ----------

  function Take(s: State, name: string, port: int, now: int): State {
    State(s.free - {port}, s.used[port := name], s.reserved[name := Reservation(port, false, now)])
  }

  /** The first port in `order` that the probe accepts, among the first `tries`. */
  function Pick(order: seq<int>, probe: Probe, i: nat, tries: nat): (r: Option<int>)
    requires i <= |order|
    ensures r.Some? ==> r.value in order[i..] && exists k: nat :: probe(r.value, k)
    decreases |order| - i
  {
    if i == |order| || i >= tries then None
    else if probe(order[i], i + 1) then Some(order[i])
    else Pick(order, probe, i + 1, tries)
  }

  /** The reserved port of `name` is handed out without a look at the free ports. */
  predicate TakesReserved(s: State, name: string, port: int, probe: Probe) {
    port == 0 && name in s.reserved && probe(s.reserved[name].port, 0)
  }

  function Acquired(s: State, name: string, port: int, now: int, order: seq<int>, probe: Probe): (State, Outcome) {
    if TakesReserved(s, name, port, probe) then
      var p := s.reserved[name].port;
      (Take(s, name, p, now), Ok(p))
    else if port == 0 then
      match Pick(order, probe, 0, MAX_TRY_TIMES)
      case None => (s, Err(NoAvailablePort))
      case Some(p) => (Take(s, name, p, now), if p == 0 then Err(NoAvailablePort) else Ok(p))
    else if port in s.free then
      if probe(port, 0) then (Take(s, name, port, now), Ok(port)) else (s, Err(PortUnAvailable))
    else if port in s.used then (s, Err(PortAlreadyUsed))
    else (s, Err(PortNotAllowed))
  }

  /** A release also closes the reservation that shares the released context. */
  function Released(s: State, port: int, now: int): State {
    if port !in s.used then s
    else
      var n := s.used[port];
      State(s.free + {port}, s.used - {port},
            if n in s.reserved && !s.reserved[n].closed && s.reserved[n].port == port
            then s.reserved[n := Reservation(port, true, now)] else s.reserved)
  }

  predicate Expired(r: Reservation, now: int) {
    r.closed && now - r.updated > MAX_RESERVED_SECONDS
  }

  function Cleaned(s: State, now: int): State {
    s.(reserved := map n | n in s.reserved && !Expired(s.reserved[n], now) :: s.reserved[n])
  }

  /** Cleaned, but for the names not looked at yet. */
  function CleanedBut(s: State, now: int, rest: set<string>): State {
    s.(reserved := map n | n in s.reserved && (n in rest || !Expired(s.reserved[n], now)) :: s.reserved[n])
  }

  lemma CleanedStep(s: State, now: int, rest: set<string>, name: string)
    requires name in rest && name in s.reserved
    ensures var r := CleanedBut(s, now, rest);
            && name in r.reserved && r.reserved[name] == s.reserved[name]
            && CleanedBut(s, now, rest - {name}) ==
               if Expired(s.reserved[name], now) then r.(reserved := r.reserved - {name}) else r
  {
    var r := CleanedBut(s, now, rest);
    var t := if Expired(s.reserved[name], now) then r.reserved - {name} else r.reserved;
    assert CleanedBut(s, now, rest - {name}).reserved == t;
  }

  // ---------- what a call answers ----------

  /** The i-th port visited is among the first five and the first that the probe accepts. */
  ghost predicate FirstAccepted(order: seq<int>, probe: Probe, i: nat) {
    i < |order| && i < 5 && probe(order[i], i + 1) && forall j: nat :: j < i ==> !probe(order[j], j + 1)
  }

  lemma {:induction false} PickIsFirst(order: seq<int>, probe: Probe, i: nat)
    requires i <= |order| && i <= 5 && forall j: nat :: j < i ==> !probe(order[j], j + 1)
    ensures var r := Pick(order, probe, i, MAX_TRY_TIMES);
            && (r.Some? ==> exists k: nat :: FirstAccepted(order, probe, k) && order[k] == r.value)
            && (r.None? ==> forall k: nat :: !FirstAccepted(order, probe, k))
    decreases |order| - i
  {
    if i < |order| && i < 5 {
      if probe(order[i], i + 1) {
        assert FirstAccepted(order, probe, i);
      } else {
        PickIsFirst(order, probe, i + 1);
      }
    }
  }

  lemma OneFirst(order: seq<int>, probe: Probe, i: nat, j: nat)
    requires FirstAccepted(order, probe, i) && FirstAccepted(order, probe, j)
    ensures i == j
  {
  }

  /** A request for any port, without a reservation that the probe accepts, gets the first of the
      first five ports visited that the probe accepts; it is refused exactly if there is none, or
      if that is port 0. */
  lemma AnyPortOutcome(s: State, name: string, now: int, order: seq<int>, probe: Probe)
    requires !(name in s.reserved && probe(s.reserved[name].port, 0))
    ensures var o := Acquired(s, name, 0, now, order, probe).1;
            && (forall i: nat :: FirstAccepted(order, probe, i) && order[i] != 0 ==> o == Ok(order[i]))
            && (o == Err(NoAvailablePort) <==> forall i: nat :: FirstAccepted(order, probe, i) ==> order[i] == 0)
            && (o.Err? ==> o.error == NoAvailablePort)
  {
    PickIsFirst(order, probe, 0);
    var r := Pick(order, probe, 0, MAX_TRY_TIMES);
    if r.Some? {
      var k: nat :| FirstAccepted(order, probe, k) && order[k] == r.value;
      forall i: nat | FirstAccepted(order, probe, i) ensures i == k {
        OneFirst(order, probe, i, k);
      }
    }
  }

  /** With one, it gets that port back. */
  lemma ReservedOutcome(s: State, name: string, now: int, order: seq<int>, probe: Probe)
    requires name in s.reserved && probe(s.reserved[name].port, 0)
    ensures Acquired(s, name, 0, now, order, probe).1 == Ok(s.reserved[name].port)
  {
  }

  /** A request for one port gets it exactly if it is free and the probe accepts it, and otherwise
      learns whether it is taken, not allowed, or in use outside. */
  lemma NamedPortOutcome(s: State, allowed: set<int>, name: string, port: int, now: int, order: seq<int>, probe: Probe)
    requires Partition(s, allowed) && port != 0
    ensures var o := Acquired(s, name, port, now, order, probe).1;
            && (o == Ok(port) <==> port in s.free && probe(port, 0)) && (o.Ok? ==> o.port == port)
            && (o == Err(PortUnAvailable) <==> port in s.free && !probe(port, 0))
            && (o == Err(PortAlreadyUsed) <==> port in s.used)
            && (o == Err(PortNotAllowed) <==> port !in allowed)
            && o != Err(NoAvailablePort)
  {
  }

  /** A grant takes that port alone, for that name, and reserves it for it from now on. */
  lemma GrantMeans(s: State, name: string, port: int, now: int, order: seq<int>, probe: Probe)
    requires Acquired(s, name, port, now, order, probe).1.Ok?
    ensures var (t, o) := Acquired(s, name, port, now, order, probe);
            && o.port in t.used && t.used[o.port] == name && t.free == s.free - {o.port}
            && (forall q :: q != o.port ==> (q in t.used <==> q in s.used) && (q in s.used ==> t.used[q] == s.used[q]))
            && name in t.reserved && t.reserved[name] == Reservation(o.port, false, now)
            && (forall m :: m != name ==> (m in t.reserved <==> m in s.reserved) && (m in s.reserved ==> t.reserved[m] == s.reserved[m]))
  {
  }

  /** A release frees a used port, and dates its holder's open reservation of it; of another port it
      changes nothing. */
  lemma ReleaseMeans(s: State, port: int, now: int)
    ensures var t := Released(s, port, now);
            && (port !in s.used ==> t == s)
            && (port in s.used ==>
                  && t.free == s.free + {port} && port !in t.used && t.reserved.Keys == s.reserved.Keys
                  && (forall q :: q != port ==> (q in t.used <==> q in s.used) && (q in s.used ==> t.used[q] == s.used[q]))
                  && (forall m :: m in s.reserved ==>
                        t.reserved[m] == if m == s.used[port] && !s.reserved[m].closed && s.reserved[m].port == port
                                         then Reservation(port, true, now) else s.reserved[m]))
  {
  }

  /** A round of the cleaner takes away exactly the reservations closed for more than a day. */
  lemma CleanMeans(s: State, now: int)
    ensures var t := Cleaned(s, now);
            && t.free == s.free && t.used == s.used
            && (forall m :: m in t.reserved <==> m in s.reserved && !(s.reserved[m].closed && now - s.reserved[m].updated > 86400))
            && (forall m :: m in t.reserved ==> t.reserved[m] == s.reserved[m])
  {
  }

  /** Without a list every port but 0 is allowed; with one, the single ports and the ranges on it. */
  lemma AllowedMeans(ranges: seq<PortsRange>, p: int)
    ensures p in Allowed(ranges) <==>
            if ranges == [] then 1 <= p <= 65535
            else exists i :: 0 <= i < |ranges| && (if ranges[i].single > 0 then p == ranges[i].single else ranges[i].start <= p <= ranges[i].end)
  {
    if ranges != [] {
      assert forall i :: 0 <= i < |ranges| ==>
          (p in RangePorts(ranges[i]) <==> if ranges[i].single > 0 then p == ranges[i].single else ranges[i].start <= p <= ranges[i].end);
    }
  }

  // ---------- histories ----------

  datatype Event =
    | Acquire(name: string, port: int, now: int, order: seq<int>, probe: Probe)
    | Release(port: int, now: int)
    | Clean(now: int)

  ghost function Apply(s: State, e: Event): State {
    match e
    case Acquire(name, port, now, order, probe) => Acquired(s, name, port, now, order, probe).0
    case Release(port, now) => Released(s, port, now)
    case Clean(now) => Cleaned(s, now)
  }

  ghost function Run(s: State, events: seq<Event>): State
    decreases |events|
  {
    if events == [] then s else Run(Apply(s, events[0]), events[1..])
  }

  /** `order` visits the free ports. */
  ghost predicate Visits(order: seq<int>, s: State) {
    forall p :: p in order <==> p in s.free
  }

  /** No port that some proxy holds looks free to the operating system. */
  ghost predicate Honest(probe: Probe, s: State) {
    forall p, k: nat :: probe(p, k) ==> p !in s.used
  }

  ghost predicate Proper(s: State, e: Event) {
    e.Acquire? ==> Visits(e.order, s)
  }

  ghost predicate HonestEvent(s: State, e: Event) {
    e.Acquire? ==> Honest(e.probe, s)
  }

  ghost predicate ProperRun(s: State, events: seq<Event>)
    decreases |events|
  {
    events == [] || (Proper(s, events[0]) && ProperRun(Apply(s, events[0]), events[1..]))
  }

  ghost predicate HonestRun(s: State, events: seq<Event>)
    decreases |events|
  {
    events == [] || (HonestEvent(s, events[0]) && HonestRun(Apply(s, events[0]), events[1..]))
  }

  /** Free and used ports split the allowed ones; reservations name allowed ports. */
  ghost predicate Partition(s: State, allowed: set<int>) {
    && s.free + s.used.Keys == allowed
    && s.free !! s.used.Keys
    && forall n :: n in s.reserved ==> s.reserved[n].port in allowed
  }

  /** The partition survives every history, whatever the probes answer. */
  lemma {:induction false} RunKeepsPartition(s: State, events: seq<Event>, allowed: set<int>)
    requires Partition(s, allowed) && ProperRun(s, events)
    ensures Partition(Run(s, events), allowed)
    decreases |events|
  {
    if events != [] {
      StepKeepsPartition(s, events[0], allowed);
      RunKeepsPartition(Apply(s, events[0]), events[1..], allowed);
    }
  }

  lemma StepKeepsPartition(s: State, e: Event, allowed: set<int>)
    requires Partition(s, allowed) && Proper(s, e)
    ensures Partition(Apply(s, e), allowed)
  {
    match e
    case Acquire(name, port, now, order, probe) =>
      var t := Apply(s, e);
      if t != s {
        var p :| t == Take(s, name, p, now) && p in allowed;
        assert t.free + t.used.Keys == allowed;
      }
    case Release(port, now) =>
      var t := Apply(s, e);
      assert t.free + t.used.Keys == allowed;
    case Clean(now) =>
  }

  /** A granted port was held by somebody else exactly when the reserved path was taken for a
      port in use; in every other case it was free. */
  lemma GrantsHeldPortIff(s: State, allowed: set<int>, name: string, port: int, now: int, order: seq<int>, probe: Probe)
    requires Partition(s, allowed) && Visits(order, s)
    requires Acquired(s, name, port, now, order, probe).1.Ok?
    ensures var p := Acquired(s, name, port, now, order, probe).1.port;
            && (p in s.used <==> TakesReserved(s, name, port, probe) && s.reserved[name].port in s.used)
            && (p !in s.used ==> p in s.free)
  {
  }

  /** Under honest probes a grant moves one free port to its new holder. */
  lemma HonestGrantIsExclusive(s: State, allowed: set<int>, name: string, port: int, now: int, order: seq<int>, probe: Probe)
    requires Partition(s, allowed) && Visits(order, s) && Honest(probe, s)
    requires Acquired(s, name, port, now, order, probe).1.Ok?
    ensures var (t, o) := Acquired(s, name, port, now, order, probe);
            && o.port in s.free && t.free == s.free - {o.port}
            && t.used == s.used[o.port := name]
            && (port != 0 ==> o.port == port)
  {
    GrantsHeldPortIff(s, allowed, name, port, now, order, probe);
  }

  /** A refused request changes nothing, except that a picked port 0 is marked used and
      reported as a failure; that needs port 0 among the free ports. */
  lemma RefusalKeepsState(s: State, name: string, port: int, now: int, order: seq<int>, probe: Probe)
    requires Visits(order, s) && Acquired(s, name, port, now, order, probe).1.Err?
    ensures 0 !in s.free ==> Acquired(s, name, port, now, order, probe).0 == s
  {
  }

  /** Every refusal of a state, whatever is asked and whatever the probe answers, leaves it alone
      exactly if port 0 is not among its free ports. `some` is one order of the free ports. */
  lemma RefusalsKeepStateIff(s: State, allowed: set<int>, some: seq<int>)
    requires Partition(s, allowed) && Visits(some, s)
    ensures (forall name, port, now, order, probe: Probe ::
               Visits(order, s) && Acquired(s, name, port, now, order, probe).1.Err? ==>
                 Acquired(s, name, port, now, order, probe).0 == s)
            <==> 0 !in s.free
  {
    if 0 in s.free {
      var order := [0] + some;
      var onlyZero: Probe := (p: int, k: nat) => p == 0 && k == 1;
      assert Visits(order, s);
      var (t, o) := Acquired(s, "", 0, 0, order, onlyZero);
      assert Pick(order, onlyZero, 0, MAX_TRY_TIMES) == Some(0);
      assert o.Err? && 0 in t.used && 0 !in s.used;
    } else {
      forall name, port, now, order, probe: Probe |
        Visits(order, s) && Acquired(s, name, port, now, order, probe).1.Err?
        ensures Acquired(s, name, port, now, order, probe).0 == s
      {
        RefusalKeepsState(s, name, port, now, order, probe);
      }
    }
  }

  /** Port 0 is allowed and looks free: a request for any port is refused, yet the allocator has
      one port less to give. */
  lemma ZeroIsBookedAndRefused(onlyZero: Probe)
    requires forall p, k: nat :: onlyZero(p, k) <==> p == 0
    ensures Acquired(Initial({0, 6000}), "a", 0, 1, [6000, 0], onlyZero)
            == (State({6000}, map[0 := "a"], map["a" := Reservation(0, false, 1)]), Err(NoAvailablePort))
  {
    var s := Initial({0, 6000});
    assert Pick([6000, 0], onlyZero, 1, MAX_TRY_TIMES) == Some(0);
    assert Pick([6000, 0], onlyZero, 0, MAX_TRY_TIMES) == Some(0);
    assert {0, 6000} - {0} == {6000};
  }

  // ---------- reservations ----------

  /** An unclosed reservation names the port its holder holds, and a holder's own
      reservation of its port is unclosed. */
  ghost predicate ReservationsHeld(s: State) {
    && (forall n :: n in s.reserved && !s.reserved[n].closed ==>
          s.reserved[n].port in s.used && s.used[s.reserved[n].port] == n)
    && (forall p :: p in s.used && s.used[p] in s.reserved && s.reserved[s.used[p]].port == p ==>
          !s.reserved[s.used[p]].closed)
  }

  lemma StepKeepsReservationsHeld(s: State, e: Event, allowed: set<int>)
    requires Partition(s, allowed) && ReservationsHeld(s) && Proper(s, e) && HonestEvent(s, e)
    ensures ReservationsHeld(Apply(s, e))
  {
    if e.Acquire? {
      var t := Apply(s, e);
      if t != s {
        var p :| t == Take(s, e.name, p, e.now) && p !in s.used;
      }
    }
  }

  lemma {:induction false} RunKeepsReservationsHeld(s: State, events: seq<Event>, allowed: set<int>)
    requires Partition(s, allowed) && ReservationsHeld(s) && ProperRun(s, events) && HonestRun(s, events)
    ensures ReservationsHeld(Run(s, events))
    decreases |events|
  {
    if events != [] {
      StepKeepsPartition(s, events[0], allowed);
      StepKeepsReservationsHeld(s, events[0], allowed);
      RunKeepsReservationsHeld(Apply(s, events[0]), events[1..], allowed);
    }
  }

  /** After any honest history the cleaner leaves the reservation of every live holder. */
  lemma CleanerSparesHolders(allowed: set<int>, events: seq<Event>, now: int, p: int)
    requires ProperRun(Initial(allowed), events) && HonestRun(Initial(allowed), events)
    requires var s := Run(Initial(allowed), events);
             p in s.used && s.used[p] in s.reserved && s.reserved[s.used[p]].port == p
    ensures var s := Run(Initial(allowed), events);
            s.used[p] in Cleaned(s, now).reserved && Cleaned(s, now).reserved[s.used[p]] == s.reserved[s.used[p]]
  {
    RunKeepsReservationsHeld(Initial(allowed), events, allowed);
  }

  /** `e` is not a request of `n`, and happens after `since` but no cleaning more than a day
      after. */
  ghost predicate Meanwhile(e: Event, n: string, since: int) {
    match e
    case Acquire(name, _, _, _, _) => name != n
    case Release(_, now) => now >= since
    case Clean(now) => now <= since + MAX_RESERVED_SECONDS
  }

  /** While `n` asks for nothing its reservation keeps its port. */
  lemma {:induction false} ReservationKept(s: State, events: seq<Event>, n: string, since: int)
    requires n in s.reserved && s.reserved[n].updated >= since
    requires forall e :: e in events ==> Meanwhile(e, n, since)
    ensures n in Run(s, events).reserved && Run(s, events).reserved[n].port == s.reserved[n].port
    decreases |events|
  {
    if events != [] {
      assert Meanwhile(events[0], n, since);
      ReservationKept(Apply(s, events[0]), events[1..], n, since);
    }
  }

  /** A name that releases its port and next asks for port 0 gets the same port back, if
      the probe accepts it and the cleaner has not run more than a day after the release. */
  lemma SamePortAgain(
    allowed: set<int>, before: seq<Event>, n: string, p: int, released: int,
    between: seq<Event>, now: int, order: seq<int>, probe: Probe)
    requires ProperRun(Initial(allowed), before) && HonestRun(Initial(allowed), before)
    requires var s := Run(Initial(allowed), before);
             p in s.used && s.used[p] == n && n in s.reserved && s.reserved[n].port == p
    requires forall e :: e in between ==> Meanwhile(e, n, released)
    requires probe(p, 0)
    ensures var s := Run(Released(Run(Initial(allowed), before), p, released), between);
            Acquired(s, n, 0, now, order, probe).1 == Ok(p)
  {
    RunKeepsReservationsHeld(Initial(allowed), before, allowed);
    var s := Released(Run(Initial(allowed), before), p, released);
    assert s.reserved[n] == Reservation(p, true, released);
    ReservationKept(s, between, n, released);
  }

  /** Two proxies end up holding one port when the operating system has not yet noticed the
      first: "a" had port 6000 once, "b" takes it, and before "b" listens "a" asks for any
      port. */
  lemma ReservedPathDoubleGrant(free: Probe)
    requires forall p, k: nat :: free(p, k)
    ensures var s := State({}, map[6000 := "b"],
                           map["a" := Reservation(6000, true, 0), "b" := Reservation(6000, false, 1)]);
            && Run(Initial({6000}), [Acquire("a", 6000, 0, [6000], free), Release(6000, 0),
                                     Acquire("b", 6000, 1, [6000], free)]) == s
            && Acquired(s, "a", 0, 2, [], free).1 == Ok(6000)
  {
    var s0 := Initial({6000});
    var s1 := Apply(s0, Acquire("a", 6000, 0, [6000], free));
    assert s1 == State({}, map[6000 := "a"], map["a" := Reservation(6000, false, 0)]);
    var s2 := Apply(s1, Release(6000, 0));
    assert s2 == State({6000}, map[], map["a" := Reservation(6000, true, 0)]);
    var s3 := Apply(s2, Acquire("b", 6000, 1, [6000], free));
    var e := [Acquire("a", 6000, 0, [6000], free), Release(6000, 0), Acquire("b", 6000, 1, [6000], free)];
    assert s3.reserved == map["a" := Reservation(6000, true, 0), "b" := Reservation(6000, false, 1)];
    assert s3 == State({}, map[6000 := "b"], s3.reserved);
    calc {
      Run(s0, e);
      Run(s1, e[1..]);
      { assert e[1..][0] == Release(6000, 0); }
      Run(s2, e[1..][1..]);
      { assert e[1..][1..][0] == Acquire("b", 6000, 1, [6000], free); }
      Run(s3, e[1..][1..][1..]);
      s3;
    }
  }

  // ---------- the mutable manager ----------

  class PortCtx {
    const proxyName: string
    var port: int
    var closed: bool
    var updateTime: int

    constructor (proxyName: string, now: int)
      ensures this.proxyName == proxyName && !closed && updateTime == now
    {
      this.proxyName := proxyName;
      port := 0;
      closed := false;
      updateTime := now;
    }
  }

  class Manager {
    ghost var Model: State
    var reservedPorts: map<string, PortCtx>
    var usedPorts: map<int, PortCtx>
    var freePorts: set<int>

    /** One context may sit in both maps; it does exactly when the reservation is unclosed
        and names the port under which the same proxy holds it. */
    ghost predicate Valid()
      reads this, reservedPorts.Values, usedPorts.Values
    {
      && freePorts == Model.free
      && usedPorts.Keys == Model.used.Keys
      && reservedPorts.Keys == Model.reserved.Keys
      && (forall p :: p in usedPorts ==>
            usedPorts[p].port == p && !usedPorts[p].closed && usedPorts[p].proxyName == Model.used[p])
      && (forall n :: n in reservedPorts ==>
            && reservedPorts[n].proxyName == n
            && Model.reserved[n] == Reservation(reservedPorts[n].port, reservedPorts[n].closed, reservedPorts[n].updateTime))
      && (forall n, p :: n in reservedPorts && p in usedPorts && reservedPorts[n].port == p
                         && !reservedPorts[n].closed && usedPorts[p].proxyName == n ==>
            reservedPorts[n] == usedPorts[p])
    }

    /** A range that counts up to the largest number would keep `NewManager` busy for ever. */
    constructor (allowPorts: seq<PortsRange>)
      requires forall i :: 0 <= i < |allowPorts| ==> RangeFits(allowPorts[i]) && RangeEnds(allowPorts[i])
      ensures Valid() && Model == Initial(Allowed(allowPorts))
    {
      var free: set<int> := {};
      if |allowPorts| > 0 {
        for k := 0 to |allowPorts|
          invariant free == set i, p | 0 <= i < k && p in RangePorts(allowPorts[i]) :: p
        {
          var pair := allowPorts[k];
          if pair.single > 0 {
            free := free + {pair.single};
          } else {
            RangeEndsIff(pair);
            free := WithRange(free, pair.start, pair.end);
          }
          assert free == (set i, p | 0 <= i < k && p in RangePorts(allowPorts[i]) :: p) + RangePorts(pair);
        }
      } else {
        for i := MIN_PORT to MAX_PORT + 1
          invariant free == Interval(MIN_PORT, i - 1)
        {
          free := free + {i};
        }
      }
      freePorts := free;
      usedPorts := map[];
      reservedPorts := map[];
      Model := Initial(Allowed(allowPorts));
    }

    static method WithRange(seen: set<int>, lo: int, hi: int) returns (free: set<int>)
      requires Fits(lo) && Fits(hi) && hi != MAX_INT64
      ensures free == seen + Interval(lo, hi)
    {
      free := seen;
      var i := lo;
      while i <= hi
        invariant lo <= i <= hi + 1 || i == lo
        invariant free == seen + Interval(lo, i - 1)
        decreases hi - i
      {
        free := free + {i};
        i := Wrap(i + 1);
      }
    }

    /** Books `port` for `name` under one new context in both maps. */
    method Book(name: string, port: int, now: int)
      requires Valid()
      modifies this
      ensures Valid() && Model == Take(old(Model), name, port, now)
      ensures forall n :: n in reservedPorts ==>
                (n in old(reservedPorts) && reservedPorts[n] == old(reservedPorts[n])) || fresh(reservedPorts[n])
      ensures forall p :: p in usedPorts ==>
                (p in old(usedPorts) && usedPorts[p] == old(usedPorts[p])) || fresh(usedPorts[p])
    {
      var ctx := new PortCtx(name, now);
      ctx.port := port;
      usedPorts := usedPorts[port := ctx];
      reservedPorts := reservedPorts[name := ctx];
      freePorts := freePorts - {port};
      Model := Take(Model, name, port, now);
    }

    method Acquire(name: string, port: int, now: int, order: seq<int>, probe: Probe) returns (outcome: Outcome)
      requires Valid() && Visits(order, Model)
      modifies this
      ensures Valid()
      ensures (Model, outcome) == Acquired(old(Model), name, port, now, order, probe)
      ensures forall p :: p in usedPorts ==>
                (p in old(usedPorts) && usedPorts[p] == old(usedPorts[p])) || fresh(usedPorts[p])
    {
      if port == 0 && name in reservedPorts {
        var reserved := reservedPorts[name].port;
        if probe(reserved, 0) {
          Book(name, reserved, now);
          return Ok(reserved);
        }
      }
      if port == 0 {
        var realPort := 0;
        var count := 0;
        while count < |order| && count < MAX_TRY_TIMES
          invariant 0 <= count <= |order|
          invariant realPort == 0 && Valid() && Model == old(Model) && usedPorts == old(usedPorts)
          invariant Pick(order, probe, 0, MAX_TRY_TIMES) == Pick(order, probe, count, MAX_TRY_TIMES)
        {
          var k := order[count];
          if probe(k, count + 1) {
            realPort := k;
            Book(name, k, now);
            break;
          }
          count := count + 1;
        }
        outcome := if realPort == 0 then Err(NoAvailablePort) else Ok(realPort);
      } else if port in freePorts {
        if probe(port, 0) {
          Book(name, port, now);
          outcome := Ok(port);
        } else {
          outcome := Err(PortUnAvailable);
        }
      } else {
        outcome := Err(if port in usedPorts then PortAlreadyUsed else PortNotAllowed);
      }
    }

    /** Closing the context of a used port closes a reservation exactly when both maps share
        that context. */
    method Release(port: int, now: int)
      requires Valid()
      modifies this, if port in usedPorts then {usedPorts[port]} else {}
      ensures Valid() && Model == Released(old(Model), port, now)
    {
      if port in usedPorts {
        var ctx := usedPorts[port];
        freePorts := freePorts + {port};
        usedPorts := usedPorts - {port};
        ctx.closed := true;
        ctx.updateTime := now;
        Model := Released(Model, port, now);
      }
    }

    /** One round of the cleaner. */
    method CleanReserved(now: int)
      requires Valid()
      modifies this
      ensures Valid() && Model == Cleaned(old(Model), now)
    {
      var rest := reservedPorts.Keys;
      while rest != {}
        invariant Valid() && rest <= reservedPorts.Keys
        invariant Model == CleanedBut(old(Model), now, rest)
        decreases rest
      {
        var name :| name in rest;
        CleanedStep(old(Model), now, rest, name);
        var ctx := reservedPorts[name];
        rest := rest - {name};
        if ctx.closed && now - ctx.updateTime > MAX_RESERVED_SECONDS {
          Drop(name);
        }
      }
    }

    method Drop(name: string)
      requires Valid()
      modifies this
      ensures Valid() && Model == old(Model).(reserved := old(Model).reserved - {name})
    {
      reservedPorts := reservedPorts - {name};
      Model := Model.(reserved := Model.reserved - {name});
    }
  }
}
