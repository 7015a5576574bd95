/** Choosing how two peers behind NAT try to reach each other (pkg/nathole/classify.go,
    analysis.go, controller.go): classification of a peer, a score for each known behaviour,
    recommend and reward, and the roles of the two sides. */
module NatHole {
  import opened Wrappers

  // ---------- classification ----------

  datatype NatType = EasyNAT | HardNAT

  datatype Change = NoChange | IPChanged | PortChanged | BothChanged

  datatype Feature = Feature(
    natType: NatType, behavior: Change, portsDifference: int, regularPortsChange: bool, publicNetwork: bool)

  /** A mapped address after splitting; `number` is the decoded port. */
  datatype Address = Malformed | Address(ip: string, port: string, number: int)

  /** The index of the address the others are compared with: the first with an IP, or the last
      of all if none has one. */
  function Base(addrs: seq<Address>): (b: nat)
    requires addrs != [] && forall a :: a in addrs ==> a.Address?
    ensures b < |addrs|
    ensures forall i :: 0 <= i < b ==> addrs[i].ip == ""
    ensures addrs[b].ip == "" ==> b == |addrs| - 1
  {
    if addrs[0].ip != "" || |addrs| == 1 then 0 else 1 + Base(addrs[1..])
  }

  predicate WellFormed(addrs: seq<Address>) {
    |addrs| >= 2 && forall a :: a in addrs ==> a.Address?
  }

  ghost predicate SomeIPDiffers(addrs: seq<Address>)
    requires WellFormed(addrs)
  {
    exists i :: Base(addrs) < i < |addrs| && addrs[i].ip != addrs[Base(addrs)].ip
  }

  ghost predicate SomePortDiffers(addrs: seq<Address>)
    requires WellFormed(addrs)
  {
    exists i :: Base(addrs) < i < |addrs| && addrs[i].port != addrs[Base(addrs)].port
  }

  /** `d` is the distance between the smallest and the greatest port from the base on. */
  ghost predicate IsSpread(addrs: seq<Address>, d: int)
    requires WellFormed(addrs)
  {
    var b := Base(addrs);
    && (exists i, j :: b <= i < |addrs| && b <= j < |addrs| && d == addrs[i].number - addrs[j].number)
    && (forall i, j :: b <= i < |addrs| && b <= j < |addrs| ==> addrs[i].number - addrs[j].number <= d)
  }

  /** `ClassifyNATFeature`: nothing for too few or malformed addresses, otherwise what changed
      from one address to the next. */
  method ClassifyNATFeature(addrs: seq<Address>, localIPs: set<string>) returns (r: Option<Feature>)
    ensures r.Some? <==> WellFormed(addrs)
    ensures r.Some? ==>
              var f := r.value;
              && (f.natType == HardNAT <==> SomeIPDiffers(addrs) || SomePortDiffers(addrs))
              && (f.behavior == IPChanged || f.behavior == BothChanged <==> SomeIPDiffers(addrs))
              && (f.behavior == PortChanged || f.behavior == BothChanged <==> SomePortDiffers(addrs))
              && (f.behavior == PortChanged ==> IsSpread(addrs, f.portsDifference))
              && (f.behavior != PortChanged ==> f.portsDifference == 0)
              && (f.regularPortsChange <==> f.behavior == PortChanged && 1 <= f.portsDifference <= 5)
              && (f.publicNetwork <==> exists i :: 0 <= i < |addrs| && addrs[i].ip in localIPs)
  {
    if |addrs| <= 1 {
      return None;
    }
    var ipChanged, portChanged, publicNetwork := false, false, false;
    var baseIP, basePort := "", "";
    var portMax, portMin := 0, 0;
    ghost var b := 0;
    for n := 0 to |addrs|
      invariant forall i :: 0 <= i < n ==> addrs[i].Address?
      invariant publicNetwork <==> exists i :: 0 <= i < n && addrs[i].ip in localIPs
      invariant n == 0 ==> baseIP == "" && !ipChanged && !portChanged
      invariant n > 0 ==> b < n && baseIP == addrs[b].ip && basePort == addrs[b].port
      invariant b <= n && forall i :: 0 <= i < b ==> addrs[i].ip == ""
      invariant n > 0 && baseIP == "" ==> b == n - 1
      invariant ipChanged <==> exists i :: b < i < n && addrs[i].ip != baseIP
      invariant portChanged <==> exists i :: b < i < n && addrs[i].port != basePort
      invariant forall i :: b <= i < n ==> portMin <= addrs[i].number <= portMax
      invariant n > 0 ==> exists i :: b <= i < n && addrs[i].number == portMax
      invariant n > 0 ==> exists i :: b <= i < n && addrs[i].number == portMin
    {
      var a := addrs[n];
      if a.Malformed? {
        assert a in addrs;
        return None;
      }
      if a.ip in localIPs {
        publicNetwork := true;
      }
      if baseIP == "" {
        baseIP, basePort, portMax, portMin := a.ip, a.port, a.number, a.number;
        b := n;
      } else {
        portMax := if a.number > portMax then a.number else portMax;
        portMin := if a.number < portMin then a.number else portMin;
        if baseIP != a.ip {
          ipChanged := true;
        }
        if basePort != a.port {
          portChanged := true;
        }
      }
    }
    assert Base(addrs) == b;
    var behavior := if ipChanged && portChanged then BothChanged
                    else if ipChanged then IPChanged
                    else if portChanged then PortChanged
                    else NoChange;
    var difference := if behavior == PortChanged then portMax - portMin else 0;
    return Some(Feature(if behavior == NoChange then EasyNAT else HardNAT, behavior, difference,
                        behavior == PortChanged && 1 <= difference <= 5, publicNetwork));
  }

  // ---------- the table of behaviours ----------

  datatype Role = NoRole | Sender | Receiver

  datatype Behavior = Behavior(
    role: Role, ttl: int, sendDelayMs: int, portsRangeNumber: int, portsRandomNumber: int, listenRandomPorts: int)

  function S(delay: int): Behavior { Behavior(Sender, 0, delay, 0, 0, 0) }

  function R(ttl: int): Behavior { Behavior(Receiver, ttl, 0, 0, 0, 0) }

  const MODE0: seq<(Behavior, Behavior)> := [
    (S(0), R(7)), (R(7), S(0)), (S(0), R(4)), (R(4), S(0)), (S(0), R(0)), (R(0), S(0)),
    (S(5000), R(0)), (S(10000), R(0)), (R(0), S(5000)), (R(0), S(10000))]

  function R10(ttl: int): Behavior { R(ttl).(portsRangeNumber := 10) }

  const MODE1: seq<(Behavior, Behavior)> := [
    (S(0), R10(7)), (S(2000), R10(7)), (S(0), R10(4)), (S(2000), R10(4)), (S(0), R10(0)), (S(2000), R10(0))]

  function Spray(): Behavior { S(3000).(portsRandomNumber := 1000) }

  function Wide(ttl: int): Behavior { R(ttl).(listenRandomPorts := 256) }

  const MODE2: seq<(Behavior, Behavior)> := [(Spray(), Wide(7)), (Spray(), Wide(4)), (Spray(), Wide(0))]

  function S10(): Behavior { S(0).(portsRangeNumber := 10) }

  const MODE3: seq<(Behavior, Behavior)> := [
    (S10(), R10(7)), (S10(), R10(4)), (S10(), R10(0)), (R10(7), S10()), (R10(4), S10()), (R10(0), S10())]

  function Wide2(ttl: int): Behavior { Wide(ttl).(portsRangeNumber := 2) }

  const MODE4: seq<(Behavior, Behavior)> := [(Spray(), Wide2(7)), (Spray(), Wide2(4)), (Spray(), Wide2(0))]

  function BehaviorsByMode(mode: int): seq<(Behavior, Behavior)> {
    match mode
    case 1 => MODE1
    case 2 => MODE2
    case 3 => MODE3
    case 4 => MODE4
    case _ => MODE0
  }

  function BehaviorsByModeAndIndex(mode: int, index: int): (Behavior, Behavior)
    requires index >= 0
  {
    var behaviors := BehaviorsByMode(mode);
    if index >= |behaviors| then (Behavior(NoRole, 0, 0, 0, 0, 0), Behavior(NoRole, 0, 0, 0, 0, 0))
    else behaviors[index]
  }

  predicate Opposite(a: Behavior, b: Behavior) {
    (a.role == Sender && b.role == Receiver) || (a.role == Receiver && b.role == Sender)
  }

  /** In every table one side sends and the other receives. */
  lemma TablesPairRoles(mode: int, index: int)
    requires 0 <= index < |BehaviorsByMode(mode)|
    ensures var (a, b) := BehaviorsByMode(mode)[index];
            Opposite(a, b) && (mode == 1 || mode == 2 || mode == 4 ==> a.role == Sender)
  {
  }

  /** The hop limits tried one after the other; the last is no limit. */
  function Hops(k: int): int {
    if k == 0 then 7 else if k == 1 then 4 else 0
  }

  predicate Mirrored(x: (Behavior, Behavior), y: (Behavior, Behavior)) {
    x.0 == y.1 && x.1 == y.0
  }

  /** The tables by their plan. Mode 0 tries each hop limit both ways round, and then long delays
      both ways round. Mode 1 tries each hop limit without and with a delay of the sender, on ten
      ports. Modes 2 and 4 have the sender try a thousand random ports after three seconds while the
      receiver listens on 256, mode 4 around two of them. Mode 3 tries each hop limit on ten
      ports, first with the client sending and then mirrored. */
  lemma TablesByPlan(k: nat)
    ensures |MODE0| == 10 && |MODE1| == 6 && |MODE2| == 3 && |MODE3| == 6 && |MODE4| == 3
    ensures k < 3 ==>
              && MODE0[2 * k] == (Behavior(Sender, 0, 0, 0, 0, 0), Behavior(Receiver, Hops(k), 0, 0, 0, 0))
              && Mirrored(MODE0[2 * k], MODE0[2 * k + 1])
    ensures k < 2 ==>
              && MODE0[6 + k] == (Behavior(Sender, 0, 5000 * (k + 1), 0, 0, 0), Behavior(Receiver, 0, 0, 0, 0, 0))
              && Mirrored(MODE0[6 + k], MODE0[8 + k])
    ensures k < 6 ==>
              MODE1[k] == (Behavior(Sender, 0, 2000 * (k % 2), 0, 0, 0), Behavior(Receiver, Hops(k / 2), 0, 10, 0, 0))
    ensures k < 3 ==>
              && MODE2[k] == (Behavior(Sender, 0, 3000, 0, 1000, 0), Behavior(Receiver, Hops(k), 0, 0, 0, 256))
              && MODE4[k] == (Behavior(Sender, 0, 3000, 0, 1000, 0), Behavior(Receiver, Hops(k), 0, 2, 0, 256))
              && MODE3[k] == (Behavior(Sender, 0, 0, 10, 0, 0), Behavior(Receiver, Hops(k), 0, 10, 0, 0))
              && Mirrored(MODE3[k], MODE3[k + 3])
  {
  }

  // ---------- scores ----------

  datatype Score = Score(mode: int, index: int, score: int)

  const MAX_SCORE := 10

  /** The first of the greatest scores, as `slices.MaxFunc` finds it. */
  function FirstMax(q: seq<Score>): (m: nat)
    requires q != []
    ensures m < |q|
    ensures forall i :: 0 <= i < m ==> q[i].score < q[m].score
    ensures forall i :: 0 <= i < |q| ==> q[i].score <= q[m].score
  {
    if |q| == 1 then 0
    else
      var n := |q| - 1;
      var m := FirstMax(q[..n]);
      assert forall i :: 0 <= i < n ==> q[..n][i] == q[i];
      if q[n].score > q[m].score then n else m
  }

  function Lowered(q: seq<Score>, m: nat): seq<Score>
    requires m < |q|
  {
    q[m := q[m].(score := q[m].score - 1)]
  }

  function Recommended(q: seq<Score>): (t: seq<Score>)
    requires q != []
    ensures |t| == |q|
  {
    Lowered(q, FirstMax(q))
  }

  /** Recommendations that go to behaviour `i` before the first for `j`. */
  function Ahead(q: seq<Score>, i: nat, j: nat): nat
    requires i < |q| && j < |q|
  {
    var d := q[i].score - q[j].score + (if i < j then 1 else 0);
    if i == j || d < 0 then 0 else d
  }

  function AheadOf(q: seq<Score>, j: nat, n: nat): nat
    requires j < |q| && n <= |q|
  {
    if n == 0 then 0 else AheadOf(q, j, n - 1) + Ahead(q, n - 1, j)
  }

  /** How many other recommendations come before behaviour `j`. */
  function Wait(q: seq<Score>, j: nat): nat
    requires j < |q|
  {
    AheadOf(q, j, |q|)
  }

  lemma {:induction false} AheadOfZero(q: seq<Score>, j: nat, n: nat)
    requires j < |q| && n <= |q| && forall i :: 0 <= i < n ==> Ahead(q, i, j) == 0
    ensures AheadOf(q, j, n) == 0
  {
    if n > 0 { AheadOfZero(q, j, n - 1); }
  }

  lemma {:induction false} AheadOfAtLeast(q: seq<Score>, j: nat, n: nat, m: nat)
    requires j < |q| && m < n <= |q|
    ensures AheadOf(q, j, n) >= Ahead(q, m, j)
  {
    if m < n - 1 { AheadOfAtLeast(q, j, n - 1, m); }
  }

  /** `j` is next exactly when nobody is ahead of it. */
  lemma NextIffNoWait(q: seq<Score>, j: nat)
    requires j < |q|
    ensures FirstMax(q) == j <==> Wait(q, j) == 0
  {
    if FirstMax(q) == j {
      AheadOfZero(q, j, |q|);
    } else {
      AheadOfAtLeast(q, j, |q|, FirstMax(q));
    }
  }

  lemma {:induction false} AheadOfLowered(q: seq<Score>, j: nat, m: nat, n: nat)
    requires j < |q| && m < |q| && m != j && n <= |q| && Ahead(q, m, j) > 0
    ensures AheadOf(Lowered(q, m), j, n) == AheadOf(q, j, n) - (if m < n then 1 else 0)
  {
    if n > 0 { AheadOfLowered(q, j, m, n - 1); }
  }

  /** Every recommendation of another behaviour brings `j` one closer. */
  lemma OneCloser(q: seq<Score>, j: nat)
    requires j < |q| && FirstMax(q) != j
    ensures Wait(Recommended(q), j) == Wait(q, j) - 1
  {
    AheadOfLowered(q, j, FirstMax(q), |q|);
  }

  /** The scores after `n` recommendations without a success report. */
  function After(q: seq<Score>, n: nat): (t: seq<Score>)
    requires q != []
    ensures |t| == |q|
    decreases n
  {
    if n == 0 then q else After(Recommended(q), n - 1)
  }

  /** The waiting-time theorem: behaviour `j` is recommended after exactly `Wait(q, j)` other
      recommendations, so no behaviour starves. */
  lemma {:induction false} WaitingTime(q: seq<Score>, j: nat)
    requires j < |q|
    ensures FirstMax(After(q, Wait(q, j))) == j
    ensures forall n: nat :: n < Wait(q, j) ==> FirstMax(After(q, n)) != j
    decreases Wait(q, j)
  {
    NextIffNoWait(q, j);
    if Wait(q, j) > 0 {
      OneCloser(q, j);
      var t := Recommended(q);
      WaitingTime(t, j);
      assert forall n: nat :: n > 0 ==> After(q, n) == After(t, n - 1);
    }
  }

  lemma {:induction false} AheadOfAtMostOnes(q: seq<Score>, j: nat, n: nat)
    requires j < |q| && n <= |q| && forall i :: 0 <= i < n ==> Ahead(q, i, j) <= 1
    ensures AheadOf(q, j, n) <= if j < n then n - 1 else n
  {
    if n > 0 { AheadOfAtMostOnes(q, j, n - 1); }
  }

  /** Once recommended, a behaviour comes again after at most one recommendation of each other
      behaviour. */
  lemma AgainWithinARound(q: seq<Score>)
    requires q != []
    ensures Wait(Recommended(q), FirstMax(q)) <= |q| - 1
  {
    AheadOfAtMostOnes(Recommended(q), FirstMax(q), |q|);
  }

  /** `Recommand` on any list: what is handed out, and the scores it leaves. */
  function Chosen(q: seq<Score>): (int, int) {
    if q == [] then (0, 0) else (q[FirstMax(q)].mode, q[FirstMax(q)].index)
  }

  function Next(q: seq<Score>): seq<Score> {
    if q == [] then [] else Recommended(q)
  }

  // ---------- records of a pair ----------

  function ScoresByMode(mode: int, senderScore: int, receiverScore: int): (q: seq<Score>)
    ensures |q| == |BehaviorsByMode(mode)|
    ensures forall i :: 0 <= i < |q| ==> q[i].mode == mode && q[i].index == i
  {
    var behaviors := BehaviorsByMode(mode);
    seq(|behaviors|, i requires 0 <= i < |behaviors| =>
      Score(mode, i, if behaviors[i].0.role == Sender then senderScore else receiverScore))
  }

  /** How many of the two are easy, hard, and hard with regular port changes. */
  datatype PairClass = PairClass(easy: nat, hard: nat, regular: nat)

  /** `ClassifyFeatureCount` for the two peers. */
  function ClassOf(c: Feature, v: Feature): PairClass {
    PairClass((if c.natType == EasyNAT then 1 else 0) + (if v.natType == EasyNAT then 1 else 0),
              (if c.natType == HardNAT then 1 else 0) + (if v.natType == HardNAT then 1 else 0),
              (if c.natType == HardNAT && c.regularPortsChange then 1 else 0)
              + (if v.natType == HardNAT && v.regularPortsChange then 1 else 0))
  }

  function Mode0Scores(c: Feature, v: Feature): seq<Score> {
    if c.publicNetwork then ScoresByMode(0, 0, 1)
    else if v.publicNetwork then ScoresByMode(0, 1, 0)
    else ScoresByMode(0, 0, 0)
  }

  /** `NewMakeHoleRecords`. */
  function NewRecords(c: Feature, v: Feature): seq<Score> {
    var k := ClassOf(c, v);
    if k.easy == 2 then Mode0Scores(c, v)
    else if k.hard == 1 && k.regular == 1 then ScoresByMode(1, 0, 0) + ScoresByMode(2, 0, 0) + Mode0Scores(c, v)
    else if k.hard == 1 && k.regular == 0 then ScoresByMode(2, 0, 0) + ScoresByMode(1, 0, 0) + Mode0Scores(c, v)
    else if k.hard == 2 && k.regular == 2 then ScoresByMode(3, 0, 0) + ScoresByMode(4, 0, 0)
    else if k.hard == 2 && k.regular == 1 then ScoresByMode(4, 0, 0)
    else ScoresByMode(0, 1, 1) + ScoresByMode(1, 1, 1) + ScoresByMode(3, 1, 1)
  }

  /** The modes meant for a class of pairs: 0 for two easy NATs; 1 and 2, with 0 as a
      fallback, for one hard NAT; 3 and 4 for two regular hard NATs; 4 if one is regular. */
  function ModesFor(k: PairClass): set<int> {
    if k.easy == 2 then {0}
    else if k.hard == 1 then {0, 1, 2}
    else if k.regular == 2 then {3, 4}
    else if k.regular == 1 then {4}
    else {0, 1, 3}
  }

  predicate InTable(e: Score) {
    0 <= e.mode <= 4 && 0 <= e.index < |BehaviorsByMode(e.mode)|
  }

  ghost predicate RecordsOk(q: seq<Score>) {
    && q != []
    && (forall i :: 0 <= i < |q| ==> InTable(q[i]) && q[i].score <= MAX_SCORE)
    && (forall i, j :: 0 <= i < j < |q| ==> q[i].mode != q[j].mode || q[i].index != q[j].index)
  }

  ghost predicate ModesWithin(q: seq<Score>, modes: set<int>) {
    forall i :: 0 <= i < |q| ==> q[i].mode in modes
  }

  lemma BlockOk(mode: int, senderScore: int, receiverScore: int)
    requires 0 <= mode <= 4 && senderScore <= MAX_SCORE && receiverScore <= MAX_SCORE
    ensures RecordsOk(ScoresByMode(mode, senderScore, receiverScore))
    ensures ModesWithin(ScoresByMode(mode, senderScore, receiverScore), {mode})
  {
    assert |BehaviorsByMode(mode)| > 0;
  }

  lemma BlocksOk(p: seq<Score>, q: seq<Score>, ps: set<int>, qs: set<int>)
    requires RecordsOk(p) && RecordsOk(q) && ModesWithin(p, ps) && ModesWithin(q, qs) && ps !! qs
    ensures RecordsOk(p + q) && ModesWithin(p + q, ps + qs)
  {
    var t := p + q;
    forall i, j | 0 <= i < j < |t| ensures t[i].mode != t[j].mode || t[i].index != t[j].index {
      if i < |p| <= j {
        assert t[i].mode in ps && t[j].mode in qs;
      }
    }
  }

  lemma Mode0Ok(c: Feature, v: Feature)
    ensures RecordsOk(Mode0Scores(c, v)) && ModesWithin(Mode0Scores(c, v), {0})
  {
    BlockOk(0, 0, 0); BlockOk(0, 0, 1); BlockOk(0, 1, 0);
  }

  lemma OneHardOk(zero: seq<Score>)
    requires RecordsOk(zero) && ModesWithin(zero, {0})
    ensures var one, two := ScoresByMode(1, 0, 0), ScoresByMode(2, 0, 0);
            && RecordsOk(one + two + zero) && ModesWithin(one + two + zero, {0, 1, 2})
            && RecordsOk(two + one + zero) && ModesWithin(two + one + zero, {0, 1, 2})
  {
    BlockOk(1, 0, 0); BlockOk(2, 0, 0);
    var one, two := ScoresByMode(1, 0, 0), ScoresByMode(2, 0, 0);
    BlocksOk(one, two, {1}, {2}); BlocksOk(one + two, zero, {1} + {2}, {0});
    BlocksOk(two, one, {2}, {1}); BlocksOk(two + one, zero, {2} + {1}, {0});
  }

  lemma TwoHardOk()
    ensures var three, four := ScoresByMode(3, 0, 0), ScoresByMode(4, 0, 0);
            && RecordsOk(three + four) && ModesWithin(three + four, {3, 4}) && RecordsOk(four) && ModesWithin(four, {4})
    ensures var all := ScoresByMode(0, 1, 1) + ScoresByMode(1, 1, 1) + ScoresByMode(3, 1, 1);
            RecordsOk(all) && ModesWithin(all, {0, 1, 3})
  {
    BlockOk(3, 0, 0); BlockOk(4, 0, 0);
    BlocksOk(ScoresByMode(3, 0, 0), ScoresByMode(4, 0, 0), {3}, {4});
    BlockOk(0, 1, 1); BlockOk(1, 1, 1); BlockOk(3, 1, 1);
    BlocksOk(ScoresByMode(0, 1, 1), ScoresByMode(1, 1, 1), {0}, {1});
    BlocksOk(ScoresByMode(0, 1, 1) + ScoresByMode(1, 1, 1), ScoresByMode(3, 1, 1), {0} + {1}, {3});
  }

  lemma NewRecordsOk(c: Feature, v: Feature)
    ensures RecordsOk(NewRecords(c, v)) && ModesWithin(NewRecords(c, v), ModesFor(ClassOf(c, v)))
  {
    Mode0Ok(c, v);
    if ClassOf(c, v).hard == 1 {
      OneHardOk(Mode0Scores(c, v));
    } else if ClassOf(c, v).hard == 2 {
      TwoHardOk();
    }
  }

  /** `ReportSuccess`: two points for the first entry of that behaviour, at most ten. */
  function Rewarded(q: seq<Score>, mode: int, index: int): (t: seq<Score>)
    ensures |t| == |q|
  {
    if q == [] then []
    else if q[0].mode == mode && q[0].index == index then
      q[0 := q[0].(score := if q[0].score + 2 > MAX_SCORE then MAX_SCORE else q[0].score + 2)]
    else [q[0]] + Rewarded(q[1..], mode, index)
  }

  lemma {:induction false} RewardsOneKind(q: seq<Score>, mode: int, index: int, i: nat)
    requires i < |q|
    ensures var t := Rewarded(q, mode, index)[i];
            t == q[i] || (q[i].mode == mode && q[i].index == index
                          && t == q[i].(score := if q[i].score + 2 > MAX_SCORE then MAX_SCORE else q[i].score + 2))
  {
    if i > 0 && (q[0].mode != mode || q[0].index != index) {
      RewardsOneKind(q[1..], mode, index, i - 1);
    }
  }

  lemma RewardedPast(q: seq<Score>, mode: int, index: int, j: nat)
    requires j < |q| && (q[j].mode != mode || q[j].index != index)
    ensures Rewarded(q[j..], mode, index) == [q[j]] + Rewarded(q[j + 1..], mode, index)
  {
    assert q[j..][0] == q[j] && q[j..][1..] == q[j + 1..];
  }

  lemma Reassociate(q: seq<Score>, i: nat, j: nat, r: seq<Score>)
    requires j < i <= |q|
    ensures [q[j]] + (q[j + 1..i] + r) == q[j..i] + r
  {
    assert q[j..i] == [q[j]] + q[j + 1..i];
  }

  /** Entries of other behaviours in front are left alone. */
  lemma {:induction false} RewardedBehind(q: seq<Score>, mode: int, index: int, i: nat, j: nat)
    requires j <= i <= |q| && forall k :: 0 <= k < i ==> q[k].mode != mode || q[k].index != index
    ensures Rewarded(q[j..], mode, index) == q[j..i] + Rewarded(q[i..], mode, index)
    decreases i - j
  {
    if j < i {
      RewardedBehind(q, mode, index, i, j + 1);
      RewardedPast(q, mode, index, j);
      Reassociate(q, i, j, Rewarded(q[i..], mode, index));
    }
  }

  lemma RewardedHere(q: seq<Score>, mode: int, index: int, i: nat, u: Score)
    requires i < |q| && q[i].mode == mode && q[i].index == index
    requires u == q[i].(score := if q[i].score + 2 > MAX_SCORE then MAX_SCORE else q[i].score + 2)
    ensures Rewarded(q[i..], mode, index) == [u] + q[i + 1..]
  {
    assert q[i..][0] == q[i] && q[i..][0 := u] == [u] + q[i + 1..];
  }

  lemma Spliced(q: seq<Score>, i: nat, u: Score)
    requires i < |q|
    ensures q[..i] + ([u] + q[i + 1..]) == q[i := u]
  {
  }

  lemma RewardedAt(q: seq<Score>, mode: int, index: int, i: nat)
    requires i < |q| && forall k :: 0 <= k < i ==> q[k].mode != mode || q[k].index != index
    requires q[i].mode == mode && q[i].index == index
    ensures Rewarded(q, mode, index)
            == q[i := q[i].(score := if q[i].score + 2 > MAX_SCORE then MAX_SCORE else q[i].score + 2)]
  {
    var u := q[i].(score := if q[i].score + 2 > MAX_SCORE then MAX_SCORE else q[i].score + 2);
    RewardedBehind(q, mode, index, i, 0);
    assert q[0..] == q && q[0..i] == q[..i];
    RewardedHere(q, mode, index, i, u);
    Spliced(q, i, u);
  }

  lemma RewardKeepsRecordsOk(q: seq<Score>, mode: int, index: int)
    requires RecordsOk(q)
    ensures RecordsOk(Rewarded(q, mode, index))
  {
    var t := Rewarded(q, mode, index);
    forall i | 0 <= i < |q| ensures t[i].mode == q[i].mode && t[i].index == q[i].index && t[i].score <= MAX_SCORE {
      RewardsOneKind(q, mode, index, i);
    }
  }

  lemma RecommendKeepsRecordsOk(q: seq<Score>)
    requires RecordsOk(q)
    ensures RecordsOk(Recommended(q))
  {
    var t := Recommended(q);
    assert forall i :: 0 <= i < |q| ==>
      t[i].mode == q[i].mode && t[i].index == q[i].index && t[i].score <= q[i].score;
  }

  // ---------- histories ----------

  type State = map<string, seq<Score>>

  datatype Event =
    | Recommend(key: string, c: Feature, v: Feature)
    | Report(key: string, mode: int, index: int)
    | Clean(stale: set<string>)  // the keys that were idle for too long

  function RecordsFor(s: State, key: string, c: Feature, v: Feature): seq<Score> {
    if key in s then s[key] else NewRecords(c, v)
  }

  function Apply(s: State, e: Event): State {
    match e
    case Recommend(key, c, v) => s[key := Next(RecordsFor(s, key, c, v))]
    case Report(key, mode, index) => if key in s then s[key := Rewarded(s[key], mode, index)] else s
    case Clean(stale) => s - stale
  }

  function Run(s: State, events: seq<Event>): State
    decreases |events|
  {
    if events == [] then s else Run(Apply(s, events[0]), events[1..])
  }

  /** The mode and index that a recommendation hands out. */
  function Choice(s: State, key: string, c: Feature, v: Feature): (int, int) {
    Chosen(RecordsFor(s, key, c, v))
  }

  ghost predicate StateOk(s: State) {
    forall k :: k in s ==> RecordsOk(s[k])
  }

  lemma StepKeepsStateOk(s: State, e: Event)
    requires StateOk(s)
    ensures StateOk(Apply(s, e))
  {
    match e
    case Recommend(key, c, v) =>
      NewRecordsOk(c, v);
      RecommendKeepsRecordsOk(RecordsFor(s, key, c, v));
    case Report(key, mode, index) =>
      if key in s {
        RewardKeepsRecordsOk(s[key], mode, index);
      }
    case Clean(_) =>
  }

  lemma {:induction false} RunKeepsStateOk(s: State, events: seq<Event>)
    requires StateOk(s)
    ensures StateOk(Run(s, events))
    decreases |events|
  {
    if events != [] {
      var e := events[0];
      StepKeepsStateOk(s, e);
      RunKeepsStateOk(Apply(s, e), events[1..]);
    }
  }

  /** After any history of recommendations, rewards and cleaning, scores stay at most ten and
      the next recommendation lies inside its mode's table. */
  lemma AlwaysInTable(events: seq<Event>, key: string, c: Feature, v: Feature)
    ensures var (mode, index) := Choice(Run(map[], events), key, c, v);
            0 <= mode <= 4 && 0 <= index < |BehaviorsByMode(mode)|
    ensures forall k, i :: k in Run(map[], events) && 0 <= i < |Run(map[], events)[k]| ==>
              Run(map[], events)[k][i].score <= MAX_SCORE
  {
    RunKeepsStateOk(map[], events);
    NewRecordsOk(c, v);
    assert RecordsOk(RecordsFor(Run(map[], events), key, c, v));
  }

  /** `key` stands for one class of pairs. */
  ghost predicate KeysTell(events: seq<Event>, classes: map<string, PairClass>) {
    forall e :: e in events && e.Recommend? ==> e.key in classes && ClassOf(e.c, e.v) == classes[e.key]
  }

  ghost predicate ModesOk(s: State, classes: map<string, PairClass>) {
    forall k :: k in s ==> k in classes && ModesWithin(s[k], ModesFor(classes[k]))
  }

  lemma RewardKeepsModes(q: seq<Score>, mode: int, index: int, modes: set<int>)
    requires ModesWithin(q, modes)
    ensures ModesWithin(Rewarded(q, mode, index), modes)
  {
    forall i | 0 <= i < |q| ensures Rewarded(q, mode, index)[i].mode in modes {
      RewardsOneKind(q, mode, index, i);
    }
  }

  lemma StepKeepsModesOk(s: State, e: Event, classes: map<string, PairClass>)
    requires ModesOk(s, classes) && (e.Recommend? ==> e.key in classes && ClassOf(e.c, e.v) == classes[e.key])
    ensures ModesOk(Apply(s, e), classes)
  {
    match e
    case Recommend(key, c, v) => NewRecordsOk(c, v);
    case Report(key, mode, index) =>
      if key in s {
        RewardKeepsModes(s[key], mode, index, ModesFor(classes[key]));
      }
    case Clean(_) =>
  }

  lemma {:induction false} RunKeepsModesOk(s: State, events: seq<Event>, classes: map<string, PairClass>)
    requires ModesOk(s, classes) && KeysTell(events, classes)
    ensures ModesOk(Run(s, events), classes)
    decreases |events|
  {
    if events != [] {
      assert events[0] in events;
      StepKeepsModesOk(s, events[0], classes);
      RunKeepsModesOk(Apply(s, events[0]), events[1..], classes);
    }
  }

  /** If the analysis key tells the class of a pair, only the modes meant for that class are
      recommended, whatever happened before. */
  lemma OnlyFittingModes(events: seq<Event>, classes: map<string, PairClass>, key: string, c: Feature, v: Feature)
    requires KeysTell(events, classes) && key in classes && ClassOf(c, v) == classes[key]
    ensures Choice(Run(map[], events), key, c, v).0 in ModesFor(ClassOf(c, v))
  {
    RunKeepsModesOk(map[], events, classes);
    RunKeepsStateOk(map[], events);
    NewRecordsOk(c, v);
    var q := RecordsFor(Run(map[], events), key, c, v);
    assert RecordsOk(q) && ModesWithin(q, ModesFor(ClassOf(c, v)));
  }

  // ---------- the order of first tries ----------

  /** Scores of two neighbouring levels; `highs` has the places of the higher one, in order. */
  ghost predicate Levels(q: seq<Score>, low: int, highs: seq<nat>) {
    && (forall k :: 0 <= k < |highs| ==> highs[k] < |q|)
    && (forall k, l :: 0 <= k < l < |highs| ==> highs[k] < highs[l])
    && (forall i: nat :: i < |q| ==> q[i].score == if i in highs then low + 1 else low)
  }

  lemma {:induction false} EvenAhead(q: seq<Score>, low: int, j: nat, n: nat)
    requires j < |q| && n <= |q| && forall i :: 0 <= i < |q| ==> q[i].score == low
    ensures AheadOf(q, j, n) == if n <= j then n else j
  {
    if n > 0 { EvenAhead(q, low, j, n - 1); }
  }

  lemma HighestFirst(q: seq<Score>, low: int, highs: seq<nat>)
    requires q != [] && Levels(q, low, highs) && highs != []
    ensures FirstMax(q) == highs[0] && Levels(Recommended(q), low, highs[1..])
  {
    var m, t := FirstMax(q), Recommended(q);
    assert highs[0] in highs && q[highs[0]].score == low + 1;
    assert m in highs;
    var k :| 0 <= k < |highs| && highs[k] == m;
    assert k == 0;
    forall i: nat | i < |t| ensures t[i].score == if i in highs[1..] then low + 1 else low {
      assert highs == [highs[0]] + highs[1..];
    }
  }

  /** Those of the higher level come first, in their order; then all come in their order. */
  lemma {:induction false} LevelsOrder(q: seq<Score>, low: int, highs: seq<nat>, n: nat)
    requires q != [] && Levels(q, low, highs) && n < |highs| + |q|
    ensures FirstMax(After(q, n)) == if n < |highs| then highs[n] else n - |highs|
    decreases |highs|
  {
    if highs == [] {
      EvenAhead(q, low, n, |q|);
      WaitingTime(q, n);
    } else {
      HighestFirst(q, low, highs);
      if n > 0 {
        LevelsOrder(Recommended(q), low, highs[1..], n - 1);
      }
    }
  }

  lemma {:induction false} AfterKeepsRows(q: seq<Score>, n: nat, i: nat)
    requires i < |q|
    ensures After(q, n)[i].mode == q[i].mode && After(q, n)[i].index == q[i].index
    decreases n
  {
    if n > 0 { AfterKeepsRows(Recommended(q), n - 1, i); }
  }

  function Rows(mode: int, n: nat): (r: seq<(int, int)>)
    ensures |r| == n && forall i :: 0 <= i < n ==> r[i] == (mode, i)
  {
    seq(n, i => (mode, i))
  }

  predicate Hard(f: Feature) {
    f.natType == HardNAT
  }

  predicate Regular(f: Feature) {
    Hard(f) && f.regularPortsChange
  }

  /** The rows tried for a pair, in order: between easy NATs the ten of mode 0; with one hard NAT
      those of mode 1 and then mode 2 if its port changes are regular, mode 2 and then mode 1 if
      not, and then mode 0; with two, modes 3 and 4 if both are regular, mode 4 if one is, and
      modes 0, 1 and 3 if none is. */
  function InOrder(c: Feature, v: Feature): seq<(int, int)> {
    if !Hard(c) && !Hard(v) then Rows(0, 10)
    else if Hard(c) && Hard(v) then
      if Regular(c) && Regular(v) then Rows(3, 6) + Rows(4, 3)
      else if Regular(c) || Regular(v) then Rows(4, 3)
      else Rows(0, 10) + Rows(1, 6) + Rows(3, 6)
    else if Regular(c) || Regular(v) then Rows(1, 6) + Rows(2, 3) + Rows(0, 10)
    else Rows(2, 3) + Rows(1, 6) + Rows(0, 10)
  }

  /** Unless both are hard, a side on the public network puts the rows of mode 0 in which it
      receives before all others; the client counts if both are. */
  function PublicFirst(c: Feature, v: Feature): seq<(int, int)> {
    if Hard(c) && Hard(v) then []
    else if c.publicNetwork then [(0, 1), (0, 3), (0, 5), (0, 8), (0, 9)]
    else if v.publicNetwork then [(0, 0), (0, 2), (0, 4), (0, 6), (0, 7)]
    else []
  }

  ghost predicate HaveRows(q: seq<Score>, rows: seq<(int, int)>) {
    |q| == |rows| && forall i :: 0 <= i < |q| ==> (q[i].mode, q[i].index) == rows[i]
  }

  lemma HaveRowsJoined(p: seq<Score>, q: seq<Score>, a: seq<(int, int)>, b: seq<(int, int)>)
    requires HaveRows(p, a) && HaveRows(q, b)
    ensures HaveRows(p + q, a + b)
  {
  }

  lemma BlockRows(mode: int, x: int, y: int, n: nat)
    requires n == |BehaviorsByMode(mode)|
    ensures HaveRows(ScoresByMode(mode, x, y), Rows(mode, n))
  {
  }

  /** The places of mode 0 that start higher. */
  function HighInMode0(c: Feature, v: Feature): seq<nat> {
    if c.publicNetwork then [1, 3, 5, 8, 9] else if v.publicNetwork then [0, 2, 4, 6, 7] else []
  }

  lemma Mode0Senders(i: nat)
    requires i < 10
    ensures MODE0[i].0.role == Sender <==> i in [0, 2, 4, 6, 7]
    ensures i in [1, 3, 5, 8, 9] <==> !(i in [0, 2, 4, 6, 7])
  {
  }

  lemma Mode0Levels(c: Feature, v: Feature)
    ensures Levels(Mode0Scores(c, v), 0, HighInMode0(c, v))
  {
    var q := Mode0Scores(c, v);
    forall i: nat | i < |q| ensures q[i].score == if i in HighInMode0(c, v) then 1 else 0 {
      Mode0Senders(i);
    }
  }

  lemma EvenLevels(mode: int, x: int)
    ensures Levels(ScoresByMode(mode, x, x), x, [])
  {
  }

  /** Places behind a block of low scores. */
  function Behind(n: nat, highs: seq<nat>): (r: seq<nat>)
    ensures |r| == |highs| && forall k :: 0 <= k < |highs| ==> r[k] == n + highs[k]
  {
    seq(|highs|, k requires 0 <= k < |highs| => n + highs[k])
  }

  lemma LevelsBehind(p: seq<Score>, q: seq<Score>, low: int, highs: seq<nat>)
    requires Levels(p, low, []) && Levels(q, low, highs)
    ensures Levels(p + q, low, Behind(|p|, highs))
  {
    var r, hs := p + q, Behind(|p|, highs);
    forall i: nat | i < |r| ensures r[i].score == if i in hs then low + 1 else low {
      if i >= |p| {
        assert r[i] == q[i - |p|];
        if i - |p| in highs {
          var k :| 0 <= k < |highs| && highs[k] == i - |p|;
          assert hs[k] == i;
        }
      }
    }
  }

  /** What new records are: the rows in order, the public ones a level higher. */
  lemma FreshRecords(c: Feature, v: Feature) returns (low: int, highs: seq<nat>)
    ensures var q := NewRecords(c, v);
            && HaveRows(q, InOrder(c, v)) && Levels(q, low, highs)
            && |highs| == |PublicFirst(c, v)| && (forall k :: 0 <= k < |highs| ==> InOrder(c, v)[highs[k]] == PublicFirst(c, v)[k])
  {
    low := 0;
    if !Hard(c) && !Hard(v) {
      Mode0Block(c, v);
      highs := HighInMode0(c, v);
    } else if Hard(c) && Hard(v) {
      low, highs := FreshBothHard(c, v);
    } else {
      highs := FreshOneHard(c, v);
    }
  }

  lemma FreshBothHard(c: Feature, v: Feature) returns (low: int, highs: seq<nat>)
    requires Hard(c) && Hard(v)
    ensures highs == [] && HaveRows(NewRecords(c, v), InOrder(c, v)) && Levels(NewRecords(c, v), low, highs)
  {
    highs := [];
    if Regular(c) || Regular(v) {
      low := 0;
      BlockRows(3, 0, 0, 6); BlockRows(4, 0, 0, 3);
      HaveRowsJoined(ScoresByMode(3, 0, 0), ScoresByMode(4, 0, 0), Rows(3, 6), Rows(4, 3));
      EvenLevels(3, 0); EvenLevels(4, 0);
      LevelsBehind(ScoresByMode(3, 0, 0), ScoresByMode(4, 0, 0), 0, []);
    } else {
      low := 1;
      BlockRows(0, 1, 1, 10); BlockRows(1, 1, 1, 6); BlockRows(3, 1, 1, 6);
      var two := ScoresByMode(0, 1, 1) + ScoresByMode(1, 1, 1);
      HaveRowsJoined(ScoresByMode(0, 1, 1), ScoresByMode(1, 1, 1), Rows(0, 10), Rows(1, 6));
      HaveRowsJoined(two, ScoresByMode(3, 1, 1), Rows(0, 10) + Rows(1, 6), Rows(3, 6));
      EvenLevels(0, 1); EvenLevels(1, 1); EvenLevels(3, 1);
      LevelsBehind(ScoresByMode(0, 1, 1), ScoresByMode(1, 1, 1), 1, []);
      assert Behind(|ScoresByMode(0, 1, 1)|, []) == [];
      LevelsBehind(two, ScoresByMode(3, 1, 1), 1, []);
      assert Behind(|two|, []) == [];
    }
  }

  lemma FreshOneHard(c: Feature, v: Feature) returns (highs: seq<nat>)
    requires Hard(c) != Hard(v)
    ensures highs == Behind(9, HighInMode0(c, v)) && HaveRows(NewRecords(c, v), InOrder(c, v)) && Levels(NewRecords(c, v), 0, highs)
    ensures |highs| == |PublicFirst(c, v)| && forall k :: 0 <= k < |highs| ==> InOrder(c, v)[highs[k]] == PublicFirst(c, v)[k]
  {
    highs := Behind(9, HighInMode0(c, v));
    OneHardRecords(c, v);
    OneHardPublic(c, v);
  }

  lemma OneHardBlocks(zero: seq<Score>, highs: seq<nat>)
    requires HaveRows(zero, Rows(0, 10)) && Levels(zero, 0, highs)
    ensures var one, two := ScoresByMode(1, 0, 0), ScoresByMode(2, 0, 0);
            && HaveRows(one + two + zero, Rows(1, 6) + Rows(2, 3) + Rows(0, 10)) && Levels(one + two + zero, 0, Behind(9, highs))
            && HaveRows(two + one + zero, Rows(2, 3) + Rows(1, 6) + Rows(0, 10)) && Levels(two + one + zero, 0, Behind(9, highs))
  {
    var one, two := ScoresByMode(1, 0, 0), ScoresByMode(2, 0, 0);
    BlockRows(1, 0, 0, 6); BlockRows(2, 0, 0, 3);
    EvenLevels(1, 0); EvenLevels(2, 0);
    ThreeBlocks(one, two, zero, Rows(1, 6), Rows(2, 3), Rows(0, 10), highs);
    ThreeBlocks(two, one, zero, Rows(2, 3), Rows(1, 6), Rows(0, 10), highs);
  }

  lemma OneHardRecords(c: Feature, v: Feature)
    requires Hard(c) != Hard(v)
    ensures HaveRows(NewRecords(c, v), InOrder(c, v)) && Levels(NewRecords(c, v), 0, Behind(9, HighInMode0(c, v)))
  {
    Mode0Block(c, v);
    OneHardBlocks(Mode0Scores(c, v), HighInMode0(c, v));
    OneHardClass(c, v);
  }

  lemma OneHardClass(c: Feature, v: Feature)
    requires Hard(c) != Hard(v)
    ensures var zero, one, two := Mode0Scores(c, v), ScoresByMode(1, 0, 0), ScoresByMode(2, 0, 0);
            NewRecords(c, v) == if Regular(c) || Regular(v) then one + two + zero else two + one + zero
  {
  }

  lemma Mode0Block(c: Feature, v: Feature)
    ensures HaveRows(Mode0Scores(c, v), Rows(0, 10)) && Levels(Mode0Scores(c, v), 0, HighInMode0(c, v))
  {
    BlockRows(0, 0, 0, 10); BlockRows(0, 0, 1, 10); BlockRows(0, 1, 0, 10);
    Mode0Levels(c, v);
  }

  lemma OneHardPublic(c: Feature, v: Feature)
    requires Hard(c) != Hard(v)
    ensures var highs := Behind(9, HighInMode0(c, v));
            |highs| == |PublicFirst(c, v)| && forall k :: 0 <= k < |highs| ==> InOrder(c, v)[highs[k]] == PublicFirst(c, v)[k]
  {
    var highs, hs := Behind(9, HighInMode0(c, v)), HighInMode0(c, v);
    forall k | 0 <= k < |highs| ensures InOrder(c, v)[highs[k]] == PublicFirst(c, v)[k] {
      assert hs[k] < 10 && InOrder(c, v)[9 + hs[k]] == (0, hs[k]);
    }
  }

  lemma ThreeBlocks(
    p: seq<Score>, q: seq<Score>, z: seq<Score>, a: seq<(int, int)>, b: seq<(int, int)>, d: seq<(int, int)>, highs: seq<nat>)
    requires HaveRows(p, a) && HaveRows(q, b) && HaveRows(z, d) && Levels(p, 0, []) && Levels(q, 0, []) && Levels(z, 0, highs)
    ensures HaveRows(p + q + z, a + b + d) && Levels(p + q + z, 0, Behind(|p| + |q|, highs))
  {
    HaveRowsJoined(p, q, a, b);
    HaveRowsJoined(p + q, z, a + b, d);
    LevelsBehind(p, q, 0, []);
    assert Behind(|p|, []) == [];
    LevelsBehind(p + q, z, 0, highs);
  }

  function Again(e: Event, n: nat): (r: seq<Event>)
    ensures |r| == n && forall i :: 0 <= i < n ==> r[i] == e
  {
    seq(n, _ => e)
  }

  lemma {:induction false} RunAgain(s: State, key: string, c: Feature, v: Feature, n: nat)
    requires RecordsFor(s, key, c, v) != []
    ensures RecordsFor(Run(s, Again(Recommend(key, c, v), n)), key, c, v) == After(RecordsFor(s, key, c, v), n)
    decreases n
  {
    var e := Recommend(key, c, v);
    if n > 0 {
      assert Again(e, n)[1..] == Again(e, n - 1);
      RunAgain(Apply(s, e), key, c, v, n - 1);
    }
  }

  /** Without a success report in between, the n-th recommendation to a new pair is the n-th of
      `PublicFirst` followed by `InOrder`. */
  lemma FreshOrder(key: string, c: Feature, v: Feature, n: nat)
    requires n < |PublicFirst(c, v)| + |InOrder(c, v)|
    ensures Choice(Run(map[], Again(Recommend(key, c, v), n)), key, c, v) == (PublicFirst(c, v) + InOrder(c, v))[n]
  {
    var low, highs := FreshRecords(c, v);
    RowsInOrder(NewRecords(c, v), InOrder(c, v), PublicFirst(c, v), low, highs, n);
    RunAgain(map[], key, c, v, n);
  }

  lemma RowsInOrder(q: seq<Score>, rows: seq<(int, int)>, first: seq<(int, int)>, low: int, highs: seq<nat>, n: nat)
    requires q != [] && HaveRows(q, rows) && Levels(q, low, highs) && n < |first| + |rows|
    requires |highs| == |first| && forall k :: 0 <= k < |highs| ==> rows[highs[k]] == first[k]
    ensures Chosen(After(q, n)) == (first + rows)[n]
  {
    LevelsOrder(q, low, highs, n);
    AfterKeepsRows(q, n, FirstMax(After(q, n)));
  }

  // ---------- the analysis key ----------

  function NatText(t: NatType): string {
    match t
    case EasyNAT => "EasyNAT"
    case HardNAT => "HardNAT"
  }

  function ChangeText(b: Change): string {
    match b
    case NoChange => "BehaviorNoChange"
    case IPChanged => "BehaviorIPChanged"
    case PortChanged => "BehaviorPortChanged"
    case BothChanged => "BehaviorBothChanged"
  }

  function FeatureText(f: Feature): string {
    NatText(f.natType) + ChangeText(f.behavior) + (if f.regularPortsChange then "true" else "false")
  }

  /** What `genAnalysisKey` hashes, without any separator; a side without addresses has "". */
  function KeyText(vIP: string, v: Feature, cIP: string, c: Feature): string {
    vIP + (FeatureText(v) + (cIP + FeatureText(c)))
  }

  /** Textual IP addresses have no capital N. */
  predicate IsIP(ip: string) {
    'N' !in ip
  }

  predicate SameKind(f: Feature, g: Feature) {
    f.natType == g.natType && f.behavior == g.behavior && f.regularPortsChange == g.regularPortsChange
  }

  /** The letters that tell. */
  lemma TellingLetters(f: Feature)
    ensures var s, n := FeatureText(f), 7 + |ChangeText(f.behavior)|;
            && |s| > n >= 16
            && s[0] == (if f.natType == EasyNAT then 'E' else 'H')
            && s[15] == (match f.behavior case NoChange => 'N' case IPChanged => 'I' case PortChanged => 'P' case BothChanged => 'B')
            && s[n] == (if f.regularPortsChange then 't' else 'f')
  {
    assert FeatureText(f)[15] == ChangeText(f.behavior)[8];
  }

  lemma SameSplit(a: string, x: string, b: string, y: string)
    requires a + x == b + y && |a| == |b|
    ensures a == b && x == y
  {
    assert a == (a + x)[..|a|] && b == (b + y)[..|b|];
    assert x == (a + x)[|a|..] && y == (b + y)[|b|..];
  }

  lemma SameStart(a: string, x: string, b: string, y: string, k: nat)
    requires a + x == b + y && k < |a| && k < |b|
    ensures a[k] == b[k]
  {
    assert (a + x)[k] == a[k] && (b + y)[k] == b[k];
  }

  /** The text of a feature ends where it ends, whatever follows. */
  lemma FeatureTextDecides(f: Feature, g: Feature, r: string, t: string)
    requires FeatureText(f) + r == FeatureText(g) + t
    ensures SameKind(f, g) && r == t
  {
    TellingLetters(f);
    TellingLetters(g);
    SameStart(FeatureText(f), r, FeatureText(g), t, 0);
    SameStart(FeatureText(f), r, FeatureText(g), t, 15);
    assert f.natType == g.natType && f.behavior == g.behavior;
    SameStart(FeatureText(f), r, FeatureText(g), t, 7 + |ChangeText(f.behavior)|);
    SameSplit(FeatureText(f), r, FeatureText(g), t);
  }

  lemma FirstN(ip: string, f: Feature, rest: string)
    requires IsIP(ip)
    ensures var s := ip + (FeatureText(f) + rest);
            |s| > |ip| + 4 && s[|ip| + 4] == 'N' && forall k :: 0 <= k < |ip| + 4 ==> s[k] != 'N'
  {
    var s := ip + (FeatureText(f) + rest);
    assert forall k :: 0 <= k < |ip| ==> s[k] in ip;
    assert forall k :: 0 <= k < 5 ==> s[|ip| + k] == NatText(f.natType)[k];
    assert s[|ip| + 4] == NatText(f.natType)[4];
  }

  /** The first capital N tells where the address ends. */
  lemma SameLength(ip: string, f: Feature, r: string, jp: string, g: Feature, t: string)
    requires IsIP(ip) && IsIP(jp) && ip + (FeatureText(f) + r) == jp + (FeatureText(g) + t)
    ensures |ip| == |jp|
  {
    FirstN(ip, f, r);
    FirstN(jp, g, t);
  }

  lemma IPAndFeatureDecided(ip: string, f: Feature, r: string, jp: string, g: Feature, t: string)
    requires IsIP(ip) && IsIP(jp) && ip + (FeatureText(f) + r) == jp + (FeatureText(g) + t)
    ensures ip == jp && SameKind(f, g) && r == t
  {
    SameLength(ip, f, r, jp, g, t);
    SameSplit(ip, FeatureText(f) + r, jp, FeatureText(g) + t);
    FeatureTextDecides(f, g, r, t);
  }

  /** The text tells the addresses and the kinds of both sides, so it tells the class of the pair. */
  lemma KeyTextTells(vIP: string, v: Feature, cIP: string, c: Feature, vIP': string, v': Feature, cIP': string, c': Feature)
    requires IsIP(vIP) && IsIP(cIP) && IsIP(vIP') && IsIP(cIP')
    requires KeyText(vIP, v, cIP, c) == KeyText(vIP', v', cIP', c')
    ensures vIP == vIP' && cIP == cIP' && SameKind(v, v') && SameKind(c, c') && ClassOf(c, v) == ClassOf(c', v')
  {
    IPAndFeatureDecided(vIP, v, cIP + FeatureText(c), vIP', v', cIP' + FeatureText(c'));
    assert FeatureText(c) + "" == FeatureText(c) && FeatureText(c') + "" == FeatureText(c');
    IPAndFeatureDecided(cIP, c, "", cIP', c', "");
  }

  /** The key of this recommendation is the hash of what `genAnalysisKey` writes. */
  ghost predicate HashedKey(hash: string -> string, e: Event)
    requires e.Recommend?
  {
    exists vIP, cIP :: IsIP(vIP) && IsIP(cIP) && e.key == hash(KeyText(vIP, e.v, cIP, e.c))
  }

  ghost predicate Injective(hash: string -> string) {
    forall a, b :: hash(a) == hash(b) ==> a == b
  }

  lemma SameKeySameClass(hash: string -> string, e: Event, f: Event)
    requires Injective(hash) && e.Recommend? && f.Recommend? && HashedKey(hash, e) && HashedKey(hash, f) && e.key == f.key
    ensures ClassOf(e.c, e.v) == ClassOf(f.c, f.v)
  {
    var vIP, cIP :| IsIP(vIP) && IsIP(cIP) && e.key == hash(KeyText(vIP, e.v, cIP, e.c));
    var vIP', cIP' :| IsIP(vIP') && IsIP(cIP') && f.key == hash(KeyText(vIP', f.v, cIP', f.c));
    KeyTextTells(vIP, e.v, cIP, e.c, vIP', f.v, cIP', f.c);
  }

  /** The class that the recommendations under each key have. */
  ghost function ClassesOf(events: seq<Event>): (m: map<string, PairClass>)
    ensures forall e :: e in events && e.Recommend? ==> e.key in m
    ensures forall k :: k in m ==> exists e :: e in events && e.Recommend? && e.key == k && ClassOf(e.c, e.v) == m[k]
  {
    if events == [] then map[]
    else
      var n := |events| - 1;
      var m := ClassesOf(events[..n]);
      if events[n].Recommend? then m[events[n].key := ClassOf(events[n].c, events[n].v)] else m
  }

  /** With keys made as the source makes them, and a hash without collisions, only modes meant for
      the class of a pair are ever recommended to it. */
  lemma KeyedModesFit(hash: string -> string, events: seq<Event>, last: Event)
    requires Injective(hash) && last.Recommend?
    requires forall e :: e in events + [last] && e.Recommend? ==> HashedKey(hash, e)
    ensures Choice(Run(map[], events), last.key, last.c, last.v).0 in ModesFor(ClassOf(last.c, last.v))
  {
    var all := events + [last];
    var classes := ClassesOf(all);
    forall e | e in all && e.Recommend? ensures e.key in classes && ClassOf(e.c, e.v) == classes[e.key] {
      var f :| f in all && f.Recommend? && f.key == e.key && ClassOf(f.c, f.v) == classes[e.key];
      SameKeySameClass(hash, e, f);
    }
    assert last in all;
    assert forall e :: e in events ==> e in all;
    OnlyFittingModes(events, classes, last.key, last.c, last.v);
  }

  // ---------- roles and timing ----------

  /** The two sides' behaviours, swapped where the mode asks for it. */
  function Assign(mode: int, index: int, c: Feature, v: Feature): (Behavior, Behavior)
    requires index >= 0
  {
    var (a, b) := BehaviorsByModeAndIndex(mode, index);
    if (mode == 1 && c.natType == EasyNAT) || (mode == 2 && c.natType == HardNAT) || (mode == 4 && !c.regularPortsChange)
    then (b, a) else (a, b)
  }

  /** For all features and every history the two sides get the two behaviours of one row, and so
      opposite roles. In mode 1 the client sends exactly if its NAT is hard, in mode 2 exactly if it
      is easy, in mode 4 exactly if its port changes are regular; in the other modes it gets the
      row's first. */
  lemma RolesFit(events: seq<Event>, key: string, c: Feature, v: Feature)
    ensures var (mode, index) := Choice(Run(map[], events), key, c, v);
            && 0 <= index < |BehaviorsByMode(mode)|
            && var (row, (cb, vb)) := (BehaviorsByMode(mode)[index], Assign(mode, index, c, v));
               && Opposite(cb, vb) && ((cb, vb) == row || (vb, cb) == row)
               && (mode == 1 ==> (cb.role == Sender <==> c.natType == HardNAT))
               && (mode == 2 ==> (cb.role == Sender <==> c.natType == EasyNAT))
               && (mode == 4 ==> (cb.role == Sender <==> c.regularPortsChange))
               && (mode == 0 || mode == 3 ==> (cb, vb) == row)
  {
    AlwaysInTable(events, key, c, v);
    var (mode, index) := Choice(Run(map[], events), key, c, v);
    TablesPairRoles(mode, index);
  }

  /** So a single hard NAT sends in mode 1 and receives in mode 2, and a single side with regular port
      changes sends in mode 4, whichever side it is. */
  lemma SingleSideFits(events: seq<Event>, key: string, c: Feature, v: Feature)
    ensures var (mode, index) := Choice(Run(map[], events), key, c, v);
            && index >= 0
            && var (cb, vb) := Assign(mode, index, c, v);
               && (c.natType != v.natType && mode == 1 ==> (if c.natType == HardNAT then cb else vb).role == Sender)
               && (c.natType != v.natType && mode == 2 ==> (if c.natType == HardNAT then cb else vb).role == Receiver)
               && (c.regularPortsChange != v.regularPortsChange && mode == 4 ==>
                     (if c.regularPortsChange then cb else vb).role == Sender)
  {
    RolesFit(events, key, c, v);
  }

  function Max(a: int, b: int): int { if a > b then a else b }

  function Min(a: int, b: int): int { if a < b then a else b }

  function TimeoutMs(cb: Behavior, vb: Behavior): int {
    Max(cb.sendDelayMs, vb.sendDelayMs) + 5000
    + (if cb.listenRandomPorts > 0 || vb.listenRandomPorts > 0 then 30000 else 0)
  }

  function ReadTimeoutMs(own: Behavior, cb: Behavior, vb: Behavior): int {
    TimeoutMs(cb, vb) - own.sendDelayMs
  }

  /** Whatever behaviours a history hands out, both sides give up at the same moment after the
      responses: five seconds after the later of them begins to send, and thirty more if one side
      listens on random ports. */
  lemma SidesGiveUpTogether(events: seq<Event>, key: string, c: Feature, v: Feature)
    ensures var (mode, index) := Choice(Run(map[], events), key, c, v);
            && index >= 0
            && var (cb, vb) := Assign(mode, index, c, v);
               var later := if cb.sendDelayMs > vb.sendDelayMs then cb.sendDelayMs else vb.sendDelayMs;
               var end := later + (if cb.listenRandomPorts > 0 || vb.listenRandomPorts > 0 then 35000 else 5000);
               && cb.sendDelayMs >= 0 && vb.sendDelayMs >= 0
               && cb.sendDelayMs + ReadTimeoutMs(cb, cb, vb) == end && vb.sendDelayMs + ReadTimeoutMs(vb, cb, vb) == end
  {
    AlwaysInTable(events, key, c, v);
    var (mode, index) := Choice(Run(map[], events), key, c, v);
    DelaysNotNegative(mode, index);
  }

  lemma DelaysNotNegative(mode: int, index: int)
    requires 0 <= index < |BehaviorsByMode(mode)|
    ensures var (a, b) := BehaviorsByMode(mode)[index]; a.sendDelayMs >= 0 && b.sendDelayMs >= 0
  {
  }

  /** The range of ports around the last mapped one; none if the behaviour asks for none. */
  function RangePorts(port: int, difference: int, maxNumber: int): (r: Option<(int, int)>)
    ensures r.Some? <==> maxNumber > 0
    ensures r.Some? && 1 <= port <= 65535 && difference >= 0 ==>
              var (from, to) := r.value;
              && 1 <= from <= port <= to <= 65535
              && to - from <= 2 * Min(difference + 5, maxNumber)
  {
    if maxNumber <= 0 then None
    else Some((Max(Max(port - difference - 5, port - maxNumber), 1),
               Min(Min(port + difference + 5, port + maxNumber), 65535)))
  }

  /** The range has exactly the valid ports that are no further from the mapped one than the spread
      and five, and no further than the number asked for. */
  lemma RangeIsNeighbourhood(port: int, difference: int, maxNumber: int, x: int)
    requires 1 <= port <= 65535 && maxNumber > 0
    ensures var (from, to) := RangePorts(port, difference, maxNumber).value;
            from <= x <= to <==>
            1 <= x <= 65535 && port - x <= difference + 5 && x - port <= difference + 5 && port - x <= maxNumber && x - port <= maxNumber
  {
  }

  // ---------- the mutable analyzer ----------

  class MakeHoleRecords {
    var scores: seq<Score>

    constructor (scores: seq<Score>)
      ensures this.scores == scores
    {
      this.scores := scores;
    }

    method ReportSuccess(mode: int, index: int)
      modifies this
      ensures scores == Rewarded(old(scores), mode, index)
    {
      var i := 0;
      while i < |scores|
        invariant 0 <= i <= |scores| && scores == old(scores)
        invariant forall k :: 0 <= k < i ==> scores[k].mode != mode || scores[k].index != index
      {
        var entry := scores[i];
        if entry.mode == mode && entry.index == index {
          RewardedAt(scores, mode, index, i);
          var raised := entry.score + 2;
          scores := scores[i := entry.(score := if raised > MAX_SCORE then MAX_SCORE else raised)];
          return;
        }
        i := i + 1;
      }
      RewardedBehind(scores, mode, index, i, 0);
      assert scores[0..] == scores && scores[0..i] == scores && scores[i..] == [];
    }

    method Recommand() returns (mode: int, index: int)
      modifies this
      ensures scores == Next(old(scores)) && (mode, index) == Chosen(old(scores))
    {
      if |scores| == 0 {
        return 0, 0;
      }
      var m := FirstMax(scores);
      mode, index := scores[m].mode, scores[m].index;
      scores := Lowered(scores, m);
    }
  }

  class Analyzer {
    ghost var Model: State
    var records: map<string, MakeHoleRecords>

    ghost predicate Valid()
      reads this, records.Values
    {
      && records.Keys == Model.Keys
      && (forall k :: k in records ==> records[k].scores == Model[k])
      && (forall j, k :: j in records && k in records && j != k ==> records[j] != records[k])
    }

    constructor ()
      ensures Valid() && StateOk(Model) && Model == map[]
    {
      records := map[];
      Model := map[];
    }

    /** The records of a pair, made on first use. */
    method Lookup(key: string, c: Feature, v: Feature) returns (r: MakeHoleRecords)
      requires Valid()
      modifies this
      ensures Valid() && Model == old(Model)[key := RecordsFor(old(Model), key, c, v)]
      ensures key in records && records[key] == r
      ensures forall k :: k in records ==> (k in old(records) && records[k] == old(records[k])) || fresh(records[k])
    {
      if key !in records {
        r := new MakeHoleRecords(NewRecords(c, v));
        records := records[key := r];
        Model := Model[key := r.scores];
      } else {
        r := records[key];
      }
    }

    method Consult(key: string, c: Feature, v: Feature) returns (mode: int, index: int)
      requires Valid()
      modifies this, records.Values
      ensures Valid() && Model == Apply(old(Model), Recommend(key, c, v))
      ensures (mode, index) == Choice(old(Model), key, c, v)
    {
      var r := Lookup(key, c, v);
      mode, index := Draw(key, r);
    }

    method Draw(key: string, r: MakeHoleRecords) returns (mode: int, index: int)
      requires Valid() && key in records && records[key] == r
      modifies this`Model, r
      ensures Valid() && Model == old(Model)[key := Next(old(Model)[key])]
      ensures (mode, index) == Chosen(old(Model)[key])
    {
      mode, index := r.Recommand();
      Model := Model[key := r.scores];
    }

    method GetRecommandBehaviors(key: string, c: Feature, v: Feature)
      returns (mode: int, index: int, cBehavior: Behavior, vBehavior: Behavior)
      requires Valid() && StateOk(Model)
      modifies this, records.Values
      ensures Valid() && StateOk(Model) && Model == Apply(old(Model), Recommend(key, c, v))
      ensures (mode, index) == Choice(old(Model), key, c, v) && index >= 0
      ensures (cBehavior, vBehavior) == Assign(mode, index, c, v)
    {
      NewRecordsOk(c, v);
      StepKeepsStateOk(Model, Recommend(key, c, v));
      mode, index := Consult(key, c, v);
      var (a, b) := BehaviorsByModeAndIndex(mode, index);
      cBehavior, vBehavior := a, b;
      if mode == 1 {
        if c.natType == EasyNAT {
          cBehavior, vBehavior := vBehavior, cBehavior;
        }
      } else if mode == 2 {
        if c.natType == HardNAT {
          cBehavior, vBehavior := vBehavior, cBehavior;
        }
      } else if mode == 4 {
        if !c.regularPortsChange {
          cBehavior, vBehavior := vBehavior, cBehavior;
        }
      }
    }

    method ReportSuccess(key: string, mode: int, index: int)
      requires Valid() && StateOk(Model)
      modifies this, records.Values
      ensures Valid() && StateOk(Model) && Model == Apply(old(Model), Report(key, mode, index))
    {
      StepKeepsStateOk(Model, Report(key, mode, index));
      if key !in records {
        return;
      }
      records[key].ReportSuccess(mode, index);
      Model := Model[key := records[key].scores];
    }
  }
}
