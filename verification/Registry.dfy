/** The server's client registry (server/registry/registry.go): which client keys are
    online, and an index from run ID to client key.

    The first half is the specification on values; `ClientRegistry` at the end is the
    mutable object, proved to follow it.
 */
module Registry {

  datatype Info = Info(rawClientID: string, runID: string, online: bool)

  datatype State = State(clients: map<string, Info>, runIndex: map<string, string>)

  const EMPTY := State(map[], map[])

  function ComposeClientKey(user: string, id: string): string {
    if user == "" then id
    else if id == "" then user
    else user + "." + id
  }

  function KeyOf(user: string, rawClientID: string, runID: string): string {
    ComposeClientKey(user, if rawClientID == "" then runID else rawClientID)
  }

  /** A different run of an explicitly named client is online. */
  predicate Conflicts(s: State, user: string, rawClientID: string, runID: string) {
    var key := KeyOf(user, rawClientID, runID);
    && rawClientID != ""
    && key in s.clients && s.clients[key].online
    && s.clients[key].runID != "" && s.clients[key].runID != runID
  }

  /** The state after `Register` on a non-empty run ID. */
  function Registered(s: State, user: string, rawClientID: string, runID: string): State {
    if Conflicts(s, user, rawClientID, runID) then s
    else Entered(s, KeyOf(user, rawClientID, runID), rawClientID, runID)
  }

  function Entered(s: State, key: string, rawClientID: string, runID: string): State {
    var index := if key in s.clients && s.clients[key].runID != ""
                 then s.runIndex - {s.clients[key].runID} else s.runIndex;
    State(s.clients[key := Info(rawClientID, runID, true)], index[runID := key])
  }

  function MarkedOffline(s: State, runID: string): State {
    if runID !in s.runIndex then s
    else
      var key := s.runIndex[runID];
      var clients :=
        if key !in s.clients || s.clients[key].runID != runID then s.clients
        else if s.clients[key].rawClientID == "" then s.clients - {key}
        else s.clients[key := s.clients[key].(runID := "", online := false)];
      State(clients, s.runIndex - {runID})
  }

  // ---------- whose registration is whose ----------

  lemma SplitAgrees(a: string, x: string, b: string, y: string)
    requires a + x == b + y && |a| <= |b|
    ensures b == a + b[|a|..] && x == b[|a|..] + y
  {
    assert b == (a + x)[..|b|];
    assert b[..|a|] == a;
    assert x == (a + x)[|a|..] && (b + y)[|a|..] == b[|a|..] + y;
  }

  /** The names of two clients that share a key: one user continues the other by a dot and some
      text, with which the other's client ID begins. */
  ghost predicate Runs(u: string, i: string, v: string, j: string) {
    exists x :: v == u + "." + x && i == x + "." + j
  }

  lemma LongerUser(u: string, i: string, v: string, j: string)
    requires u + "." + i == v + "." + j && |u| <= |v|
    ensures (u == v && i == j) || Runs(u, i, v, j)
  {
    assert u + ("." + i) == v + ("." + j) by {
      assert u + "." + i == u + ("." + i) && v + "." + j == v + ("." + j);
    }
    SplitAgrees(u, "." + i, v, "." + j);
    var rest := v[|u|..];
    assert "." + i == rest + ("." + j);
    if rest == [] {
      assert ("." + i)[1..] == i && ("." + j)[1..] == j;
    } else {
      assert rest[0] == ("." + i)[0] == '.';
      var x := rest[1..];
      assert rest == "." + x;
      assert i == ("." + i)[1..] && (rest + ("." + j))[1..] == x + ("." + j);
      assert x + ("." + j) == x + "." + j;
      assert v == u + "." + x;
    }
  }

  lemma RunsShare(u: string, i: string, v: string, j: string)
    requires Runs(u, i, v, j)
    ensures u + "." + i == v + "." + j
  {
    var x :| v == u + "." + x && i == x + "." + j;
    assert u + "." + (x + "." + j) == u + "." + x + "." + j;
  }

  /** Two named clients of named users have one key exactly if they are the same, or if one user's
      name runs on into the other's client ID. */
  lemma SharedKeyIff(u: string, i: string, v: string, j: string)
    requires u != "" && i != "" && v != "" && j != ""
    ensures ComposeClientKey(u, i) == ComposeClientKey(v, j) <==> (u == v && i == j) || Runs(u, i, v, j) || Runs(v, j, u, i)
  {
    if u + "." + i == v + "." + j {
      if |u| <= |v| {
        LongerUser(u, i, v, j);
      } else {
        LongerUser(v, j, u, i);
      }
    }
    if Runs(u, i, v, j) {
      RunsShare(u, i, v, j);
    }
    if Runs(v, j, u, i) {
      RunsShare(v, j, u, i);
    }
  }

  /** A client without a user has its ID for a key, also where that looks like a user's client. */
  lemma SharedKeyWithoutUser(i: string, v: string, j: string)
    requires i != "" && j != ""
    ensures ComposeClientKey("", i) == ComposeClientKey(v, j) <==> i == (if v == "" then j else v + "." + j)
  {
  }

  /** Users without a dot in their names never share a key. */
  lemma PlainUsersShareIff(u: string, i: string, v: string, j: string)
    requires u != "" && i != "" && v != "" && j != "" && '.' !in u && '.' !in v
    ensures ComposeClientKey(u, i) == ComposeClientKey(v, j) <==> u == v && i == j
  {
    SharedKeyIff(u, i, v, j);
    NoDotNoRuns(u, i, v, j);
    NoDotNoRuns(v, j, u, i);
  }

  lemma NoDotNoRuns(u: string, i: string, v: string, j: string)
    ensures '.' !in v ==> !Runs(u, i, v, j)
  {
    if Runs(u, i, v, j) {
      var x :| v == u + "." + x && i == x + "." + j;
      assert v[|u|] == '.';
    }
  }

  /** So, for such users, a named client is refused by the registration before it exactly if that was
      of the same user's same client under another run. */
  lemma SecondConflictsIff(s: State, u: string, i: string, r: string, v: string, j: string, t: string)
    requires u != "" && i != "" && v != "" && j != "" && '.' !in u && '.' !in v && r != "" && t != ""
    requires !Conflicts(s, u, i, r) && !Conflicts(s, v, j, t)
    ensures Conflicts(Registered(s, u, i, r), v, j, t) <==> u == v && i == j && r != t
  {
    PlainUsersShareIff(u, i, v, j);
  }

  /** In general the two keys decide. */
  lemma SecondConflictsByKey(s: State, u: string, i: string, r: string, v: string, j: string, t: string)
    requires i != "" && j != "" && r != "" && t != "" && !Conflicts(s, u, i, r) && !Conflicts(s, v, j, t)
    ensures Conflicts(Registered(s, u, i, r), v, j, t) <==> ComposeClientKey(u, i) == ComposeClientKey(v, j) && r != t
  {
  }

  /** User "a.b" with client "c" is refused because user "a" with client "b.c" is online. */
  lemma OtherUserRefused()
    ensures !Conflicts(EMPTY, "a", "b.c", "r1") && Conflicts(Registered(EMPTY, "a", "b.c", "r1"), "a.b", "c", "r2")
  {
    assert "a" + "." + "b.c" == "a.b" + "." + "c";
  }

  /** What a registration leaves: its client online under its run, whatever was there, and every
      other client as it was. A client without an ID of its own is known by its run. */
  lemma RegisteredMeans(s: State, user: string, id: string, r: string)
    requires r != "" && !Conflicts(s, user, id, r)
    ensures var t := Registered(s, user, id, r);
            var k := if user == "" then (if id == "" then r else id) else user + "." + (if id == "" then r else id);
            && k in t.clients && t.clients[k] == Info(id, r, true) && t.runIndex[r] == k
            && (forall x :: x != k ==> (x in t.clients <==> x in s.clients) && (x in s.clients ==> t.clients[x] == s.clients[x]))
            && (forall x :: x != r ==> (x in t.runIndex <==> x in s.runIndex && !(k in s.clients && s.clients[k].runID == x && x != "")))
  {
  }

  /** What marking a run offline leaves: a client with an ID of its own stays, offline and without a
      run; one known only by its run is gone; every other client is as it was. */
  lemma MarkedOfflineMeans(s: State, r: string)
    requires IndexAgrees(s) && r in s.runIndex
    ensures var t, k := MarkedOffline(s, r), s.runIndex[r];
            && r !in t.runIndex
            && (s.clients[k].rawClientID != "" ==> k in t.clients && t.clients[k] == Info(s.clients[k].rawClientID, "", false))
            && (s.clients[k].rawClientID == "" ==> k !in t.clients)
            && (forall x :: x != k ==> (x in t.clients <==> x in s.clients) && (x in s.clients ==> t.clients[x] == s.clients[x]))
            && (forall x :: x != r ==> (x in t.runIndex <==> x in s.runIndex) && (x in s.runIndex ==> t.runIndex[x] == s.runIndex[x]))
  {
  }

  // ---------- the index ----------

  /** Every indexed run ID leads to an online client that carries that very run ID. */
  ghost predicate IndexAgrees(s: State) {
    && (forall r :: r in s.runIndex ==>
          && r != ""
          && s.runIndex[r] in s.clients
          && s.clients[s.runIndex[r]].online
          && s.clients[s.runIndex[r]].runID == r)
    && (forall k :: k in s.clients && !s.clients[k].online ==> s.clients[k].runID == "")
    && (forall k :: k in s.clients && s.clients[k].online ==> s.clients[k].runID != "")
  }

  /** Also the other way round: every online client is the indexed one for its run ID. */
  ghost predicate OnlineIndexed(s: State) {
    forall k :: k in s.clients && s.clients[k].online ==>
                  s.clients[k].runID in s.runIndex && s.runIndex[s.clients[k].runID] == k
  }

  datatype Event =
    | Register(user: string, rawClientID: string, runID: string)
    | MarkOffline(runID: string)

  function Apply(s: State, e: Event): State {
    match e
    case Register(user, rawClientID, runID) =>
      if runID == "" then s else Registered(s, user, rawClientID, runID)
    case MarkOffline(runID) => MarkedOffline(s, runID)
  }

  function Run(s: State, events: seq<Event>): State
    decreases |events|
  {
    if events == [] then s else Run(Apply(s, events[0]), events[1..])
  }

  /** After any history the index agrees with the clients. */
  lemma {:induction false} RunKeepsIndexAgreement(s: State, events: seq<Event>)
    requires IndexAgrees(s)
    ensures IndexAgrees(Run(s, events))
    decreases |events|
  {
    if events != [] {
      RunKeepsIndexAgreement(Apply(s, events[0]), events[1..]);
    }
  }

  /** After any history from the empty registry, two indexed runs never share a client
      key, and marking one run offline leaves every other indexed run online. */
  lemma IndexedRunsAreIndependent(events: seq<Event>, r1: string, r2: string)
    requires r1 != r2
    requires r1 in Run(EMPTY, events).runIndex && r2 in Run(EMPTY, events).runIndex
    ensures var s := Run(EMPTY, events);
            && s.runIndex[r1] != s.runIndex[r2]
            && s.runIndex[r2] in MarkedOffline(s, r1).clients
            && MarkedOffline(s, r1).clients[s.runIndex[r2]] == s.clients[s.runIndex[r2]]
            && r2 in MarkedOffline(s, r1).runIndex
            && !(r1 in MarkedOffline(s, r1).runIndex)
  {
    RunKeepsIndexAgreement(EMPTY, events);
  }

  /** Once a newer run of the same client has superseded `stale`, marking `stale` offline
      changes nothing, after any further history in which `stale` itself does not log in
      again. */
  lemma {:induction false} SupersededRunIsInert(
    s: State, user: string, rawClientID: string, stale: string, runID: string, events: seq<Event>)
    requires IndexAgrees(s) && runID != "" && stale != runID
    requires KeyOf(user, rawClientID, runID) in s.clients
    requires s.clients[KeyOf(user, rawClientID, runID)].runID == stale
    requires !Conflicts(s, user, rawClientID, runID)
    requires forall e :: e in events && e.Register? ==> e.runID != stale
    ensures var t := Run(Registered(s, user, rawClientID, runID), events); MarkedOffline(t, stale) == t
  {
    NotIndexedUntilRegistered(Registered(s, user, rawClientID, runID), events, stale);
  }

  lemma {:induction false} NotIndexedUntilRegistered(s: State, events: seq<Event>, r: string)
    requires r !in s.runIndex
    requires forall e :: e in events && e.Register? ==> e.runID != r
    ensures r !in Run(s, events).runIndex
    decreases |events|
  {
    if events != [] {
      assert events[0] in events;
      NotIndexedUntilRegistered(Apply(s, events[0]), events[1..], r);
    }
  }

  /** When may `Register` be called without leaving a second online entry behind: the run
      ID is not indexed, or is indexed under the key it registers again, or the call is
      refused. */
  ghost predicate SameKey(s: State, user: string, rawClientID: string, runID: string) {
    runID in s.runIndex ==>
      Conflicts(s, user, rawClientID, runID) || s.runIndex[runID] == KeyOf(user, rawClientID, runID)
  }

  /** `Register` keeps "every online client is indexed" exactly under `SameKey`: a run ID
      that comes back with another user or client ID leaves its old client online for
      good, because only the indexed client is ever marked offline. */
  lemma RegisterKeepsOnlineIndexedIff(s: State, user: string, rawClientID: string, runID: string)
    requires IndexAgrees(s) && OnlineIndexed(s) && runID != ""
    ensures OnlineIndexed(Registered(s, user, rawClientID, runID)) <==> SameKey(s, user, rawClientID, runID)
  {
    var key := KeyOf(user, rawClientID, runID);
    var t := Registered(s, user, rawClientID, runID);
    if runID in s.runIndex && !Conflicts(s, user, rawClientID, runID) && s.runIndex[runID] != key {
      var stale := s.runIndex[runID];
      assert t.clients[stale].online && t.clients[stale].runID == runID && t.runIndex[runID] != stale;
    } else if !Conflicts(s, user, rawClientID, runID) {
      forall k | k in t.clients && t.clients[k].online
        ensures t.clients[k].runID in t.runIndex && t.runIndex[t.clients[k].runID] == k
      {
        if k != key {
          assert s.clients[k].online;
          assert s.runIndex[s.clients[k].runID] == k;
        }
      }
    }
  }

  lemma MarkOfflineKeepsOnlineIndexed(s: State, runID: string)
    requires IndexAgrees(s) && OnlineIndexed(s)
    ensures IndexAgrees(MarkedOffline(s, runID)) && OnlineIndexed(MarkedOffline(s, runID))
  {
    var t := MarkedOffline(s, runID);
    forall k | k in t.clients && t.clients[k].online
      ensures t.clients[k].runID in t.runIndex && t.runIndex[t.clients[k].runID] == k
    {
      assert s.clients[k].online && s.runIndex[s.clients[k].runID] == k;
    }
  }

  // ---------- the mutable registry ----------

  class ClientInfo {
    var rawClientID: string
    var runID: string
    var online: bool

    constructor (rawClientID: string)
      ensures this.rawClientID == rawClientID && runID == "" && !online
    {
      this.rawClientID := rawClientID;
      runID := "";
      online := false;
    }

    function Value(): Info
      reads this
    {
      Info(rawClientID, runID, online)
    }
  }

  lemma EnteredInTwo(s: State, t: State, key: string, rawClientID: string, runID: string)
    requires key !in s.clients ==> t == s.(clients := s.clients[key := Info(rawClientID, "", false)])
    requires key in s.clients ==>
               t.clients == s.clients
               && t.runIndex == if s.clients[key].runID != "" then s.runIndex - {s.clients[key].runID} else s.runIndex
    ensures State(t.clients[key := Info(rawClientID, runID, true)], t.runIndex[runID := key])
            == Entered(s, key, rawClientID, runID)
  {
  }

  class ClientRegistry {
    ghost var Model: State  // the abstract value; `Valid` ties the fields to it
    var clients: map<string, ClientInfo>
    var runIndex: map<string, string>

    ghost predicate Valid()
      reads this, clients.Values
    {
      && runIndex == Model.runIndex
      && clients.Keys == Model.clients.Keys
      && (forall k1, k2 :: k1 in clients && k2 in clients && k1 != k2 ==> clients[k1] != clients[k2])
      && (forall k :: k in clients ==> clients[k].Value() == Model.clients[k])
    }

    constructor ()
      ensures Valid() && Model == EMPTY && clients == map[]
    {
      clients := map[];
      runIndex := map[];
      Model := EMPTY;
    }

    method Register(user: string, rawClientID: string, runID: string) returns (key: string, conflict: bool)
      requires Valid()
      modifies this, clients.Values
      ensures Valid()
      ensures forall k :: k in clients ==> (k in old(clients) && clients[k] == old(clients[k])) || fresh(clients[k])
      ensures runID == "" ==> key == "" && !conflict && Model == old(Model)
      ensures runID != "" ==>
                && key == KeyOf(user, rawClientID, runID)
                && conflict == Conflicts(old(Model), user, rawClientID, runID)
                && Model == Registered(old(Model), user, rawClientID, runID)
    {
      if runID == "" {
        return "", false;
      }
      var effectiveID := rawClientID;
      if effectiveID == "" {
        effectiveID := runID;
      }
      key := ComposeClientKey(user, effectiveID);
      var enforceUnique := rawClientID != "";
      if enforceUnique && key in clients && clients[key].online
         && clients[key].runID != "" && clients[key].runID != runID {
        return key, true;
      }
      EnterAndFill(key, rawClientID, runID);
      return key, false;
    }

    method EnterAndFill(key: string, rawClientID: string, runID: string)
      requires Valid()
      modifies this, clients.Values
      ensures Valid()
      ensures forall k :: k in clients ==> (k in old(clients) && clients[k] == old(clients[k])) || fresh(clients[k])
      ensures Model == Entered(old(Model), key, rawClientID, runID)
    {
      ghost var before := Model;
      var info := Entry(key, rawClientID);
      ghost var between := Model;
      Fill(key, info, rawClientID, runID);
      EnteredInTwo(before, between, key, rawClientID, runID);
    }

    /** The entry under `key`, created on first use; an existing entry's run ID leaves the index. */
    method Entry(key: string, rawClientID: string) returns (info: ClientInfo)
      requires Valid()
      modifies this
      ensures Valid()
      ensures forall k :: k in clients ==> (k in old(clients) && clients[k] == old(clients[k])) || fresh(clients[k])
      ensures key in clients && clients[key] == info
      ensures key !in old(Model).clients ==>
                Model == old(Model).(clients := old(Model).clients[key := Info(rawClientID, "", false)])
      ensures key in old(Model).clients ==>
                Model.clients == old(Model).clients
                && Model.runIndex == if old(Model).clients[key].runID != ""
                                     then old(Model).runIndex - {old(Model).clients[key].runID} else old(Model).runIndex
    {
      if key !in clients {
        info := new ClientInfo(rawClientID);
        clients := clients[key := info];
        Model := Model.(clients := Model.clients[key := info.Value()]);
      } else {
        info := clients[key];
        if info.runID != "" {
          runIndex := runIndex - {info.runID};
          Model := Model.(runIndex := runIndex);
        }
      }
    }

    method Fill(key: string, info: ClientInfo, rawClientID: string, runID: string)
      requires Valid() && key in clients && clients[key] == info
      modifies this`runIndex, this`Model, info
      ensures Valid()
      ensures Model == State(old(Model).clients[key := Info(rawClientID, runID, true)],
                             old(Model).runIndex[runID := key])
    {
      info.rawClientID := rawClientID;
      info.runID := runID;
      info.online := true;
      runIndex := runIndex[runID := key];
      Model := State(Model.clients[key := info.Value()], runIndex);
    }

    method MarkOfflineByRunID(runID: string)
      requires Valid()
      modifies this, clients.Values
      ensures Valid()
      ensures forall k :: k in clients ==> k in old(clients) && clients[k] == old(clients[k])
      ensures Model == MarkedOffline(old(Model), runID)
    {
      if runID !in runIndex {
        return;
      }
      var key := runIndex[runID];
      if key in clients && clients[key].runID == runID {
        if clients[key].rawClientID == "" {
          clients := clients - {key};
        } else {
          clients[key].runID := "";
          clients[key].online := false;
        }
      }
      runIndex := runIndex - {runID};
      Model := MarkedOffline(Model, runID);
    }
  }
}
