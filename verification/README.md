# frp: sessions, resources, routing and configuration

frp exposes local services through a public server. A client (frpc) keeps a control
connection to the server (frps) and registers proxies on it; the server binds ports, groups
and virtual-host routes for them. This project models the stateful cores of both sides in
Dafny and proves what they promise over all inputs, all histories and all interleavings.
Check it with `dafny verify dfyconfig.toml`.

| file | about |
|---|---|
| `Session.dfy`, `Controls.dfy` | logins, replacement of a control by a newer one with the same run ID, proxy names, quotas |
| `Registry.dfy` | the table of clients and the index by run ID |
| `Ports.dfy` | the port allocator with its reservations |
| `Groups.dfy`, `GroupObjects.dfy` | TCP load-balancing groups, shared listeners, ungrouped TCP proxies |
| `System.dfy` | sessions and resources together |
| `HttpGroup.dfy` | HTTP groups: shared route, round robin |
| `Vhost.dfy` | the routing index by host, path and HTTP user |
| `NatHole.dfy` | the chooser of hole-punching behaviours |
| `Store.dfy` | the durable configuration store |
| `Reload.dfy`, `Managers.dfy`, `Visitors.dfy`, `Client.dfy` | merging sources, completing, bringing proxies and visitors in line, reloads against logins |
| `Backoff.dfy` | retry delays |
| `DateCounter.dfy` | the per-day rolling counter |
| `PortRange.dfy` | the grammar of port ranges |
| `Configs.dfy`, `Text.dfy`, `Int64.dfy`, `Sequences.dfy`, `Wrappers.dfy` | shared values: configurations, strings, 64-bit integers and their loops, lists, options |

Concurrent code is a state machine: a step is one critical section, or one effect between two
of them, and a sequence of steps is an interleaving. The results quantify over every sequence
from the initial state. Code that changes objects in place is also there as classes whose
methods are proved against specification functions. For the port allocator, the registry, the
analyzer, the store and the managers these are the functions the machines themselves apply; for
controls, TCP groups and HTTP groups, whose calls are several steps, a lemma shows that the
steps, taken without a disturbance, come to the function the method computes
(`Controls.RegisterIsSteps`, `GroupObjects.ListenIsSteps`, `HttpGroup.RegisterIsThreeSteps` and
their neighbours). Sockets, the port probe, clocks,
random numbers and the order in which Go visits a map are parameters, so they may do anything
unless a contract says otherwise.

## What turned out false, and exactly when it holds

- A run ID can be locked out for ever. A control that is refused because its client ID is
  online is never started, so its done channel never closes; a login that replaced it waits
  for it without end, and so does every later login of that run ID
  (`Session.LockedOutRun`, `Session.RefusedIsAwaitedIff`, `Session.RefusedLocksRunIDOut`). A
  login that waits for a control that is neither waiting, refused nor about to be refused can
  always be admitted, by that control's own steps (`Session.WaiterCanBeAdmitted`).
- A client can stay online in the registry after every control of its run has ended: a replaced
  control marks nobody offline and relies on its successor, which may be refused
  (`Session.GhostClient`). Sessions and registry stay in step exactly while every registration
  is clean (`Session.RegisterInStepIffClean`, `Session.NoGhostClients`).
- The reserved-port path of the allocator does not look at the free ports, so a port in use can
  be granted twice (`Ports.ReservedPathDoubleGrant`). `Ports.GrantsHeldPortIff` says exactly
  when; the group results assume a probe that rejects used ports.
- A refused acquisition can still change the allocator: port 0, if it is picked, is booked and
  reported as a failure (`Ports.ZeroIsBookedAndRefused`). All refusals of a state leave it alone
  exactly if port 0 is not among its free ports (`Ports.RefusalsKeepStateIff`). The group results
  assume that port 0 is not allowed.
- A reload that runs between a login's reading of the stored list and the installation of its
  control is lost on the new control (`Client.OvertakenLogin`), exactly then
  (`Client.StepInStepIffCurrent`); the next reload repairs it. A reload handed to a control whose
  connection has ended starts every proxy there (`Client.PushRepairs`); the next login stops them,
  unless the reload had fetched the control before that login installed its own: then, and only
  then, they are left behind for ever (`Client.LeftBehind`, `Client.StepNoOrphansIff`,
  `Client.OrphansStay`).
- A list in which one name comes with two different configurations makes a manager restart
  that proxy on every update (`Managers.RepeatedListSettlesIff`). Merged lists have no such names.
- The empty list of port ranges and ranges outside the normal form do not survive printing and
  parsing (`PortRange.RoundTripIff`).
- On 64-bit integers `for i := lo; i <= hi; i++` never ends exactly if `hi` is the largest of them
  (`Int64.CountsForEverIff`). So `ParseRangeNumbers` and the making of a port allocator never come
  back from a range such as "1-9223372036854775807" (`PortRange.NeverComesBack`), and from no other
  kind (`PortRange.NumbersAgree`, `PortRange.AllowedAreTheNumbers`).
- Round robin over an HTTP group is not fair across the wrap of its 64-bit counter, unless the
  draws start right at the wrap or the number of members divides the number of counter values
  (`HttpGroup.TurnsAreFairIff`).
- The route of an HTTP group is in the router exactly while it has members only when nobody holds
  its mutex; a Register and an UnRegister each have a moment in between
  (`HttpGroup.MembersAndRoute`). A request that comes in such a moment waits for the mutex and
  then finds members, unless the group is gone (`HttpGroup.RequestFindsMembers`).
- A clock that goes back moves amounts of the day counter to another day
  (`DateCounter.ClockBackMovesAmounts`). A counter is right after every call, whatever the amounts,
  exactly if no call is dated before the call that precedes it (`DateCounter.AlwaysRightIff`).
- Two clients of different users can have one key in the registry, and then refuse each other: the
  key joins user and client ID by a dot, and both may have dots (`Registry.OtherUserRefused`,
  `Registry.SharedKeyIff`).
- The comment above the wildcard loop of `pkg/util/vhost/http.go` (line 231) also lists `*.com`;
  the loop keeps at least two labels after the star, and the model follows the loop. The comments
  of `pkg/nathole/analysis.go` give -10 as a lower bound of scores, where the code has none, a delay
  of two seconds in mode 4, where the code has three, and say that a side on the public network
  always receives, where the code only tries those rows first (`NatHole.FreshOrder`).

## Model

| member | source | states |
|---|---|---|
| `Session.MutualExclusion` | server/service.go:625-649 | in every interleaving at most one control per run ID is started and not done |
| `Session.StartsClean` | server/service.go:625-649 | when a control may start, every earlier control of its run ID is done or was refused, and no proxy of theirs is in the proxy manager |
| `Session.DelSparesCurrent` | server/control.go:73-79 | no step takes the entry of a control that is neither finished nor replaced |
| `Session.StepKeepsChain` | server/control.go:59-79 | every step keeps the chain of replacement: the entry is the newest control, a waiting control waits for its direct predecessor, a replacer waits until the replaced one is done |
| `Session.StepKeepsNames` | server/control.go:449-542 | every step keeps: the proxy manager holds exactly the names the controls own, and each control's count is its proxies' ports plus those in flight |
| `Session.RunKeepsInv` | server/control.go:330-356 | all of this over every run |
| `Session.CloseDeletesOwnEntry` | server/control.go:314-328 | a name that a close or a teardown deletes from the proxy manager is the closer's own |
| `Session.QuotaIsExact` | server/control.go:480-498 | with a quota and no message in progress, the used-ports count is the sum over the control's proxies and not above the quota |
| `Session.RefusedIsAwaitedIff` | server/service.go:634-637 | somebody waits for a refused control exactly if it was replaced |
| `Session.RefusedLocksRunIDOut` | server/service.go:625-637 | from then on no later login of that run ID is ever admitted |
| `Session.LockedOutRun` | server/service.go:625-637 | a run that reaches such a state |
| `Session.FinishesAlone` | server/control.go:330-356 | such a control can always get done by its own steps, whatever message it is handling and whatever it has to tear down |
| `Session.WaiterCanBeAdmitted` | server/service.go:625-649 | a login waiting for a control that is not waiting, refused or about to be refused can be admitted by that control's own steps alone |
| `Session.CleanRunKeepsRegistryInStep` | server/control.go:330-356 | runs of clean registrations keep every online client indexed and every indexed run attended by a control |
| `Session.NoGhostClients` | server/control.go:330-356 | in such runs no client is online once all controls of its run have ended |
| `Session.RegisterInStepIffClean` | server/service.go:630-637 | one registration keeps this exactly if it is clean |
| `Session.GhostClient` | server/control.go:212-217 | a run after which a client is online though all controls of its run have ended |
| `Controls.ProxyManager.Add` | server/proxy/proxy.go:366-375 | fails exactly on a taken name, otherwise adds that entry alone |
| `Controls.Control.RegisterProxy` | server/control.go:449-524 | the four outcomes in their order; a failing one gives the quota back and leaves both tables as they were; ownership and quota are kept |
| `Controls.Control.CloseProxy` | server/control.go:526-542 | takes the proxy and its quota out of both tables, nothing else |
| `Controls.Control.CloseAll` | server/control.go:339-350 | afterwards no entry of this control is left in the proxy manager and all other entries are |
| `Controls.ControlManager.Add` | server/control.go:59-70 | installs the newcomer and replaces the control it displaces |
| `Controls.ControlManager.Del` | server/control.go:73-79 | removes the entry only if it is this control |
| `Controls.RegisterIsSteps` | server/control.go:449-524 | the steps of a registration, undisturbed, come to what `RegisterProxy` computes, with its quota, and change nothing else |
| `Controls.CloseIsSteps` | server/control.go:526-542 | the steps of a close, undisturbed, come to what `CloseProxy` computes and change nothing else |
| `Controls.TeardownIsSteps` | server/control.go:339-350 | the teardown steps, in any order of the proxies, take exactly this control's names out of the manager |
| `Registry.RunKeepsIndexAgreement` | server/registry/registry.go:54-122 | over any history every indexed run ID points to an existing online entry that carries it |
| `Registry.IndexedRunsAreIndependent` | server/registry/registry.go:103-122 | no two indexed runs share a key, and marking one offline leaves the other's entry and index alone |
| `Registry.SupersededRunIsInert` | server/registry/registry.go:70-84 | once a newer run took over, marking the old one offline changes nothing, whatever happens in between short of registering it again |
| `Registry.RegisterKeepsOnlineIndexedIff` | server/registry/registry.go:54-100 | a registration keeps every online client indexed exactly if its run ID is not indexed under another key |
| `Registry.MarkOfflineKeepsOnlineIndexed` | server/registry/registry.go:103-122 | marking offline always keeps it |
| `Registry.SharedKeyIff` | server/registry/registry.go:156-165 | two named clients of named users share a key exactly if they are the same or one user's name runs on, by a dot, into the other's client ID |
| `Registry.SecondConflictsIff` | server/registry/registry.go:54-73 | for users without a dot a named client is refused by the registration before it exactly if user and client ID are the same and the runs differ |
| `Registry.OtherUserRefused` | server/registry/registry.go:156-165 | two different clients of different users of which the second is refused |
| `Registry.RegisteredMeans` | server/registry/registry.go:54-100 | an admitted registration leaves its client online under its key and run, and all others as they were |
| `Registry.MarkedOfflineMeans` | server/registry/registry.go:103-122 | a client with an ID of its own stays, offline; one known only by its run is gone; all others are as they were |
| `Registry.ClientRegistry.Register` | server/registry/registry.go:54-100 | the class with shared entries computes the specified state, key and conflict |
| `Registry.ClientRegistry.MarkOfflineByRunID` | server/registry/registry.go:103-122 | likewise |
| `Ports.RunKeepsPartition` | server/ports/ports.go:71-174 | free and used ports partition the allowed set over any history |
| `Ports.GrantsHeldPortIff` | server/ports/ports.go:89-99 | a grant gives out a held port exactly if the probe accepted the reserved port while it is in use |
| `Ports.ReservedOutcome` | server/ports/ports.go:87-99 | with a reservation that the probe accepts it gets that port |
| `Ports.AnyPortOutcome` | server/ports/ports.go:101-119 | a request for any port without a usable reservation gets the first of the first five visited that the probe accepts, and is refused exactly if there is none or it is port 0 |
| `Ports.NamedPortOutcome` | server/ports/ports.go:120-139 | a request for one port gets it exactly if it is free and accepted by the probe; each error exactly on its condition |
| `Ports.GrantMeans` | server/ports/ports.go:71-141 | a grant takes that port alone, for that name, and reserves it for it |
| `Ports.ReleaseMeans` | server/ports/ports.go:165-174 | frees a used port and dates its holder's open reservation of it; otherwise changes nothing |
| `Ports.CleanMeans` | server/ports/ports.go:177-188 | a round takes away exactly the reservations closed for more than a day |
| `Ports.HonestGrantIsExclusive` | server/ports/ports.go:71-141 | with a probe that rejects used ports, a granted port was free |
| `Ports.RefusalsKeepStateIff` | server/ports/ports.go:101-119 | every refusal of a state, for all requests and probes, leaves it alone exactly if port 0 is not among its free ports |
| `Ports.ZeroIsBookedAndRefused` | server/ports/ports.go:105-119 | a call that books port 0 and reports a failure |
| `Ports.ReservedPathDoubleGrant` | server/ports/ports.go:89-99 | a history that grants a used port again |
| `Ports.RunKeepsReservationsHeld` | server/ports/ports.go:71-141 | under the probe assumption an unclosed reservation names the port its holder has |
| `Ports.CleanerSparesHolders` | server/ports/ports.go:177-188 | the cleaner never drops a live holder's reservation |
| `Ports.ReservationKept` | server/ports/ports.go:165-188 | a closed reservation survives other names' calls and early cleanings |
| `Ports.SamePortAgain` | server/ports/ports.go:87-99 | a name that released its port and next asks for port 0 gets it back if the probe accepts it and it was not cleaned |
| `Ports.RangeEndsIff` | server/ports/ports.go:54-61 | the loop over a range ends exactly if the range is a single port or does not end at the largest 64-bit number |
| `Ports.AllowedMeans` | server/ports/ports.go:52-66 | without a list the ports from 1 to 65535, with one the single ports and the ranges on it |
| `Ports.Manager.constructor` | server/ports/ports.go:44-69 | for ranges whose loops end, a new manager has exactly the allowed ports free |
| `Ports.Manager.Acquire` | server/ports/ports.go:71-141 | the class, whose two maps share contexts, computes the specified state and outcome |
| `Ports.Manager.Release` | server/ports/ports.go:165-174 | likewise; closing the shared context closes the reservation exactly when both maps have it |
| `Ports.Manager.CleanReserved` | server/ports/ports.go:177-188 | one round of the cleaner removes exactly the expired reservations |
| `Groups.RunKeepsInv` | server/group/tcp.go:40-123 | the invariant of registry, groups, proxies and ports over every interleaving of Listen, Close and ungrouped proxies |
| `Groups.GroupWithMembers` | server/group/tcp.go:75-123 | a group with members is the registered one of its name, has one open real listener and owns its port |
| `Groups.MembersAgree` | server/group/tcp.go:103-121 | in every run all members of a group asked for the same group, key, address and port |
| `Groups.JoinsIffSame` | server/group/tcp.go:103-121 | in every run a proxy joins a current group with members exactly if it asks for the same group, key, address and port as a member |
| `Groups.RunKeepsKinds` | server/proxy/tcp.go:49-77 | in every run a proxy takes a port of its own exactly if it names no group |
| `Groups.ClosedOncePerCycle` | server/group/base.go:63-77 | accept channel and real listener are closed exactly once per listen cycle |
| `Groups.LeaveFindsListener` | server/group/listener.go:43-49 | a close always finds its listener in the group |
| `Groups.RemovedForGood` | server/group/registry.go:49-59 | a removed group never changes again and never gains a member |
| `Groups.StaleOnlyAfterRemoval` | server/group/tcp.go:40-53 | a stale retry only follows another proxy's close that removed the group in between |
| `Groups.PortsAccountedFor` | server/proxy/tcp.go:49-96 | the used ports are those of serving ungrouped proxies plus one per non-empty group |
| `Groups.PortsExclusive` | server/group/tcp.go:81-102 | no two holders have one port: not two ungrouped proxies, not two groups, not one of each |
| `Groups.ClosingAllRestoresPorts` | server/group/base.go:63-77 | once every proxy life has ended, all allowed ports are free |
| `System.AllSettledAllFree` | server/control.go:498-524 | in every run of sessions and resources together, once every control has finished or was refused, all allowed ports are free, whatever registrations failed half-way |
| `System.RegisteredNamesServe` | server/control.go:498-524 | a registered name that its control is not closing belongs to a proxy that serves |
| `System.RunKeepsInv` | server/control.go:314-356 | the invariant behind both over every run |
| `GroupObjects.FailureGivesBack` | server/group/tcp.go:81-92 | an attempt that fails leaves free and used ports as they were; one that works takes one free port |
| `GroupObjects.FirstListens` | server/group/tcp.go:77-102 | the first listener is in exactly if the allocator grants a port and listening works; then it is alone in a group that serves on that port and was opened as it asked |
| `GroupObjects.AdmissionSays` | server/group/tcp.go:103-121 | in every run each of the answers to a further listener exactly on its condition, in terms of what a member asked for |
| `GroupObjects.ListenIsSteps` | server/group/tcp.go:75-123 | the steps of a Listen, undisturbed, come to what `TCPGroup.Listen` computes; only that proxy and its group move |
| `GroupObjects.CloseIsSteps` | server/group/base.go:63-77 | the steps of a member's close, undisturbed, come to what `CloseListener` computes |
| `GroupObjects.RunIsSteps` | server/proxy/tcp.go:49-89 | the steps of an ungrouped proxy's start come to what `Run` computes |
| `GroupObjects.GroupCtl.GetOrCreate` | server/group/registry.go:20-29 | the registered group, or a new empty one registered under that name |
| `GroupObjects.GroupCtl.RemoveIf` | server/group/registry.go:49-59 | removes the name exactly if it still is that group |
| `GroupObjects.GroupCtl.Listen` | server/group/tcp.go:40-53 | undisturbed, the group found is never stale, the new listener is its last member, and ports change as for that group; no other group is touched |
| `GroupObjects.TCPGroup.Listen` | server/group/tcp.go:75-123 | stale exactly if not current; the first member takes a port and opens a listener or leaves no trace; a later one joins exactly with equal parameters |
| `GroupObjects.TCPGroup.CloseListener` | server/group/base.go:63-77 | takes the listener out; the last one closes channel and listener, releases the port and unregisters the group |
| `GroupObjects.Listener.Close` | server/group/listener.go:43-49 | only the first call has an effect, that of `CloseListener` |
| `GroupObjects.TCPProxy.Run` | server/proxy/tcp.go:49-89 | an ungrouped proxy takes a port, or gives it back if listening fails |
| `GroupObjects.TCPProxy.Close` | server/proxy/tcp.go:91-96 | releases the bound port |
| `HttpGroup.MembersAndRoute` | server/group/http.go:73-135 | in every interleaving of the critical sections names and callbacks agree without duplicates; with the mutex free the route is in the router exactly while there are members; with it held there are none, and the route is there exactly between adding and filling and between the last leave and the deletion; no two groups with members share a name or a route |
| `HttpGroup.RequestFindsMembers` | server/group/http.go:137-158 | a request that finds a group by its route finds members once it gets the mutex, unless the group is no longer registered |
| `HttpGroup.MembersAreTheJoined` | server/group/http.go:73-135 | the members of the groups of a name are exactly the proxies that registered successfully and have not unregistered |
| `HttpGroup.MembersAskedAlike` | server/group/http.go:100-109 | in every run the members of a group asked for one key and one route |
| `HttpGroup.RegisterAnswers` | server/group/http.go:100-112 | in every run each of the answers to a further member exactly on its condition, in terms of what a member asked for |
| `HttpGroup.FirstRegisterAnswers` | server/group/http.go:82-99 | the first member is in exactly if the group is current and the route is free |
| `HttpGroup.RunKeepsInv` | server/group/http.go:26-48 | the invariant behind it over every run |
| `HttpGroup.LeaveFindsGroup` | server/group/http.go:42-48 | UnRegister always finds the group its proxy joined |
| `HttpGroup.RemovedForGood` | server/group/http.go:79-81 | a group that is no longer registered has no member and never gets one again |
| `HttpGroup.RegisterIsThreeSteps` | server/group/http.go:73-116 | the steps of a Register, undisturbed, come to what `Register` computes |
| `HttpGroup.UnRegisterIsThreeSteps` | server/group/http.go:118-135 | the steps of an UnRegister, undisturbed, come to what `UnRegister` computes |
| `HttpGroup.TurnsInARow` | server/group/http.go:137-148 | n draws that do not pass the end of the counter pick each of n places once |
| `HttpGroup.TurnsAreFairIff` | server/group/http.go:137-148 | for every counter value n draws pick each place once exactly if they do not pass the end, start right there, or n divides 2^64 |
| `HttpGroup.MembersTakeTurns` | server/group/http.go:137-179 | so each member of a stable group is served once |
| `HttpGroup.HTTPGroup.Register` | server/group/http.go:73-116 | the class computes the specified group, result and route |
| `HttpGroup.HTTPGroup.UnRegister` | server/group/http.go:118-135 | likewise, with the removal loop |
| `HttpGroup.HTTPGroup.ChooseEndpoint` | server/group/http.go:160-179 | advances the wrapping counter and picks that turn's member; no member or an empty name is an error |
| `HttpGroup.HTTPGroup.CreateConn` | server/group/http.go:137-158 | the same draw, handing out that member's callback |
| `Vhost.LookupMatches` | pkg/util/vhost/http.go:212-253 | the route found is live and matches host, path and user |
| `Vhost.LookupBeats` | pkg/util/vhost/http.go:212-253 | every live match is at most as specific: exact host, longer wildcard, `*`; then exact user; then the longer location |
| `Vhost.MostSpecificIsUnique` | pkg/util/vhost/http.go:212-253 | the most specific match is one route |
| `Vhost.LookupOverBeats` | pkg/util/vhost/http.go:212-253 | with routes added and deleted between the Gets of a lookup, the route found was live at one of its moments, matches, and is at least as specific as every match live throughout; none is found only if none was live throughout |
| `Vhost.FoundWhenStill` | pkg/util/vhost/router.go:96-118 | if nothing changes meanwhile it is the lookup |
| `Vhost.CaseDoesNotMatter` | pkg/util/vhost/router.go:96-118 | hosts that differ only in the case of ASCII letters find the same route |
| `Vhost.WildcardsAreWildcards` | pkg/util/vhost/http.go:230-246 | the loop tries exactly the wildcards that keep two labels |
| `Vhost.FirstHitIsLongest` | pkg/util/vhost/router.go:96-118 | in a descending list the first prefix is the longest live one |
| `Vhost.SortIsDescending` | pkg/util/vhost/router.go:63-67 | the sorted list is strictly descending by location |
| `Vhost.SortIsPermutation` | pkg/util/vhost/router.go:63-67 | and has the same entries |
| `Vhost.Routers.Add` | pkg/util/vhost/router.go:36-70 | fails exactly on a live key, otherwise adds exactly that key |
| `Vhost.Routers.Del` | pkg/util/vhost/router.go:72-94 | removes exactly that key |
| `Vhost.Routers.Exist` | pkg/util/vhost/router.go:120-136 | finds exactly the live key |
| `Vhost.Routers.Get` | pkg/util/vhost/router.go:96-118 | the longest live location, as a function of the live keys alone |
| `Vhost.Routers.GetVhost` | pkg/util/vhost/http.go:212-253 | the specified lookup |
| `Vhost.Routers.GetListener` | pkg/util/vhost/vhost.go:150-188 | the same lookup |
| `NatHole.ClassifyNATFeature` | pkg/nathole/classify.go:42-104 | type, behaviour, spread, regularity and public network as properties of the whole address list, and when it fails |
| `NatHole.TablesPairRoles` | pkg/nathole/analysis.go:38-145 | every table row pairs a sender with a receiver |
| `NatHole.TablesByPlan` | pkg/nathole/analysis.go:38-119 | every row of the five tables by the plan behind them |
| `NatHole.NextIffNoWait` | pkg/nathole/analysis.go:234-247 | a behaviour is next exactly if its waiting number is zero |
| `NatHole.WaitingTime` | pkg/nathole/analysis.go:234-247 | behaviour j is recommended after exactly the stated sum of other recommendations and not before |
| `NatHole.AgainWithinARound` | pkg/nathole/analysis.go:234-247 | the one just recommended comes again within one round |
| `NatHole.NewRecordsOk` | pkg/nathole/analysis.go:179-216 | new records are inside the tables of the modes meant for the pair, without duplicates |
| `NatHole.FreshOrder` | pkg/nathole/analysis.go:179-216 | which mode and row the n-th recommendation to a new pair is, for every class of pair and either side on the public network |
| `NatHole.RewardedAt` | pkg/nathole/analysis.go:218-232 | a success adds two to that behaviour's score, up to 10 |
| `NatHole.AlwaysInTable` | pkg/nathole/analysis.go:271-311 | over all histories every recommended index is inside its mode's table and scores are at most 10 |
| `NatHole.OnlyFittingModes` | pkg/nathole/analysis.go:271-301 | if the key tells the class of a pair, only modes meant for that class are recommended |
| `NatHole.KeyTextTells` | pkg/nathole/controller.go:74-92 | the text that is hashed, though without separators, tells addresses, NAT types, behaviours and regularity of both sides |
| `NatHole.KeyedModesFit` | pkg/nathole/controller.go:74-92 | with keys made as the source makes them and a hash without collisions, every history recommends only modes meant for the pair's class |
| `NatHole.RolesFit` | pkg/nathole/analysis.go:271-301 | the two sides always get the two behaviours of one row; the client sends in mode 1 exactly if hard, in mode 2 exactly if easy, in mode 4 exactly if regular, and gets the row's first otherwise |
| `NatHole.SingleSideFits` | pkg/nathole/analysis.go:271-301 | a single hard side sends in mode 1 and receives in mode 2, a single regular side sends in mode 4 |
| `NatHole.SidesGiveUpTogether` | pkg/nathole/controller.go:323-369 | whatever behaviours a history hands out, both sides stop at the same moment: five seconds after the later one begins to send, thirty more with random ports |
| `NatHole.RangePorts` | pkg/nathole/controller.go:371-394 | 1 <= from <= port <= to <= 65535 for valid ports, and no wider than asked |
| `NatHole.RangeIsNeighbourhood` | pkg/nathole/controller.go:371-394 | the range has exactly the valid ports within the spread and five, and within the number asked for, of the mapped one |
| `NatHole.MakeHoleRecords.ReportSuccess` | pkg/nathole/analysis.go:218-232 | the loop computes the rewarded scores |
| `NatHole.MakeHoleRecords.Recommand` | pkg/nathole/analysis.go:234-247 | the first best behaviour, its score lowered by one |
| `NatHole.Analyzer.GetRecommandBehaviors` | pkg/nathole/analysis.go:271-301 | the table of records and the behaviours handed to the two sides |
| `NatHole.Analyzer.ReportSuccess` | pkg/nathole/analysis.go:303-311 | rewards in the right pair's records only |
| `Store.DurableMap` | pkg/config/source/store.go:175-248 | over operations, failed calls and crashes at any point, memory and disk agree and hold what a plain map would, each operation applied completely or not at all and as its caller was told |
| `Store.IntendedMeans` | pkg/config/source/store.go:175-334 | each operation by the entries: every error exactly on its condition, the entry written, all others unchanged |
| `Store.LastWriteStays` | pkg/config/source/store.go:175-334 | after any history the entry of a kind and name is what the last operation on it that took effect wrote, or what was there at the start |
| `Store.StepIsAtomic` | pkg/config/source/store.go:120-173 | one step of that |
| `Store.MainIsOldOrNew` | pkg/config/source/store.go:120-173 | at every moment of a save the main file is the complete old or the complete new one |
| `Store.DecodedEncodes` | pkg/config/source/store.go:71-118 | loading what was saved gives the maps back |
| `Store.FiledMeans` | pkg/config/source/store.go:83-115 | a list loads exactly if no entry is nameless, and of several with one name the last stays |
| `Store.StoreSource.NewStoreSource` | pkg/config/source/store.go:46-118 | an error exactly for an empty path and for a file that is there and does not decode; otherwise a store that holds what the file decodes to |
| `Store.StoreSource.SaveToFile` | pkg/config/source/store.go:120-173 | the disk goes through the specified states |
| `Store.StoreSource.AddEntry` | pkg/config/source/store.go:175-199 | stores the entry in memory and on disk, or leaves both; each error exactly on its condition |
| `Store.StoreSource.UpdateEntry` | pkg/config/source/store.go:201-226 | replaces an existing entry in memory and on disk, or leaves both; each error exactly on its condition |
| `Store.StoreSource.RemoveEntry` | pkg/config/source/store.go:228-248 | takes an existing entry out of memory and disk, or leaves both; each error exactly on its condition |
| `Reload.Source.ReplaceAll` | pkg/config/source/config_source.go:36-65 | all entries, the last of a name staying, or none if one is missing or unnamed |
| `Reload.MergeSource` | pkg/config/source/aggregator.go:80-93 | a source's enabled entries, as fresh copies, over what is merged so far |
| `Reload.Filter` | pkg/config/load.go:436-471 | exactly the entries that may start and are enabled |
| `Reload.CompleteAll` | pkg/config/load.go:420-434 | each object completed once, in place |
| `Reload.LoadAll` | client/service.go:559-576 | fails exactly without any source; otherwise the from-scratch set, each name once, sorted by name, as new objects; nothing the sources hold is changed |
| `Reload.SortedNames` | pkg/config/source/aggregator.go:98-109 | the names in ascending order |
| `Reload.DisabledIsNoTombstone` | pkg/config/source/base_source.go:42-65 | a disabled store entry leaves the config entry of its name in charge |
| `Configs.CompletedFillsIn` | pkg/config/v1/proxy.go:154-157 | completion fills in empty defaults, nothing else, and only once |
| `Reload.TargetMeans` | pkg/config/load.go:420-471 | what should run, entry by entry: store before config unless disabled, a missing flag is enabled, an empty start list selects all, and what completion fills in |
| `Managers.UpdateMeetsTarget` | client/proxy/proxy_manager.go:139-182 | the incremental update runs exactly the from-scratch set; same configuration, same running proxy |
| `Managers.UnchangedTouchesNothing` | client/proxy/proxy_manager.go:139-182 | reloading what runs touches nothing |
| `Managers.RepeatedListSettlesIff` | client/proxy/proxy_manager.go:141-175 | the same list twice is at rest exactly if no name has different first and last configurations |
| `Managers.KeyByName` | client/proxy/proxy_manager.go:141-143 | the last configuration of each name |
| `Managers.ProxyManager.UpdateAll` | client/proxy/proxy_manager.go:139-182 | the two loops compute the specified table, and what is alive is what the table lists |
| `Visitors.HistoryKeepsInv` | client/visitor/visitor_manager.go:76-181 | over any history each running visitor was started from the configuration now stored under its name |
| `Visitors.RunsWithoutBreak` | client/visitor/visitor_manager.go:133-181 | and has run without a break, under that configuration, since its start |
| `Visitors.RenewMeetsTarget` | client/visitor/visitor_manager.go:133-181 | an update stores the from-scratch set, leaves unchanged visitors alone, and of the others starts exactly those that can be |
| `Visitors.RoundCatchesUp` | client/visitor/visitor_manager.go:76-99 | a round in which all starts work has every stored visitor running |
| `Visitors.RoundStarts` | client/visitor/visitor_manager.go:86-96 | a round starts exactly the stored visitors that do not run and can be started |
| `Visitors.VisitorManager.UpdateAll` | client/visitor/visitor_manager.go:133-181 | the loops compute the specified state, and no closed visitor stays alive |
| `Visitors.VisitorManager.StartVisitor` | client/visitor/visitor_manager.go:115-131 | records a visitor exactly if it starts |
| `Visitors.VisitorManager.KeepRunning` | client/visitor/visitor_manager.go:76-99 | one round starts exactly the missing visitors that can start |
| `Client.Service.ReloadFromSources` | client/service.go:559-583 | fails and changes nothing exactly without an aggregator or without a source; after a reload with a control the running proxies and stored visitors are the from-scratch sets of the sources |
| `Client.StepInStepIffCurrent` | client/service.go:433-447 | a control that has not ended stays in step with the stored list through every step but the installing by an overtaken login |
| `Client.CurrentLoginsStayInStep` | client/service.go:433-447 | so they do in every run without one |
| `Client.OvertakenLogin` | client/service.go:388-417 | a run with one, after which the reload is lost on the new control, which has not ended |
| `Client.PushRepairs` | client/service.go:433-447 | after any run a reload that hands its list to a control leaves exactly that list running there, in step if it is the control held, and without a connection if that has ended |
| `Client.StepNoOrphansIff` | client/service.go:411-417 | only the control held and the one being installed run proxies; exactly a reload handed to a control that is no longer held breaks this |
| `Client.OrphansStay` | client/control.go:282-294 | a control that has ended, is not held and is not fetched by a reload never changes again |
| `Client.LeftBehind` | client/service.go:438-445 | a run after which a control that is no longer held has a proxy running, and every continuation leaves it so |
| `Backoff.FastRetriesBounded` | pkg/util/wait/backoff.go:66-92 | after any history a stretch of time no longer than the window has at most twice FastRetryCount fast retries |
| `Backoff.BoundIsMet` | pkg/util/wait/backoff.go:66-92 | a history that has that many |
| `Backoff.DelaysRise` | pkg/util/wait/backoff.go:94-112 | without fast retries and with factor >= 2, in every run the delays of a stretch of errors are positive, never fall, never exceed a maximum if there is one, and double up to there |
| `Backoff.ReachesCap` | pkg/util/wait/backoff.go:94-112 | in every run with a maximum, the delays of such a stretch are the maximum from the error on with which doubling its base passes it |
| `Backoff.GrownWithin` | pkg/util/wait/backoff.go:94-111 | the delay after an error is the one before times the factor, stretched by at most the jitter, unless the maximum is smaller |
| `Backoff.DelayMeans` | pkg/util/wait/backoff.go:66-113 | the plain duration at first and after a success, the fast delay with its jitter for a fast retry, the grown delay otherwise |
| `Backoff.RoomIsUsed` | pkg/util/wait/backoff.go:80-85 | while there is room every error is a fast retry |
| `Backoff.WindowReopensIff` | pkg/util/wait/backoff.go:80-92 | once used up, room for fast retries comes back exactly by an error after the end of the window |
| `Backoff.FastBackoff.Backoff` | pkg/util/wait/backoff.go:66-113 | the object computes the specified state and delay |
| `Backoff.BackoffUntil` | pkg/util/wait/backoff.go:115-152 | sliding or not, until done or stopped, the loop passes each delay on to the next call |
| `Backoff.CallOfRound` | pkg/util/wait/backoff.go:115-152 | one call for each round, about this attempt if sliding and about the one before if not |
| `DateCounter.ShiftThenAdd` | pkg/util/metric/date_counter.go:80-92 | moving on and adding is one more dated entry in the history, whatever the gap |
| `DateCounter.AlwaysRightIff` | pkg/util/metric/date_counter.go:114-134 | the counts are right after every call, whatever the amounts, exactly if no call is dated before the call that precedes it |
| `DateCounter.HoldsDays` | pkg/util/metric/date_counter.go:114-134 | then counts[i] is the net amount recorded i days before the last call, modulo 2^64 |
| `DateCounter.ClockBackMovesAmounts` | pkg/util/metric/date_counter.go:114-134 | a history with a clock going back for which it is not |
| `DateCounter.StandardDateCounter.Rotate` | pkg/util/metric/date_counter.go:114-134 | shifts the counts by the days passed, none if the clock stood or went back |
| `DateCounter.StandardDateCounter.Inc` | pkg/util/metric/date_counter.go:80-85 | records the amount in the history |
| `DateCounter.StandardDateCounter.Dec` | pkg/util/metric/date_counter.go:87-92 | records its negative |
| `DateCounter.StandardDateCounter.TodayCount` | pkg/util/metric/date_counter.go:57-63 | the net amount of that day |
| `DateCounter.StandardDateCounter.GetLastDaysCount` | pkg/util/metric/date_counter.go:65-78 | the net amounts of the last days, no more days than are kept |
| `DateCounter.StandardDateCounter.Clear` | pkg/util/metric/date_counter.go:104-110 | begins a new history on the day of the last update |
| `PortRange.RoundTripIff` | pkg/config/types/types.go:121-173 | printing and parsing gives a list back exactly if it is not empty and in normal form |
| `PortRange.ReparsesToTheSame` | pkg/config/types/types.go:121-173 | what was parsed prints and parses to itself |
| `PortRange.SpacedList` | pkg/config/types/types.go:138-140 | white space around the whole list does not matter |
| `PortRange.SpacedPieces` | pkg/config/types/types.go:148-160 | white space around the numbers does not matter |
| `Int64.CountsForEverIff` | pkg/util/util/util.go:102-104 | with wrapping 64-bit integers the counting loop's guard holds for ever exactly if the upper bound is the largest number; otherwise it lists the numbers between the bounds |
| `PortRange.NumbersAgree` | pkg/util/util/util.go:67-111 | for every string: ParseRangeNumbers never ends exactly if a piece is a range up to the largest number and every piece before it parses; otherwise it fails exactly on the strings that do not parse as ranges and lists the others written out |
| `PortRange.NeverComesBack` | pkg/util/util/util.go:67-111 | such strings |
| `PortRange.AllowedAreTheNumbers` | server/ports/ports.go:52-66 | for a string that parses, the allocator is made exactly if ParseRangeNumbers ends, and its free ports are those numbers |
| `PortRange.PrintRanges` | pkg/config/types/types.go:121-134 | the loop prints the specified form |
| `PortRange.NewPortsRangeSlice` | pkg/config/types/types.go:137-173 | the loop parses it, with its early errors |
| `PortRange.ParseRangeNumbers` | pkg/util/util/util.go:67-111 | for every string and every budget of rounds the nested loops list the specified numbers, report the error, or are unfinished; with a budget of all 64-bit numbers the last only where the source never ends |
| `Text.SplitJoin` | pkg/config/types/types.go:133-141 | splitting what was joined gives the pieces back |
| `Text.ParsesPrinted` | pkg/config/types/types.go:148-160 | every 64-bit number is read as printed and no other is accepted |

## Left out

- Sockets, TLS, multiplexing, encryption, and the goroutines that move connections: results of listening, probing and connecting are parameters.
- UDP and SUDP proxies: their close releases the port on every call, so exclusive ownership is not what the code provides.
- Work-connection pools, heartbeats, message formats, authentication, plugins, admin APIs, metrics, logging, command lines.
- HTTPS and TCPMux groups: they share the base group and add only parameter checks.
- Server shutdown and `ControlManager.Close`.
- Liveness of sessions: proved is what cannot happen and what can, not what must, because a refused control never closes its done channel.
- Metadata and timestamps of registry entries (host name, version, address, first and last seen).
- Groups: the errors by which a Listen is turned away are one outcome in the interleaving model; `GroupObjects.Admission` tells them apart.
- GroupObjects.GroupCtl.Listen: the retry loop runs once, because nobody runs in between; `Groups` has the retries.
- System: follows TCP proxies; other kinds of proxies have no model of their resources.
- HttpGroup: a group has one name for its registry slot and its own group field; names, keys, routes and callbacks are numbers.
- Vhost: `Register`, `UnRegister` and `Muxer.Listen` only pass on to the router; lower-casing is that of ASCII letters.
- Parsing of addresses in `ClassifyNATFeature`: an address is its host, port text and port number, or malformed.
- NatHole.KeyTextTells: addresses are texts without a capital N, as IP addresses are; the hash itself is any function without collisions.
- `Analyzer.Clean`: an event that removes any set of idle keys; the clock that chooses them is not modelled.
- The JSON text of the store file: a file is a list of entries or torn; that its directory entry survives a crash of the operating system is assumed, as by the code.
- The proxy and the visitor methods of the store are one method each with the kind as a parameter.
- Reload.LoadAll: loads proxies or visitors of the sources, one kind at a time; entries of a source are never missing, so cloning does not fail.
- Reload.CompleteAll: fills in the defaults of the base configuration; those of plugins and of single types are left out, because configuration fields that no modelled code looks at are one number.
- Client: the interleaving model follows the proxies; visitors go the same way while the control has not ended.
- Backoff: durations do not overflow, and factors and jitter are exact reals.
- DateCounter: days are whole numbers, so days of 23 or 25 hours are not modelled; `Snapshot` is left out because it does not rotate first.
