# Saltator, verified models of its cores

Saltator is a clustered Matrix homeserver. This project models the deterministic cores of its
crates in Dafny 4.11 and proves what they are for. `dafny verify dfyconfig.toml` checks all of it.

| module | models | main results |
|---|---|---|
| `Glob` | the server ACL glob matcher | the loop that remembers one star decides the recursive meaning of `*` and `?`, exactly on texts without a literal star |
| `AuthGraph`, `Subgraph` | auth chains, conflicted subgraph | the memoised explicit-stack walk returns exactly the strict ancestors; the fixpoint returns exactly the events between conflicted events |
| `Kahn`, `PowerOrder` | reverse topological power ordering | the output is the lexicographically least topological order, and there is only one |
| `Mainline` | mainline and positions | the memoised position is the uncached one in any query order |
| `Resolution`, `StateRes`, `Winners` | state resolution v2 and v2.1 | the loops compute a function of the *set* of snapshots; every entry is agreed or the last event accepted under its key, in an order by power and then by mainline position, so that what was sent under newer power levels stands |
| `TwoCreates`, `CreatorsTell` | snapshots that name different create events | in room versions 8 to 11 two acceptable create events are interchangeable if and only if they have the same creators; otherwise two snapshots of events that all pass their own checks resolve differently in either order |
| `Events`, `PowerLevels`, `Auth` | authorization rules of room versions 8 to 12 | the selected auth events decide every verdict |
| `RoomHistory`, `Moderation` | accepted linear histories | exactly which events are allowed; every change of a membership or of the levels is by somebody entitled to it; nobody at the power ceiling is removed; the ceiling, bans, closed rooms |
| `Subscription` | change-stream server and client | gap-free, in order, once each, in every interleaving; an unbroken connection ends up having served all its replica had applied and broadcast; never stuck |
| `Orders`, `ByteKeys`, `Views` | ordered scans over encoded keys | byte order is the order of names and numbers; scans list what they stand for |
| `FedOut` | the EDU outbox and its sender | the byte-keyed table refines a map; an EDU leaves it only acknowledged, and was then carried if and only if it parses; both on every replica, however log entries are grouped into apply calls |
| `Delivery` | the PDU delivery worker | exactly what every pass delivers, to each destination whatever the others do; over any failed reads and sends, changing destinations and leadership changes, whatever the floor, a cursor or a later acknowledgement has passed is acknowledged or some step of the run is to blame: a read that failed, a tenure that began above it or, where its events had changed, a cursor that had overtaken it; with all reads successful nothing is skipped |
| `Timeline`, `RoomShard` | the room shard's indexes and commands | pages are filters of one log; each event is on it once; extremities and gap markers follow the commands; backfilled history stays closed |
| `Placement`, `Liveness` | rendezvous placement, failure detector | the heaviest nodes, as many as wanted; minimal churn both ways; verdicts exactly when due |

Working conventions. Loops and in-place updates of the original are methods with invariants or
class methods; each is proved against a function or predicate that does not mention the loop.
Ghost parameters carry what a table stands for. Acyclicity of auth events is stated as a rank
function that falls along every auth edge. Where a claim is false of the code, the code
is kept, an input shows it, and the boundary is proved for all inputs:

- glob matching: a text is decided rightly under every pattern if and only if it holds no `*`
  (`Glob.TrustedTexts`);
- the order of snapshots: resolution reads only the creators off the create event it finds, so the
  order cannot matter where they agree (`StateRes.ResolveReordered`), and in versions 8 to 11 it
  can wherever they do not: two acceptable create events are interchangeable if and only if they
  have the same creators (`CreatorsTell.CreatorsTell`), and any two others have snapshots of events
  that all pass their own checks and resolve differently in either order (`CreatorsTell.AnyTwo`,
  `TwoCreates.OrderMatters`). In version 12 the room id names the create event, so that a room has
  only one;
- failed reads: of what the floor passes for the first time, a destination has acknowledged exactly
  what it had before and what the pass found to be for it: the event could be read, and so could
  the room's members unless the event names the destination itself (`Delivery.SteadyPassExact`,
  `Delivery.LookupFailureLoses`, `Delivery.MembersFailureLoses`), while an event read again before
  the floor passes it is sent (`Delivery.SecondLookupDelivers`);
- leadership changes: a destination with a cursor loses nothing if and only if the cursor table was
  read or nothing is open above its cursor (`Delivery.PromiseSurvives`, over whole runs
  `Delivery.NothingSkipped`), and what a new leader leaves behind is exactly what is owed,
  unacknowledged and not yet due at or below its floor (`Delivery.LeadForgets`,
  `Delivery.NewLeaderForgets`, `Delivery.UnreadTableForgets`);
- slow destinations: each destination is served by itself within a batch
  (`Delivery.HealthyIsServed`), but one that keeps backing off holds all others back beyond the
  batch of 256 that begins at the event it waits for (`Delivery.HeldBack`,
  `Delivery.SlowPeerStalls`), although the original's comment says it does not;
- EDUs that do not parse: an acknowledged EDU was carried if and only if it parses
  (`FedOut.NothingElseLost`, `FedOut.UnparsedIsLost`);
- acks and apply calls: of the queued rows up to its bound an ack removes exactly those enqueued
  before the apply call it is in (`FedOut.AckSees`), so that replicas of one log may differ in what
  is queued (`FedOut.StagedAckStays`), though on none of them an EDU leaves the queue
  unacknowledged.

## Model

| member | source | states |
|---|---|---|
| `Glob.GlobMatch` | crates/saltator-core/src/acl.rs:93-119 | the loop terminates; an accepted text is matched by the glob; on texts without `*` acceptance is exactly the recursive meaning |
| `Glob.VerdictSound` | crates/saltator-core/src/acl.rs:93-119 | no text at all is accepted that the glob does not match |
| `Glob.VerdictComplete` | crates/saltator-core/src/acl.rs:93-119 | no match is missed on a text without `*` |
| `Glob.StuckAlignment` | crates/saltator-core/src/acl.rs:107-110 | when the alignment after the last star is stuck, no match starts there, so restarting one further loses none |
| `Glob.LastStarSuffices` | crates/saltator-core/src/acl.rs:103-106 | at a new star the earlier star may be forgotten: any match through it still reaches the new one |
| `Glob.TrustedTexts` | crates/saltator-core/src/acl.rs:93-119 | a text is decided rightly under every pattern if and only if it holds no `*` |
| `AuthGraph.Visit` | crates/saltator-core/src/state_res.rs:198-220 | the stack walk terminates on acyclic graphs and lists every needed event after its auth events, or names a reachable event that is missing |
| `AuthGraph.OneChain` | crates/saltator-core/src/state_res.rs:221-233 | the union over memoised auth events is exactly the strict ancestors |
| `AuthGraph.AuthChain` | crates/saltator-core/src/state_res.rs:179-235 | succeeds exactly when nothing reachable is missing, returns exactly the strict transitive auth ancestors, and the memo table stays right and only grows, so it is right after any sequence of calls |
| `Subgraph.Explore` | crates/saltator-core/src/state_res.rs:250-260 | the recorded nodes are what the conflicted events reach, with their auth events |
| `Subgraph.Sweep` | crates/saltator-core/src/state_res.rs:262-282 | a sweep only marks events that reach a conflicted one; it either marks one more or the marking is stable |
| `Subgraph.SettledMarks` | crates/saltator-core/src/state_res.rs:262-282 | a stable marking marks every event that reaches a conflicted one |
| `Subgraph.FilterMeaning` | crates/saltator-core/src/state_res.rs:284-297 | the final filter keeps exactly the nodes that reach a conflicted event |
| `Subgraph.ConflictedSubgraph` | crates/saltator-core/src/state_res.rs:240-298 | the fixpoint terminates; the result is the set of events reached from a conflicted event and reaching one, paths of length zero allowed; it fails exactly when something reachable is missing |
| `Kahn.Order` | crates/saltator-core/src/state_res.rs:414-432 | the ready-set loop returns the lexicographically least topological order of any acyclic dependency map |
| `Kahn.Release` | crates/saltator-core/src/state_res.rs:422-428 | striking out an emitted event leaves exactly the outstanding dependencies and frees exactly those waiting on it alone |
| `Kahn.GreedyIsLeast` | crates/saltator-core/src/state_res.rs:414-432 | always emitting the least ready element beats every other topological order at their first difference |
| `Kahn.GreedyTopological` | crates/saltator-core/src/state_res.rs:414-432 | when nothing is ready, every element was emitted once, after all it depends on |
| `Kahn.LeastTopologicalUnique` | crates/saltator-core/src/state_res.rs:372-432 | there is only one least topological order |
| `PowerOrder.BeforeTotal` | crates/saltator-core/src/state_res.rs:383-387 | greater sender power, smaller timestamp, smaller id is a total order on the events |
| `PowerOrder.LevelsInAuthEvents` | crates/saltator-core/src/state_res.rs:546-558 | the first power-levels event in auth-event order, or the missing event met before it |
| `PowerOrder.AncestryOrderable` | crates/saltator-core/src/state_res.rs:387-412 | on a complete acyclic graph every event has a sort key and the in-set ancestry is acyclic |
| `PowerOrder.Gather` | crates/saltator-core/src/state_res.rs:387-412 | keys, pending ancestors and their reverse are gathered for the whole set, or an event is missing |
| `PowerOrder.ReverseTopologicalPowerOrder` | crates/saltator-core/src/state_res.rs:372-432 | succeeds exactly when nothing reachable is missing, and is the least order in which every auth ancestor inside the set precedes its descendants |
| `Mainline.BuildMainline` | crates/saltator-core/src/state_res.rs:526-544 | the index numbers exactly the chain of power-levels events behind the start |
| `Mainline.FirstHitMeaning` | crates/saltator-core/src/state_res.rs:562-597 | the uncached position is the index of the first chain event on the mainline, or the maximum |
| `Mainline.MainlinePosition` | crates/saltator-core/src/state_res.rs:562-597 | the memoised walk equals the uncached position from any right memo table, and leaves it right |
| `Mainline.MainlineMembers` | crates/saltator-core/src/state_res.rs:562-597 | an event on the mainline itself is positioned behind its own place |
| `Resolution.UnconflictedMeaning` | crates/saltator-core/src/state_res.rs:154-175 | an entry is unconflicted exactly when every snapshot holds it |
| `Resolution.FirstCreateAgrees` | crates/saltator-core/src/state_res.rs:86-91 | lists of the same snapshots that name one create event find the same one |
| `Resolution.OneCreateExact` | crates/saltator-core/src/state_res.rs:86-91 | the create event found, though not yet the result, is independent of order and repetition if and only if no two snapshots name different ones |
| `Resolution.CreatorsDecide` | crates/saltator-core/src/state_res.rs:86-93 | of the create event found only its creators matter to the result |
| `Resolution.PowerOrderingIs` | crates/saltator-core/src/state_res.rs:95-110 | the power ordering is determined by the set of events |
| `Resolution.CheckAllRuns` | crates/saltator-core/src/state_res.rs:449-522 | with everything at hand the checks succeed and change the state only by filing checked events under their own keys |
| `Resolution.ReducedCheckExact` | crates/saltator-core/src/state_res.rs:463-519 | where the working state has no stand-ins, the reduced check gives the verdict of the full state |
| `Resolution.AgreementResolves` | crates/saltator-core/src/state_res.rs:56-60 | a single snapshot resolves to itself |
| `Resolution.ResolvedEntries` | crates/saltator-core/src/state_res.rs:43-149 | with everything at hand resolution succeeds, keeps every unconflicted entry, and takes every other from the full conflicted set, filed under its own key |
| `StateRes.Partition` | crates/saltator-core/src/state_res.rs:154-175 | the agreed entries and all other values, as functions of the set of snapshots |
| `StateRes.StateChain` | crates/saltator-core/src/state_res.rs:65-69 | the union of the auth chains of a snapshot through the shared memo table |
| `StateRes.Difference` | crates/saltator-core/src/state_res.rs:62-76 | the auth difference is union minus intersection of the snapshots' chains, whatever their order |
| `StateRes.CollectConflicted` | crates/saltator-core/src/state_res.rs:78-84 | the full conflicted set of either algorithm version |
| `StateRes.CollectPower` | crates/saltator-core/src/state_res.rs:95-108 | the power events and their chain events inside the full conflicted set |
| `Resolution.FallbackMeans` | crates/saltator-core/src/state_res.rs:497-510 | a key that the working state lacks is looked for among the auth events: what stands for it is the first at hand filed under it, and nothing only if none is; the create key of version 12 is the exception (state_res.rs:483-496), it never falls back to auth events but is named by the room id |
| `StateRes.Assemble` | crates/saltator-core/src/state_res.rs:463-511 | the reduced state holds exactly what stands for the needed keys, or an event is missing |
| `StateRes.IterativeAuthChecks` | crates/saltator-core/src/state_res.rs:449-522 | the loop is the fold of single checks over the order |
| `StateRes.MainlineSort` | crates/saltator-core/src/state_res.rs:120-139 | the remaining events in the one order by position descending, timestamp, id |
| `StateRes.Resolve` | crates/saltator-core/src/state_res.rs:43-149 | the outcome is a function of the set of snapshots and the create event found; each error exactly when its cause is there |
| `StateRes.ResolveReordered` | crates/saltator-core/src/state_res.rs:43-149 | permuting or repeating snapshots never changes the result when the create events they name have the same creators |
| `Winners.MainlineOrderMeaning` | crates/saltator-core/src/state_res.rs:120-139 | the remaining events, each once, the one further from the current power levels first, then the older one, then the one with the smaller id |
| `Winners.PowerEventsAre` | crates/saltator-core/src/state_res.rs:301-317 | power levels, join rules and removing somebody else are ordered by power |
| `Winners.PowerOfMeans` | crates/saltator-core/src/state_res.rs:319-370 | by what power: infinite for creators of version 12, else the level in the first power-levels event among the auth events, else 100 for creators and 0 |
| `Winners.PowerOrderMeaning` | crates/saltator-core/src/state_res.rs:372-432 | an event precedes another that could have come in its place because its sender has more power, or else it is older, or has the smaller id |
| `Winners.LastAcceptedStands` | crates/saltator-core/src/state_res.rs:449-522 | the checks leave under each key the last event accepted at its turn, or what was there |
| `Winners.RoomIdNamesCreate` | crates/saltator-core/src/state_res.rs:483-496 | in version 12, without a create event in the working state, the one that the room id names decides |
| `Winners.TurnsExist` | crates/saltator-core/src/state_res.rs:95-139 | with everything at hand there is an order in which the events are checked, power events first |
| `Winners.ResolvedHolds` | crates/saltator-core/src/state_res.rs:43-149 | a resolved state holds what all agree on, else the last event accepted in the order of checks, from the agreed state or in version 12 from nothing; and nothing where none was accepted |
| `Winners.NewerLevelsStand` | crates/saltator-core/src/state_res.rs:112-149 | of two remaining events under one key the one sent under the older power levels does not stand if the other one is accepted |
| `TwoCreates.SidePasses` | crates/saltator-core/src/auth.rs:144-303 | a create event, its founder's join and the join rules they set have well-formed auth events and pass the rules against them |
| `TwoCreates.RunsLeast` | crates/saltator-core/src/state_res.rs:372-432 | two chains of events, each waiting for all before it, come one after the other when all of the first are ordered before all of the second |
| `TwoCreates.ClashOrder` | crates/saltator-core/src/state_res.rs:372-432 | with the creators of one side the power ordering lists that side's events before the other's, whatever timestamps and ids |
| `TwoCreates.SideChecked` | crates/saltator-core/src/state_res.rs:459-521 | a side that comes next in the order is accepted whole, over whatever side came before it |
| `TwoCreates.ClashResolves` | crates/saltator-core/src/state_res.rs:43-149 | of the two snapshots, the side whose create event was not the one found wins create event and join rules |
| `TwoCreates.OrderMatters` | crates/saltator-core/src/state_res.rs:86-93 | with any other events at hand, the two snapshots of two such sides resolve differently in either order |
| `TwoCreates.AnyFounders` | crates/saltator-core/src/state_res.rs:86-93 | any two acceptable create events by different founders have such sides, every event of which passes its own checks |
| `TwoCreates.VersionEleven` | crates/saltator-core/src/auth.rs:306-377 | in version 11 every acceptable create event is by its founder |
| `CreatorsTell.TwinJoinable` | crates/saltator-core/src/auth.rs:306-426 | every acceptable create event of versions 8 to 11 has a twin with the same creator that this creator may join |
| `CreatorsTell.BranchPasses` | crates/saltator-core/src/auth.rs:144-303 | the events of a branch, by which the creator joins, sets levels and twice sets join rules, all pass their own checks |
| `CreatorsTell.BranchOrder` | crates/saltator-core/src/state_res.rs:372-432 | the join rules that cite no levels are ordered before those that do exactly if their sender is a creator by the create event found |
| `CreatorsTell.BranchChecked` | crates/saltator-core/src/state_res.rs:459-521 | both are accepted, so that the later ones win |
| `CreatorsTell.ContestResolves` | crates/saltator-core/src/state_res.rs:43-149 | which join rules two snapshots resolve to, whatever create event is found |
| `CreatorsTell.AnyTwo` | crates/saltator-core/src/state_res.rs:86-93 | for any two acceptable create events with different creators: complete snapshots that name one each, of events that all pass their own checks, with different results in either order |
| `CreatorsTell.CreatorsTell` | crates/saltator-core/src/state_res.rs:86-93 | two acceptable create events of versions 8 to 11 are interchangeable on all complete snapshots of events that pass their own checks if and only if they have the same creators |
| `Auth.SelectionDecides` | crates/saltator-core/src/auth.rs:90-303 | two states that agree on the selected keys and the create event authorize alike, for every event and room version |
| `Auth.SelectionSuffices` | crates/saltator-core/src/auth.rs:90-303 | the verdict on a state is the verdict on its selected part |
| `Auth.MemberNeedsOnlySelected` | crates/saltator-core/src/auth.rs:383-631 | the membership rules, third-party and restricted joins included, read only selected keys |
| `Auth.OtherNeedsOnlySelected` | crates/saltator-core/src/auth.rs:216-303 | the remaining rules, power levels included, read only selected keys |
| `Moderation.SelectedKeys` | crates/saltator-core/src/auth.rs:90-142 | exactly which state keys are selected for an event |
| `Moderation.StandingMeans` | crates/saltator-core/src/auth.rs:79-84 | where a user stands is what their member event says, and who has none has left |
| `Moderation.RuleMeans` | crates/saltator-core/src/auth.rs:405-408 | the join rule is by invitation unless the event in state says otherwise |
| `Moderation.FirstJoinMeans` | crates/saltator-core/src/auth.rs:412-426 | the one join without permission is the creator's, right after the create event |
| `Moderation.KeysMean` | crates/saltator-core/src/auth.rs:577-631 | the candidate keys are the public key and the listed public keys |
| `Moderation.CreatorsAre` | crates/saltator-core/src/power_levels.rs:55-78 | who the creators are, version by version |
| `Moderation.LevelMeans` | crates/saltator-core/src/power_levels.rs:82-88 | what counts as a level, version by version |
| `Moderation.LevelsMean` | crates/saltator-core/src/power_levels.rs:157-232 | every user level and every threshold, read off the power-levels content or its default |
| `Moderation.MembershipsExact` | crates/saltator-core/src/auth.rs:383-631 | exactly which membership events are allowed, for joins, invites, leaves, kicks, bans and knocks |
| `Moderation.SendingExact` | crates/saltator-core/src/auth.rs:216-303 | exactly which other events are allowed, power levels aside |
| `Moderation.LevelsExact` | crates/saltator-core/src/auth.rs:676-859 | exactly which power levels are allowed: well-formed, and every threshold and entry changed within the sender's reach |
| `RoomHistory.CreateStays` | crates/saltator-core/src/auth.rs:306-320 | in a linear history the create event stays in state and no second one is accepted |
| `RoomHistory.LevelFromContent` | crates/saltator-core/src/power_levels.rs:157-220 | an ordinary user's resolved level is the explicit one or the default |
| `RoomHistory.LevelsRule` | crates/saltator-core/src/auth.rs:676-859 | an accepted power-levels event changes user levels only within its sender's reach |
| `RoomHistory.LevelsKept` | crates/saltator-core/src/auth.rs:676-859 | one event of an accepted history, power levels or not, keeps every bound on levels and every other user at the bound |
| `RoomHistory.CeilingNeverRises` | crates/saltator-core/src/auth.rs:676-859 | along any accepted stretch after the first power-levels event, the maximum of 0, the default and all explicit levels never rises (up to version 11 always; from version 12 while no creator sends) |
| `RoomHistory.TopKeepsLevel` | crates/saltator-core/src/auth.rs:676-859 | a user at the ceiling keeps that level, and the ceiling, until they themselves send power levels |
| `RoomHistory.MembershipChange` | crates/saltator-core/src/auth.rs:216-303 | an accepted event changes a membership only by being that user's member event |
| `RoomHistory.FirstJoinIsSecond` | crates/saltator-core/src/auth.rs:412-426 | the creator's free join can only be the second event of a linear history |
| `RoomHistory.BanStep` | crates/saltator-core/src/auth.rs:383-574 | one event leaves a banned user banned, or is a leave by a different joined user who meets the ban and kick levels and strictly outranks them |
| `RoomHistory.BanHolds` | crates/saltator-core/src/auth.rs:383-574 | over any stretch, whoever is no longer banned was unbanned in it that way |
| `RoomHistory.InviteeWasInvited` | crates/saltator-core/src/auth.rs:383-574 | whoever is invited was sent an invite that was accepted |
| `RoomHistory.ClosedJoin` | crates/saltator-core/src/auth.rs:411-444 | every single join into a room that is closed at that moment, whatever it was before, is by somebody who holds an accepted invite, or is the founding join |
| `RoomHistory.ClosedRoom` | crates/saltator-core/src/auth.rs:383-574 | over any stretch in which the join rule is invite or knock, everyone joined at its end was joined at its beginning, held an invite in it, or is the founder |
| `Moderation.EveryMembershipChange` | crates/saltator-core/src/auth.rs:383-631 | whatever a membership becomes in a history, an event by somebody entitled to it has made it so |
| `Moderation.BannedBy` | crates/saltator-core/src/auth.rs:536-549 | who is banned was banned by a joined user at the ban level and strictly above them |
| `Moderation.RemovedBy` | crates/saltator-core/src/auth.rs:495-549 | who was joined and no longer is has left, or was kicked or banned by a joined user at the level for it and strictly above them, or was invited anew by a third-party invite |
| `Moderation.TopIsSafe` | crates/saltator-core/src/auth.rs:495-549 | a user at the power ceiling is not banned or kicked by anybody but a creator of infinite power |
| `Moderation.TopStays` | crates/saltator-core/src/auth.rs:495-859 | over any stretch without such creators a joined user at the ceiling who sends no power levels stays joined until they leave |
| `Moderation.EveryEvent` | crates/saltator-core/src/auth.rs:216-303 | every later event of a history is of its room, from its server if it does not federate, and if it is no membership by a joined user at the level for it |
| `Moderation.StaysLocal` | crates/saltator-core/src/auth.rs:247-252 | a room that does not federate has events of one server only |
| `Moderation.WellFounded` | crates/saltator-core/src/auth.rs:306-377 | what the create event of every history is like |
| `Moderation.EveryLevelsChange` | crates/saltator-core/src/auth.rs:676-859 | every change of the levels along a history is within its sender's reach, threshold by threshold and entry by entry |
| `Moderation.AlwaysReadable` | crates/saltator-core/src/auth.rs:676-742 | no accepted power levels lock a room up: those in force can always be read |
| `Subscription.StepKeeps` | crates/saltator-cluster/src/rpc.rs:329-445 | every step of server, client, replicas and network keeps the invariant |
| `Subscription.ReceiveKeeps` | crates/saltator-cluster/src/rpc.rs:363-409 | a live record is dropped, spliced in or preceded by a hole fill that leads exactly up to it |
| `Subscription.FillNextKeeps` | crates/saltator-cluster/src/rpc.rs:369-397 | filling a hole sends the next record and stops before the live one |
| `Subscription.DeliverKeeps` | crates/saltator-cluster/src/remote.rs:247-258 | the client yields a frame or drops one already seen |
| `Subscription.RunKeeps` | crates/saltator-cluster/src/rpc.rs:329-445 | the invariant holds after every run |
| `Subscription.GapFree` | crates/saltator-cluster/src/remote.rs:207-272 | in every interleaving of commits, applies, broadcasts and their loss, lag, breaks and reconnects to any replica, what the client yielded is exactly the journal in (from, last], in order, once each |
| `Subscription.CanAdvance` | crates/saltator-cluster/src/remote.rs:207-272 | from every reachable state, reconnecting to a replica that is ahead brings the next record |
| `Subscription.StaysBound` | crates/saltator-cluster/src/rpc.rs:329-445 | whatever happens short of a break, a connection stays bound to bring what a replay has yet to read or has read, and what was broadcast since |
| `Subscription.BoundIsServed` | crates/saltator-cluster/src/rpc.rs:329-445 | in every interleaving without a break, once nothing is left to do the client has yielded all that the connection was bound to bring |
| `Subscription.WhatIsServed` | crates/saltator-cluster/src/rpc.rs:336-441 | that is all the replica had applied when a replay, first or after a lag, was about to read, what was read, and what was broadcast |
| `Subscription.WorkFalls` | crates/saltator-cluster/src/rpc.rs:329-445 | every step of the server's loops and of the client's reading brings them closer to having nothing left to do |
| `Subscription.Serves` | crates/saltator-cluster/src/rpc.rs:336-362 | from every reachable state in which a replay is about to read, those steps alone lead to a live connection whose client has all the replica had |
| `ByteKeys.BigEndianOrder` | crates/saltator-roomserver/src/machine.rs:50-56 | big-endian keys sort as their numbers |
| `ByteKeys.NumberKeyInjective` | crates/saltator-roomserver/src/machine.rs:47-56 | without NUL in names, `name 0x00 number` determines both |
| `ByteKeys.SameNameOrder` | crates/saltator-roomserver/src/machine.rs:50-56 | keys of one name sort by number |
| `ByteKeys.BetweenNames` | crates/saltator-roomserver/src/machine.rs:58-64 | between `name 0x00` and `name 0x01` there are only keys of that name |
| `ByteKeys.NameBounds` | crates/saltator-roomserver/src/machine.rs:58-64 | all keys of a name lie between its bounds |
| `ByteKeys.NameOfKey` | crates/saltator-fedout/src/lib.rs:242-256 | splitting a key at its first NUL gives back the name |
| `Views.NameScan` | crates/saltator-fedout/src/lib.rs:259-274 | a byte range between two bounds of a name lists exactly that name's rows in between, by number |
| `FedOut.EduOutbox` | crates/saltator-fedout/src/lib.rs:259-274 | the oldest rows of the destination, in seq order, at most the limit, decoded from the keys |
| `FedOut.EduDestinations` | crates/saltator-fedout/src/lib.rs:242-256 | exactly the destinations with pending rows, each once, though only the last one listed is compared |
| `FedOut.KeysGrouped` | crates/saltator-fedout/src/lib.rs:242-256 | in key order the rows of a destination are contiguous |
| `FedOut.AckedMeaning` | crates/saltator-fedout/src/lib.rs:171-177 | an ack names exactly the destination's rows up to the bound; at the largest 64-bit bound the successor wraps and it names none |
| `FedOut.AckedKeys` | crates/saltator-fedout/src/lib.rs:171-177 | the scanned keys are exactly the keys of those rows |
| `FedOut.AckRows` | crates/saltator-fedout/src/lib.rs:171-177 | deleting those a scan sees leaves the table holding exactly the other rows, the books right and every flight still good |
| `FedOut.AckSees` | crates/saltator-shard/src/app.rs:144-166 | scans do not see what the current apply call has staged: of the queued rows an ack names exactly the destination's up to the bound that were enqueued before that call; at the largest 64-bit bound none |
| `FedOut.PutRow` | crates/saltator-fedout/src/lib.rs:159-170 | one entry is one new row under its emitted seq |
| `FedOut.PutRows` | crates/saltator-fedout/src/lib.rs:159-170 | the rows are those there were and all of the new entries |
| `FedOut.TakesFlight` | crates/saltator-federation/src/delivery.rs:457-465 | every EDU for a destination up to the last seq of a batch read from the outbox is in the batch or was acknowledged |
| `FedOut.FlightsSurvive` | crates/saltator-federation/src/delivery.rs:453-495 | enqueues and acks while a transaction is under way, or that another replica has yet to apply, do not spoil that |
| `FedOut.Outbox.EnqueueEdus` | crates/saltator-fedout/src/lib.rs:159-170 | the log grows by the entries, and exactly their rows are added |
| `FedOut.Body` | crates/saltator-federation/src/delivery.rs:466-469 | what goes into a transaction is what parses of the batch, in order |
| `FedOut.ParsedMeans` | crates/saltator-federation/src/delivery.rs:466-469 | an entry is in it if and only if it is in the batch and parses |
| `FedOut.AckTally` | crates/saltator-federation/src/delivery.rs:466-485 | acknowledging an answered transaction removes rows of which exactly those that parse were carried |
| `FedOut.NothingElseLost` | crates/saltator-federation/src/delivery.rs:452-496 | each enqueued EDU is still queued or acknowledged, and an acknowledged one was carried by an answered transaction if and only if it parses |
| `FedOut.Outbox.BeginSend` | crates/saltator-federation/src/delivery.rs:453-478 | the head of the queue as scans see it is taken, as much as a transaction holds, and what parses of it is sent; nothing is sent when it is empty |
| `FedOut.Outbox.FinishSend` | crates/saltator-federation/src/delivery.rs:478-491 | an answered transaction counts as having carried its body, a failed one is dropped |
| `FedOut.Outbox.AckEdus` | crates/saltator-fedout/src/lib.rs:171-177 | however late the ack is applied and whichever replica read the batch, exactly the rows up to its last seq that a scan sees go, and the books stay right |
| `FedOut.Outbox.LoseAck` | crates/saltator-federation/src/delivery.rs:482-484 | an ack that fails leaves the rows to be sent again |
| `FedOut.Outbox.Commit` | crates/saltator-shard/src/storage.rs:530-542 | when an apply call ends all that it staged can be seen |
| `FedOut.Outbox.Relay` | crates/saltator-federation/src/delivery.rs:453-478 | a transaction that another replica has read keeps the books of this one right |
| `FedOut.UnparsedIsLost` | crates/saltator-federation/src/delivery.rs:466-485 | whatever parses, an EDU that does not is acknowledged and its row gone without being carried |
| `FedOut.StagedAckStays` | crates/saltator-fedout/src/lib.rs:171-177 | two replicas with the same log and acknowledgements: the one that applied enqueue and ack in one call still has the row |
| `Delivery.AdvanceAll` | crates/saltator-fedout/src/lib.rs:178-196 | advances in whatever order, repeated or stale, leave the cursor at the highest of where it was and all the marks |
| `Delivery.OwnersMean` | crates/saltator-federation/src/delivery.rs:375-431 | an event must go to the other servers in its room and to the server of whoever it invites or removes |
| `Delivery.FoundMeans` | crates/saltator-federation/src/delivery.rs:375-431 | a pass takes an event to be for a destination if and only if it is, the event could be read, and the room's members could be read or the event names the destination itself |
| `Delivery.DeliverTo` | crates/saltator-federation/src/delivery.rs:280-368 | chunks go strictly in order up to the first that fails; the cursor only moves up and to delivered events, and does move if the write succeeds; the result is where delivery stopped short, if it did |
| `Delivery.StartingCursorDecides` | crates/saltator-federation/src/delivery.rs:225-239 | an event is queued for a destination it was found to be for if and only if the cursor that was read is below it, or none was; the queue starts at that cursor or before the first event found |
| `Delivery.ScanBatch` | crates/saltator-federation/src/delivery.rs:209-243 | the queues hold, in order, exactly what is to be sent of the batch |
| `Delivery.FanOut` | crates/saltator-federation/src/delivery.rs:245-271 | every destination is served up to its first unanswered transaction, and nobody who is backing off; the floor is the end of the batch or where some destination that fell short got to |
| `Delivery.PassServes` | crates/saltator-federation/src/delivery.rs:245-271 | a destination acknowledges in a pass exactly its own queue up to the first transaction it does not answer, whatever the others do |
| `Delivery.PassFloor` | crates/saltator-federation/src/delivery.rs:258-272 | the floor goes exactly to the end of the batch, or to the stop of a destination that fell short |
| `Delivery.HealthyIsServed` | crates/saltator-federation/src/delivery.rs:245-271 | whoever is ready and answers gets everything of the batch |
| `Delivery.BatchMeans` | crates/saltator-federation/src/delivery.rs:198-208 | a batch is what there is above the floor, up to 256 events |
| `Delivery.HeldBack` | crates/saltator-federation/src/delivery.rs:180-273 | over any run: as long as a destination that is backing off waits for an event, nobody is sent anything from 256 events further on |
| `Delivery.SlowPeerStalls` | crates/saltator-federation/src/delivery.rs:180-273 | a run in which a healthy destination gets nothing for ever |
| `Delivery.PassDone` | crates/saltator-federation/src/delivery.rs:189-273 | a pass acknowledges only answered transactions, acknowledges whatever is to be sent and passed by the floor, a cursor or a later acknowledgement, and moves cursors up to acknowledged events only |
| `Delivery.PassExact` | crates/saltator-federation/src/delivery.rs:189-273 | exactly what a pass delivers: nothing at or below the floor, and of what the floor or a cursor passes whatever was found to be for the destination and not overtaken |
| `Delivery.LateIsOvertaken` | crates/saltator-federation/src/delivery.rs:237-239 | an event that comes due late had been passed by the destination's cursor without having come due for it |
| `Delivery.PassCaused` | crates/saltator-federation/src/delivery.rs:189-273 | what a pass records as unread or jumped it had not found, and what it records as late the cursor it read had overtaken |
| `Delivery.PassAccounts` | crates/saltator-federation/src/delivery.rs:189-273 | whatever comes due in a pass, for the destinations it truly has, is acknowledged or on record as unread or late |
| `Delivery.SteadyPass` | crates/saltator-federation/src/delivery.rs:189-273 | for a destination whose events do not change nothing comes due late, everything up to the floor and its cursor has come due, and it acknowledges in order |
| `Delivery.SteadyPassExact` | crates/saltator-federation/src/delivery.rs:189-273 | of what the floor passes for the first time, acknowledged is exactly what was before and what the event and members reads of the pass allow to find |
| `Delivery.InitialScanPos` | crates/saltator-federation/src/delivery.rs:161-172 | the least cursor of the table if it was read and shows any, else the tip, else 0 |
| `Delivery.LeadForgets` | crates/saltator-federation/src/delivery.rs:155-172 | a new leader leaves behind exactly what is owed, unacknowledged and not yet due at or below its floor; with the table read, only for destinations without a cursor |
| `Delivery.LeadCaused` | crates/saltator-federation/src/delivery.rs:155-172 | what the start of a tenure records as forgotten lies at or below its floor, for a destination without a cursor or below it in an unread table, or whose events had changed |
| `Delivery.PromiseSurvives` | crates/saltator-federation/src/delivery.rs:155-172 | a destination with a cursor loses nothing if and only if the cursor table was read or nothing is open between its cursor and the new floor |
| `Delivery.Worker.Lead` | crates/saltator-federation/src/delivery.rs:115-124 | a new tenure begins at that floor, and the books are exactly what the start of a tenure makes of them |
| `Delivery.Worker.DeliverPdus` | crates/saltator-federation/src/delivery.rs:189-273 | the books, floor and cursors are exactly what a pass makes of them, each destination served by itself, and with no failure the floor reaches the end of the batch |
| `Delivery.Worker.Turn` | crates/saltator-federation/src/delivery.rs:115-136 | a turn is a pass from the floor, or from where a new leader starts; losing leadership changes nothing durable |
| `Delivery.Promise` | crates/saltator-federation/src/delivery.rs:94-368 | in the whole life of a worker: every event up to the floor is acknowledged by each destination it had at the step that passed it, or a step is to blame (not found, too late, or a tenure began above it); for a destination whose events do not change, every event passed by floor, cursor or a later acknowledgement is acknowledged, was not found by some pass, or was left by the start of a tenure without its cursor |
| `Delivery.Run` | crates/saltator-federation/src/delivery.rs:94-368 | any turns are one turn after the other, with whatever failures, backoffs, leadership changes and changing destinations |
| `Delivery.RunsKeep` | crates/saltator-federation/src/delivery.rs:94-368 | over any run accounts and cursors only grow, nobody's events change unless some turn changes them, everything the run has added to unread, jumped, late and forgotten has its cause in a failed read, an overtaking cursor or the start of a tenure in that run, and within a tenure nothing at or below the floor is sent or forgotten |
| `Delivery.NothingSkipped` | crates/saltator-federation/src/delivery.rs:94-368 | over any run: for a destination whose events do not change, and which is remembered because the node leads all along or because it has a cursor and every new leader reads the table, every event newly passed by floor, cursor or a later acknowledgement is acknowledged, or at some turn its event or members read failed |
| `Delivery.AllDelivered` | crates/saltator-federation/src/delivery.rs:94-368 | with these reads successful it is acknowledged, and acknowledged events leave no gap |
| `Delivery.ServeTenure` | crates/saltator-federation/src/delivery.rs:94-368 | a whole tenure: nothing at or below its starting floor is sent, and for a destination whose events do not change whatever the floor passes above it was acknowledged, or at some turn its event or members read failed |
| `Delivery.LookupFailureLoses` | crates/saltator-federation/src/delivery.rs:220-223 | the floor passes an event whose lookup failed, and it is not sent |
| `Delivery.MembersFailureLoses` | crates/saltator-federation/src/delivery.rs:395-398 | so it does when the room's members could not be read; the event is on record as unread though nobody's events have changed |
| `Delivery.SecondLookupDelivers` | crates/saltator-federation/src/delivery.rs:216-243 | an event whose first lookup failed is sent when it is read again before the floor passes it |
| `Delivery.NewLeaderForgets` | crates/saltator-federation/src/delivery.rs:155-172 | a destination without a cursor loses an event to a change of leadership |
| `Delivery.UnreadTableForgets` | crates/saltator-federation/src/delivery.rs:162-171 | so does one with a cursor when the cursor table cannot be read |
| `Timeline.ReadTimeline` | crates/saltator-roomserver/src/machine.rs:1000-1012 | exactly the log after a seq, oldest first, up to the limit; asked after the largest 64-bit seq the successor wraps and it is the whole log |
| `Timeline.Replay` | crates/saltator-roomserver/src/machine.rs:131-152 | exactly the payloads emitted after a seq, up to the limit |
| `Timeline.OnlyRoomMeans` | crates/saltator-roomserver/src/machine.rs:1014-1047 | the filter keeps exactly the room's events up to the bound |
| `Timeline.WindowMeans` | crates/saltator-roomserver/src/machine.rs:1014-1047 | a window holds exactly the room's events with seqs in (after, until] |
| `Timeline.WindowShown` | crates/saltator-roomserver/src/machine.rs:1018-1047 | the byte range of the per-room index shows that window, row by row |
| `Timeline.RoomTimeline` | crates/saltator-roomserver/src/machine.rs:1014-1047 | a page is the shard's timeline filtered to the room's window, cut to the limit from the chosen end |
| `Timeline.EmitEvent` | crates/saltator-roomserver/src/machine.rs:259-305 | an emitted event keeps journal, per-room index and emitted payloads in agreement |
| `Timeline.EmitReceipt` | crates/saltator-roomserver/src/machine.rs:169-188 | so does a receipt, which the per-room index does not show |
| `RoomShard.OncePerEvent` | crates/saltator-roomserver/src/machine.rs:205-212 | no event is on the timeline twice |
| `RoomShard.ApplyAppend` | crates/saltator-roomserver/src/machine.rs:205-350 | a known event is a duplicate and changes nothing, a rejected one is only stored, an unknown room is an error, an accepted one goes last; the room's extremities are then the command's, a create event starts the record and any other leaves the rest of it; all tables stay in agreement |
| `RoomShard.ApplyReceipt` | crates/saltator-roomserver/src/machine.rs:155-203 | a repeated receipt burns no seq; a new one is one journal entry and its row |
| `RoomShard.ReceiptKeys` | crates/saltator-roomserver/src/machine.rs:155-203 | with no NUL in their names, receipts share a row exactly if they are of one room, user, kind and thread |
| `RoomShard.StoreSupport` | crates/saltator-roomserver/src/machine.rs:453-476 | supporting events already held stay as they are, the others are stored off the timeline |
| `RoomShard.OpenFrontier` | crates/saltator-roomserver/src/machine.rs:532-544 | a re-import keeps what was open and adds what is asked for and not visible |
| `RoomShard.ApplyImport` | crates/saltator-roomserver/src/machine.rs:437-571 | a join already on the timeline is a duplicate; else it goes last and is the one extremity, history index and gap markers carry over, the frontier opens, and the history stays closed |
| `RoomShard.AppendChain` | crates/saltator-roomserver/src/machine.rs:618-669 | the segment's events not yet there join the timeline in order, each once |
| `RoomShard.ApplySegment` | crates/saltator-roomserver/src/machine.rs:573-706 | an unknown room is an error; else exactly those events are appended and counted, supporting events are held, the first seq is one more gap marker of which the newest 1024 are kept, the last event one more extremity, and the history stays closed |
| `RoomShard.IndexOne` | crates/saltator-roomserver/src/machine.rs:723-766 | a visible event is noted, another is indexed and its prev events collected, an unreadable body stops the import |
| `RoomShard.Remaining` | crates/saltator-roomserver/src/machine.rs:768-785 | the new frontier is what is referenced at the edge and still missing |
| `RoomShard.ApplyHistory` | crates/saltator-roomserver/src/machine.rs:708-795 | both errors exactly when their causes are there and without effect; else exactly the batch becomes visible and keeps what was stored of it, the frontier is exactly the missing edge, and `complete` means it is empty |
| `RoomShard.HistoryStays` | crates/saltator-roomserver/src/machine.rs:155-706 | commands that index no history keep every prev event of the indexed history visible or on its room's frontier |
| `RoomShard.BatchHistory` | crates/saltator-roomserver/src/machine.rs:708-795 | so does a history import, for old and new rows of every room |
| `RoomShard.CompleteIsClosed` | crates/saltator-roomserver/src/machine.rs:785-794 | with an empty frontier the room's indexed history is closed under prev events |
| `RoomShard.IndexedIsListed` | crates/saltator-roomserver/src/machine.rs:723-766 | an event with a history index is in its room's history under it |
| `RoomShard.ExtremitiesStay` | crates/saltator-roomserver/src/machine.rs:90-795 | commands other than appends to a room and imports of it keep its extremities, version and create event |
| `RoomShard.NamedStays` | crates/saltator-roomserver/src/machine.rs:90-795 | over any run what a command has named an extremity is one until a later append or import for that room |
| `RoomShard.Shard.constructor` | crates/saltator-roomserver/src/machine.rs:83-90 | an empty shard keeps all promises |
| `RoomShard.Shard.Apply` | crates/saltator-roomserver/src/machine.rs:90-109 | every command keeps every promise, extends the log and the emitted payloads, and an error changes nothing |
| `RoomShard.Shard.RoomPage` | crates/saltator-roomserver/src/machine.rs:1014-1047 | after any run of commands a room page is the filtered shard timeline |
| `RoomShard.Shard.TimelinePage` | crates/saltator-roomserver/src/machine.rs:1000-1012 | after any run of commands the timeline is the log after a seq |
| `RoomShard.Shard.ReplayPage` | crates/saltator-roomserver/src/machine.rs:131-152 | after any run of commands replay returns exactly what was emitted |
| `Placement.DataGroups` | crates/saltator-cluster/src/placement.rs:48-60 | every room, user and federation-out group, and no other |
| `Placement.Assign` | crates/saltator-cluster/src/placement.rs:239-268 | each group is held by the heaviest nodes in order of weight, smaller ids first where weights tie: a room group by as many as the replication factor or its cap says, at least one, other groups by all |
| `Placement.TopHolds` | crates/saltator-cluster/src/placement.rs:239-285 | the holders are as many as asked for and there are, and heavier than all nodes left out |
| `Placement.BlobReplicas` | crates/saltator-cluster/src/placement.rs:275-285 | a blob is held by its top-ranked nodes, at least one |
| `Placement.PlacedIffFewOutrank` | crates/saltator-cluster/src/placement.rs:239-285 | a node is placed exactly when fewer than the wanted number outrank it |
| `Placement.JoinChurn` | crates/saltator-cluster/src/placement.rs:239-285 | a joining node is the only one inserted, displaces at most the last incumbent, and the others keep their order |
| `Placement.LeaveChurn` | crates/saltator-cluster/src/placement.rs:239-285 | leaving is that change read backwards, and undoes it |
| `Placement.AssignChurn` | crates/saltator-cluster/src/placement.rs:239-268 | the same for each group of an assignment, whose wanted number may itself depend on the node count |
| `Placement.PlanTouchesOneNode` | crates/saltator-cluster/src/placement.rs:114-194 | an accepted roster request changes the placement targets by at most its node |
| `Placement.PlanRefusals` | crates/saltator-cluster/src/placement.rs:114-200 | a request is refused exactly for an unknown node, for the last active one, or when removing what was not drained |
| `Placement.PlanEffects` | crates/saltator-cluster/src/placement.rs:114-200 | an accepted request leaves all other nodes, and its node with the status asked for |
| `Placement.AlwaysATarget` | crates/saltator-cluster/src/placement.rs:114-194 | no run of roster requests leaves the cluster without a placement target |
| `Liveness.Tracker.Observe` | crates/saltator-cluster/src/liveness.rs:75-113 | a node is condemned exactly when its unbroken failures while active span the grace period, and pardoned exactly on the third answer of an unbroken run while unreachable |
| `Liveness.Tracker.Forget` | crates/saltator-cluster/src/liveness.rs:71-73 | forgetting breaks every run |
| `Liveness.Tracker.RetainRoster` | crates/saltator-cluster/src/liveness.rs:116-118 | leaving the roster breaks the node's run and no other |
| `Liveness.FailStartMeaning` | crates/saltator-cluster/src/liveness.rs:75-113 | the remembered start is that of the earliest failure of the unbroken run |
| `Liveness.AnswerCountMeaning` | crates/saltator-cluster/src/liveness.rs:75-113 | the remembered count is above one exactly when the unbroken run holds two answers |
| `Liveness.JudgedWhenDue` | crates/saltator-cluster/src/liveness.rs:75-113 | the verdict computed from start and count is the one the whole trace calls for |

## Left out

- Raft, the storage engine and read snapshots: a committed log, ordered tables per shard and `emit` giving the next seq are taken as given; a command sees its own staged writes and an error discards them, and apart from the ack of EDUs no modelled command scans a table.
- Signatures, hashing, canonical JSON, redaction, identifier syntax and integer parsing: function parameters of the rules (`PowerLevels.Primitives`), so results hold for every choice of them.
- Rejection reasons and rule tags: the authorization rules are modelled as verdicts.
- TwoCreates.AnyFounders: create events that name somebody else than their sender as creator, as versions 8 to 10 allow; `CreatorsTell.AnyTwo` covers those.
- CreatorsTell.AnyTwo: create events in version 12, whose rooms have only one.
- Membership, join-rule and event-type strings are read into datatypes first; an unknown string becomes a value of its own.
- Fetching events is a finite map; acyclicity of auth events is a precondition, as the original does not terminate without it (the conflicted subgraph needs none).
- StateRes.Resolve: when several events are missing it does not say which of them the error names.
- Subscriptions are a step machine on values, one step per await point, because two tasks and a network interleave; refusals at accept time, channel caches and replica preference are not modelled, and the broadcast is weaker than the real one (any order, any omission).
- Outbound delivery serves destinations one after the other in any order; the original's bounded concurrency adds nothing, since destinations share no state within a pass.
- Delivery.Run: one leader at a time; two nodes that both take themselves for the leader are not modelled.
- The backoff table is an arbitrary readiness answer per pass; its doubling waits are not modelled.
- Byte keys of cursors, appservice cursors, the drain marker and the monotone writes to them beside the PDU cursor.
- State groups, redaction directives and client-transaction records of the room shard.
- RoomShard.ApplyAppend: a create event is not appended to a room with backfilled history, where it would start the record and the history indexes over; event ids determine room and body, as the pipeline before it guarantees.
- 64-bit counters are not exhausted: commands require the seq and history counters to have room left.
- Uniqueness of history rows: a segment may put a history-indexed event on the timeline and leave its history row.
- Rendezvous weights are an arbitrary function with ties by node id; the mixing constants are not modelled.
- Parsing of ACL content, ports and IP literals in server names, rate limits, presence, typing, HTTP, TLS, DNS and web code.
