# RelayPoint: verified models of its log and projection protocols

RelayPoint carries interactions over replicated logs. This project models its
five protocols in Dafny and proves what they keep in every run: under any
number of concurrent processes, lost acknowledgements, redeliveries, crashes
and stale caches.

| protocol | source | files |
|---|---|---|
| router log | internal/signaling | Admission, Membership, ParticipationView, ResultCache, RouterLog, RouterMachine, RouterBase, RouterSafety, RouterPayload, RouterOnce, RouterTheorems, RouterRuns, RouterCast, RouterLimits, RouterMembers, RouterReplies, LogStore, RouterNode |
| fan-out projector and its lease | internal/projector | Fanout, Lease |
| router and projector together | internal/signaling, internal/projector | Pipeline |
| route projection | internal/routeprojection, internal/deliverypg/projection.go | Ledgers, RouteProjection, RouteMachine, RouteSafety, RouteTheorems, RouteTruth, RouteStalls, RouteStore |
| participation projection | internal/participation, internal/participationpg | Ledgers, ParticipationTables, ParticipationMachine, ParticipationSafety, ParticipationTheorems, ParticipationTruth, ParticipationStalls, ParticipationStore |
| delivery outbox | internal/deliverypg/store.go, internal/delivery | Outbox |
| client delivery | clients/typescript/src | ClientDelivery |

Encoding holds the byte-level identifiers that several of them use.

## How the models are built

Where many processes meet (routers on one stream, projectors on one database)
the model is a state machine: a `Step` datatype, a total `Apply`, and `Run`,
which folds any list of steps. A step that is not enabled does nothing, so a
theorem about `Run` is a theorem about every interleaving. In the router one
step is one broker exchange; in the projections every writing transaction is a
step, and so is every statement of a read, because the transactions are read
committed: a head row and the rows belonging to it may be read on two sides of
another process's commit. Router and authority answers are arbitrary inputs.

Where one process updates its own fields, the model is a class with the
source's loops, proved against the functions the machines use: the participation
view with its aliased interval slices, the bounded result cache, the append loop
of HandleCommand against other writers, the log replay that catches up with a
moving stream, the projector, the fence, the table transactions row by row, the
outbox, and the client's recovery cut at its await points.

Digests are modelled by their preimages where the source frames the preimage
itself, and by a collision-free function where it hashes a protobuf encoding.

Names used below. A *derived id* is the command id `parent:type:agent` the
router makes up for a participation fact. *OCC first* is a broker that checks
the expected last sequence before it looks for a duplicate id. A run records,
as a *mark* with subject and fact, each time the code took one of four paths on
which it takes less care: a participation append answered "duplicate", an append
error reconciled from the log, a duplicate accepted because the log could not be
read, a duplicate accepted because its result was no longer remembered.

## What turned out to need a condition

Each of these is proved both ways. The conditions are about one subject and about
what callers may do with ids: a policy is any set of ids that the callers keep
apart, and the theorems say which ids that set has to contain. They hold for every
cache size the router can be built with. The failing runs keep one set of facts per
parent command id, so the check that the router makes of that
(internal/signaling/router.go:570-581) would not stop them.

- A log's life cycle (one start, first; nothing after an end) holds in every run
  if and only if the broker is OCC first or no end may bear a derived id
  (`RouterLimits.LifecycleIffEndsKept`, `RouterLimits.LifecycleIffOccFirst`). In the
  failing run a client's end takes a derived id, and a state cached before the end
  takes the end's sequence for its own fact's and writes on
  (`RouterLimits.WritesAfterEnd`).
- Strictly rising sequences hold in every run if and only if the broker is OCC first
  or every derived id is submitted once (`RouterLimits.RisingIffMovesOnce`,
  `RouterLimits.RisingIffOccFirst`; the failing run is 1, 2, 3, 3).
- Dense sequences hold in every run if and only if every derived id is submitted
  once, on either broker (`RouterLimits.DenseIffMovesOnce`): the code discards the
  "duplicate" flag of a participation append and counts the fact again, so no
  configuration gives them by itself (`RouterLimits.EveryConfigurationSkipsASequence`).
- On an OCC-first broker only members write if and only if no append error is
  reconciled and the id derived for every join of an agent that can write is kept for
  that join (`RouterMembers.MembersIffJoinsKept`). For every subject, parent and agent,
  one other command with that id is enough (`RouterMembers.OneCollisionIsEnough`); and
  after an append error the router refreshes sequence, token and status of the cached
  state but not its membership, so an agent that left writes although every id was
  used with care (`RouterMembers.DepartedWrites`).
- On the other broker only members write if and only if no append error is reconciled
  and every derived id is submitted once (`RouterMembers.MembersIffMovesOnce`): a move
  driven again makes a stale state pass for current (`RouterMembers.StaleWrites`).
- Every accepted command is logged with its very tenant, actor, type, medium, reference
  and data if and only if none of the four marked paths may be taken
  (`RouterReplies.VouchedIffNothingSkipped`); each of them alone lets a command with
  other contents be accepted (`RouterReplies.EachPathAccepts`). The exception is as
  narrow as the fact: an accepted fact that took none of them itself is logged in full,
  whatever happened to others (`RouterPayload.AcceptedPayloadIsLogged`). What callers can
  do about it: the same holds, whatever paths are taken, if and only if they never give
  one id two contents (`RouterReplies.VouchedIffPayloadsAgree`). That a fact of that id
  is in the log holds always.
- A reconcile of an interaction can start if and only if no pending intent of it was
  overtaken, that is, observed a version below the present head
  (`ParticipationStalls.CanStartIffNotOvertaken`,
  `RouteStalls.CanStartIffNotOvertaken`). An intent is overtaken when a fact that follows
  the head is installed while the intent is pending; then it can be neither joined nor
  closed, so no reconcile of that interaction starts or finishes in any continuation
  (`StalledForever` in both). Two facts that arrive out of order at two projectors are
  enough (`OutOfOrderStalls` in both).
- Two route facts have one digest if and only if they differ at most in the lease time
  and those lease times are equal modulo 2^64 nanoseconds
  (`RouteProjection.PreimageIff`): where lease times fit int64 the digest is injective
  (`RouteProjection.PreimageInjective`), and beyond that it is not
  (`RouteProjection.PreimageWraps`).
- The renewal budget stays below the fencing slack for every configuration, even
  where `slack * 9` wraps; an attempt gets positive time exactly if the wrapped
  nine tenths are positive (`Lease.RoundFitsSlack`).

Comments in internal/signaling/router.go say a loser of the optimistic append
retries once; the code retries up to `maxRefold` times, and so does the model.

## Model

| member | source | states |
|---|---|---|
| Encoding.FramesInjective | internal/signaling/router.go:168-184 | two lists of hash parts with the same length-prefixed preimage are the same list |
| Encoding.CommandDedupIdInjective | internal/signaling/router.go:409-410 | with dot-free tenant and interaction, `tenant.iid.command_id` determines all three |
| Encoding.FeedDedupIdInjective | internal/projector/projector.go:438-478 | feed deduplication ids of facts and leave tombstones determine tenant, agent, interaction, sequence and kind |
| Admission.ParseInvertsFormat | internal/signaling/router.go:707-716 | a subject that parses is the formatting of its three tokens, which are dot-free |
| Admission.FormatInvertsParse | internal/signaling/router.go:707-716 | every triple of nonempty dot-free tokens is parsed back from its subject |
| Admission.HashPayloadInjective | internal/signaling/router.go:168-184 | equal payload hashes mean equal tenant, actor, type, medium, reference and data |
| Admission.AdmittedIsSane | internal/signaling/router.go:291-354 | admission lets participation facts through only for the trusted backend, binds a gated writer to its authenticated name, and yields one fact or a join followed by a leave with distinct ids |
| Admission.SubIdsDiffer | internal/signaling/router.go:559-562 | the two derived ids of a transfer never coincide |
| Admission.AdmittedItems | internal/signaling/router.go:168-184 | each fact of an admitted command carries the payload it was sent with and that payload's hash, and a participation fact the id derived from parent, type and agent |
| Membership.ApplyKeepsOrder | internal/signaling/participation.go:29-69 | a fact above all endpoints keeps every agent's intervals sorted, disjoint and only the last possibly open |
| Membership.FoldOrdered | internal/signaling/participation.go:16-69 | so does folding any log of rising sequences |
| Membership.ApplyIdempotent | internal/signaling/participation.go:29-69 | applying the same fact again on redelivery changes nothing |
| Membership.MemberAfter | internal/signaling/participation.go:29-77 | after a fact an agent is a member exactly if it joined just now, or was one and did not leave just now |
| Membership.FoldFromSplits | internal/signaling/participation.go:16-22 | folding a log in two parts is folding it whole |
| Membership.RecipientsAreMembersAround | internal/projector/projector.go:520-531 | the agents whose intervals cover a fact are the members just before it and the members just after it, no others |
| ParticipationViews.ParticipationView.Open | internal/signaling/participation.go:53-59 | opening leaves the agent's intervals as the value-level fold says, in a new slice, and every other agent's alone |
| ParticipationViews.ParticipationView.Close | internal/signaling/participation.go:61-69 | the scan from the end overwrites in place exactly the interval the value-level fold closes |
| ParticipationViews.ParticipationView.ApplyFact | internal/signaling/participation.go:29-36 | the view's contents move exactly as the value-level fold |
| ParticipationViews.ParticipationView.Intervals | internal/signaling/participation.go:79-85 | returns a copy that later folding cannot reach |
| ParticipationViews.ParticipationView.SetIntervals | internal/signaling/participation.go:46-51 | installs a copy, so the caller's slice stays its own; an empty one is ignored |
| ParticipationViews.ParticipationView.Restore | internal/projector/projector.go:68-78 | restoring any snapshot gives exactly its agents that have an interval, in slices of its own |
| ParticipationViews.FoldParticipation | internal/signaling/participation.go:16-22 | the loop computes the fold of the whole log |
| ParticipationViews.SnapshotThenFold | internal/projector/projector.go:56-66 | whatever is folded after a snapshot was taken, the snapshot still holds the contents of the moment |
| ResultCache.PutIsBoundedFifo | internal/signaling/router.go:60-73 | map and queue stay in step, the queue is the newest `max` ids ever queued, and no other result changes |
| ResultCache.CopyMissingMerges | internal/signaling/router.go:75-88 | merging a rebuilt cache keeps both in step and bounded, and every entry comes from one of the two |
| ResultCache.CopyMissingKeepsOrder | internal/signaling/router.go:75-88 | the merged queue is the old one followed by the ids taken over, in the rebuilt order, cut to the newest `max` |
| ResultCache.MissingSurvives | internal/signaling/router.go:75-88 | every entry the old cache lacked is there after the merge, with the rebuilt value |
| ResultCache.Results.PutResult | internal/signaling/router.go:63-73 | the eviction loop computes the bounded FIFO |
| ResultCache.Results.CopyMissingResults | internal/signaling/router.go:78-88 | the loop merges in chronological order, as specified |
| ResultCache.StateTable.PruneLocked | internal/signaling/router.go:227-249 | no idle entry stays, the size bound holds, no entry stays that was used before one the size bound evicted, and the freshest entry stays |
| RouterLog.OthersUnaffected | internal/signaling/router.go:47-58 | what a cached state claims about the log survives any append by anyone: on its own subject its token stops being current |
| RouterLog.RebuildSound | internal/signaling/router.go:251-280 | a rebuild represents the whole subject log: token, status, sequence, membership, and every cached result is in the log with its payload |
| RouterBase.BaseAlways | internal/signaling/router.go:282-699 | in every run entries come from admitted commands, no deduplication id is stored twice, cached acceptances are backed by the log, and each cached state has at most one holder |
| RouterSafety.CommitGood | internal/signaling/router.go:401-471 | an append that passes the optimistic check was prepared from the whole log, so the new entry and the advanced state both keep each guarantee |
| RouterSafety.DuplicateGood | internal/signaling/router.go:660-693 | which guarantees survive taking a "duplicate" answer for a participation fact as a commit |
| RouterSafety.ClaimAlways | internal/signaling/router.go:356-479 | each of four guarantees about a subject (life cycle, dense, rising, membership) holds in every run in which that subject's own history meets its condition |
| RouterTheorems.LogLifecycle | internal/signaling/router.go:147-166 | each subject's log begins with its only start and nothing follows an end: OCC first, or none of the subject's participation appends answered "duplicate", or none of its ends bearing a derived id |
| RouterTheorems.SequencesDense | internal/signaling/router.go:401-471 | a subject's sequences are exactly 1, 2, 3, ... unless one of its own participation appends was answered "duplicate" |
| RouterTheorems.SequencesRise | internal/signaling/router.go:251-280 | on an OCC-first broker a subject's sequences strictly increase in every run; on the other, unless one of its own participation appends was answered "duplicate" |
| RouterTheorems.WritersAreMembers | internal/signaling/router.go:353-426 | each fact written on a subject for an authenticated caller other than the backend, except a start, sits where its actor has an open interval, even when a leave races with it, under a condition on that subject's history alone |
| RouterTheorems.NoPhantomAcceptance | internal/signaling/router.go:377-478 | whatever was answered accepted has every one of its facts in that subject's log, once |
| RouterPayload.AcceptedPayloadIsLogged | internal/signaling/router.go:446-466 | and with its very tenant, actor, type, medium, reference and data, unless that fact itself took a path that skips the comparison |
| RouterOnce.LonelyAlways | internal/signaling/router.go:660-693 | in every run a participation append is answered "duplicate" only if its id was submitted more than once |
| RouterTheorems.TransferOnceInOrder | internal/signaling/router.go:517-616 | a transfer driven any number of times, failing anywhere, yields at most one join and one leave, the join earlier |
| RouterLimits.WritesAfterEnd | internal/signaling/router.go:660-693 | for every subject, parent, agent and kind of move, a run on a broker that looks for duplicates first in which the log goes on after an end, no move but that one being sent |
| RouterLimits.LifecycleIffEndsKept | internal/signaling/router.go:660-693 | every run keeps the subject's life cycle if and only if the broker is OCC first or the callers keep every derived id off ends |
| RouterLimits.LifecycleIffOccFirst | internal/signaling/store.go:31-35 | every run keeps the life cycle of every log if and only if the broker is OCC first |
| RouterLimits.RepeatsASequence | internal/signaling/router.go:688-691 | for every move, a run on a broker that looks for duplicates first whose sequences are 1, 2, 3, 3 |
| RouterLimits.RisingIffMovesOnce | internal/signaling/router.go:688-691 | sequences rise in every run if and only if the broker is OCC first or the callers submit every derived id once |
| RouterLimits.RisingIffOccFirst | internal/signaling/store.go:31-35 | every run of every subject has rising sequences if and only if the broker is OCC first |
| RouterLimits.OnceIsClear | internal/signaling/router.go:660-693 | if every derived id is submitted once, no participation append is answered "duplicate" |
| RouterLimits.SkipsASequence | internal/signaling/router.go:688-691 | for every move, broker and cache size, a run in which the third fact is number 4 |
| RouterLimits.DenseIffMovesOnce | internal/signaling/router.go:688-691 | sequences are 1, 2, 3, ... in every run if and only if the callers submit every derived id once |
| RouterLimits.EveryConfigurationSkipsASequence | internal/signaling/router.go:108-122 | no configuration the router can be built with gives dense sequences by itself |
| RouterMembers.StrangerWrites | internal/signaling/router.go:660-693 | a run, OCC first and free of append errors, in which the cast's agent writes on the cast's subject without ever having joined, and no id but the one derived for its join is submitted twice |
| RouterMembers.OneCollisionIsEnough | internal/signaling/router.go:559-562 | for every subject, parent and agent: one other command bearing the id derived for that join is enough for the agent to write without being a member |
| RouterMembers.EveryConfigurationAdmitsAStranger | internal/signaling/router.go:108-122 | no OCC-first configuration the router can be built with gives the membership guarantee by itself, and what the violating run breaks is the id condition |
| RouterMembers.DepartedWrites | internal/signaling/router.go:427-441 | on any broker and configuration, with every id used with care and only append errors reconciled, a run in which an agent writes after leaving |
| RouterMembers.StaleWrites | internal/signaling/router.go:660-693 | for every move, a run on a broker that looks for duplicates first, free of append errors, in which another agent writes after leaving and no id but that move's is submitted twice |
| RouterMembers.MembersIffJoinsKept | internal/signaling/router.go:353-441 | OCC first: only members write in every run if and only if no append error is reconciled and the callers keep the id derived for every join of an agent that can write for that join |
| RouterMembers.MembersIffMovesOnce | internal/signaling/router.go:353-441 | duplicates first: only members write in every run if and only if no append error is reconciled and the callers submit every derived id once |
| RouterReplies.AcceptsAfterError | internal/signaling/router.go:427-441 | a run whose only mark is a reconciled append error accepts contents that are not the logged ones |
| RouterReplies.AcceptsWithoutReading | internal/signaling/router.go:446-455 | so does one whose only mark is a duplicate whose log could not be read |
| RouterReplies.AcceptsForgottenContents | internal/signaling/router.go:456-466 | so does one whose only mark is a duplicate no longer remembered, for every cache size |
| RouterReplies.AcceptsAfterMove | internal/signaling/router.go:688-693 | so does one whose only mark is a participation append answered "duplicate" |
| RouterReplies.EachPathAccepts | internal/signaling/router.go:427-466 | for every subject and every one of the four paths there is such a run |
| RouterReplies.VouchedIffNothingSkipped | internal/signaling/router.go:427-466 | every accepted command of a subject is logged in full in every run if and only if none of the four paths may be taken on it |
| RouterReplies.AgreeingIsVouched | internal/signaling/router.go:427-466 | whatever paths a run took, if no id of the subject was given two contents, every accepted command is logged in full |
| RouterReplies.VouchedIffPayloadsAgree | internal/signaling/router.go:427-466 | every accepted command of a subject is logged in full in every run if and only if the callers give each of its ids one contents |
| LogStores.LogStore.Append | internal/signaling/store.go:44-59 | the stored stream and the answer for each check order and each fate of the acknowledgement |
| LogStores.LogStore.Replay | internal/signaling/store.go:61-106 | the catch-up loop ends, and a result is exactly the subject's log at the last look, with its last sequence as token |
| LogStores.LogStore.ReadBatch | internal/signaling/store.go:80-103 | one fetch reads on without a gap, or reports an error |
| LogStores.LogStore.CatchUp | internal/signaling/store.go:80-103 | fetching up to a sequence ends, and a success has read the subject's log without a gap at least that far while others kept writing |
| RouterNode.InteractionState.FromLog | internal/signaling/router.go:251-280 | one pass over the facts computes greatest sequence, status, membership and bounded results of the whole log |
| RouterNode.InteractionState.Check | internal/signaling/router.go:376-399 | the loop's checks decide as specified, and only a refused transition is remembered |
| RouterNode.InteractionState.Try | internal/signaling/router.go:376-410 | whatever others write and whatever the broker answers, the state still stands right to a good stream, and a commit leaves the advanced state standing right |
| RouterNode.InteractionState.Refold | internal/signaling/router.go:411-426 | a lost race ends in a state re-folded from the log or given up |
| RouterNode.InteractionState.ReconcileError | internal/signaling/router.go:427-441 | an append error is accepted only for a fact found in the log; otherwise the state is given up |
| RouterNode.InteractionState.ReconcileDuplicate | internal/signaling/router.go:446-466 | a duplicate's fact is in the log, and the state stands right or is given up |
| RouterNode.InteractionState.HandleCommand | internal/signaling/router.go:356-479 | the whole loop against arbitrary other writers: the stream stays good, an accepted command is in it, the state stands right unless an append error left its membership old, and an untrusted state is evicted |
| RouterNode.InteractionState.Publish | internal/signaling/router.go:401-410 | the fact sent is the one prepared from this state; whatever the answer the state still stands right |
| RouterNode.InteractionState.CheckFactNow | internal/signaling/router.go:644-659 | the checks before a participation fact decide as specified and remember nothing |
| RouterNode.InteractionState.AppendParticipationFact | internal/signaling/router.go:628-699 | the loop against arbitrary other writers: accepted means in the log, an append error gives the state up, and the state stands right unless the broker answered "duplicate" |
| Fanout.RefoldTracks | internal/projector/projector.go:377-397 | folding the fact in flight again leaves the memory equal to the fold from the start |
| Fanout.RecipientsAreMembers | internal/projector/projector.go:396-397 | the recipients picked for a fact are the members just before and just after it |
| Fanout.IdsNeverCollide | internal/projector/projector.go:432-479 | two messages that facts call for and that share a deduplication id are one message |
| Fanout.Projector.Hydrate | internal/projector/projector.go:353-375 | from any saved snapshot, the rebuilt memory equals folding all acknowledged facts from the start, for every real interaction |
| Fanout.Projector.PublishWithRetry | internal/projector/projector.go:451-467 | success means the message is stored; lost acks store nothing twice |
| Fanout.Projector.FanOut | internal/projector/projector.go:432-449 | success means every recipient's feed holds the fact; failure adds nothing but called-for messages |
| Fanout.Projector.Process | internal/projector/projector.go:377-429 | a delivery acknowledges only a settled fact, nothing stored or dead-lettered is taken back, and the instance ends exactly on an error under a live context |
| Fanout.Projector.DlqOrNak | internal/projector/projector.go:487-506 | a fact is dead-lettered exactly when its deliveries are used up and the DLQ is up, and only then acknowledged |
| Fanout.Projector.AckAndSnapshot | internal/projector/projector.go:418-429 | only a fully published fact is acknowledged; the floor moves exactly if the acknowledgement arrived, an error under a cancelled context lets the instance go on, and the snapshot saved is the fold up to the new floor |
| Fanout.Projector.Ack | internal/projector/projector.go:422-427 | what the floor, the memory and the instance are after each fate of an acknowledgement |
| Fanout.Drive | internal/projector/projector.go:142-178 | any schedule of crashes, takeovers, failures and redeliveries keeps all of this |
| Fanout.AckedFactIsInEveryFeedOnce | internal/projector/projector.go:377-506 | an acknowledged fact is dead-lettered or exactly once in the feed of each member just before or after it, with exactly one tombstone if it is a leave |
| Fanout.NoStrayMessage | internal/projector/projector.go:432-479 | every message of every feed is explained by exactly one fact: a fact for a member around it, a tombstone for the agent whose leave it is |
| Pipeline.RouterLogIsOk | internal/projector/projector.go:353-397 | the stream of any number of routers is a log the projector can rely on, on an OCC-first broker in every run and on the other in every run in which no participation append was answered "duplicate" |
| Pipeline.SameMembership | internal/projector/projector.go:391-397 | after any number of facts the projector's membership of an interaction is the router's own fold of its log |
| Pipeline.Project | internal/projector/projector.go:142-178 | end to end: over any such run of the routers and any schedule of the projector, an acknowledged fact is dead-lettered or exactly once in the feed of each agent whom the router's log makes a member around it, with exactly one tombstone for an agent whose leave it is; and no feed holds a message that the router's log does not call for |
| Lease.DefaultsLeaveSlack | internal/projector/projector.go:93-122 | for every configuration the renew interval ends up below the TTL |
| Lease.RoundFitsSlack | internal/projector/projector.go:226-241 | attempts and backoffs together stay strictly below TTL minus renew interval, wrapped products included, and when an attempt gets time |
| Lease.Fence.AtMostOneRuns | internal/projector/projector.go:244-255 | at most one data context runs, and none while paused or lost |
| Lease.Fence.BeginOnce | internal/projector/projector.go:257-280 | begin exits, blocks on the current wakeup, or starts the only running context |
| Lease.Fence.Pause | internal/projector/projector.go:282-292 | no context runs after a pause |
| Lease.Fence.Resume | internal/projector/projector.go:294-303 | every begin that blocked is released |
| Lease.Fence.Fail | internal/projector/projector.go:305-317 | lost for good: nothing runs, every blocked begin is released |
| Lease.Fence.ShutDown | internal/projector/projector.go:142-178 | when the parent context ends nothing runs and every blocked begin wakes |
| Lease.Fence.Meanwhile | internal/projector/projector.go:157-177 | any turns of the data loop and a shutdown, in any order: nothing starts while paused, lost or shut down |
| Lease.Fence.RenewWithRetry | internal/projector/projector.go:200-224 | with begins and a shutdown between and during the attempts: a round ends resumed, stopped, or with nothing running after every attempt failed, within the round time |
| Lease.Fence.Tick | internal/projector/projector.go:180-198 | a round ends in resume, shutdown or fail strictly within one TTL of the last successful renew's return; a shutdown is never taken for a loss |
| Lease.Fence.RenewLoop | internal/projector/projector.go:180-198 | over any number of ticks every round ends in time, the loop stops early only at a shutdown or a loss, and no blocked begin is left behind |
| Ledgers.InsertKeeps | internal/deliverypg/projection.go:317-332 | inserting both rows keeps version and event ledger naming each other, adding that identity alone |
| Ledgers.EventOnce | internal/deliverypg/projection.go:317-332 | an event is in the ledger under one version only |
| RouteProjection.PreimageDetermines | internal/routeprojection/projector.go:394-419 | equal digests mean equal facts up to the lease time modulo 2^64 |
| RouteProjection.PreimageInjective | internal/routeprojection/projector.go:394-419 | facts whose lease times fit int64 nanoseconds are told apart by their digests |
| RouteProjection.PreimageWraps | internal/routeprojection/projector.go:408-409 | lease times 2^64 nanoseconds apart are not |
| RouteProjection.PreimageIff | internal/routeprojection/projector.go:394-419 | two facts have one digest if and only if they agree but for the lease time and their lease times agree modulo 2^64 nanoseconds |
| RouteProjection.CodecIsFaithful | internal/routeprojection/projector.go:394-419 | the code's digest meets both assumptions the theorems make of a codec: it fixes interaction and version, as the historical path relies on, and is never the zero hash of an empty head |
| RouteProjection.FoldSplits | internal/routeprojection/projector.go:361-392 | folding a batch may be cut anywhere |
| RouteProjection.FoldIffDense | internal/routeprojection/projector.go:361-392 | a batch folds exactly if its facts are valid, of one interaction, and continue the version without a gap |
| RouteProjection.FoldEnds | internal/routeprojection/projector.go:372-390 | the last fact alone decides identity and visibility |
| RouteProjection.FoldBatch | internal/routeprojection/projector.go:361-392 | the loop computes the fold |
| RouteSafety.InstallKeeps | internal/deliverypg/projection.go:112-151 | installing a folded batch keeps the tables consistent, rewrites nothing, and retains the held fact |
| RouteSafety.HistoricalKeeps | internal/deliverypg/projection.go:197-222 | so does recording an older fact's identity |
| RouteSafety.SnapshotKeeps | internal/deliverypg/projection.go:224-295 | so does a snapshot, which can only raise the version |
| RouteSafety.BeginKeeps | internal/deliverypg/projection.go:153-195 | an interaction never has two pending intents, and a joined intent asks for the same |
| RouteStore.Store.InstallBatch | internal/deliverypg/projection.go:112-151 | row by row with rollback, the transaction is the specified one |
| RouteStore.Store.InstallHistoricalIdentity | internal/deliverypg/projection.go:197-222 | statement by statement the transaction is the specified one, and rewrites nothing |
| RouteStore.Store.InstallSnapshotAndAudit | internal/deliverypg/projection.go:224-295 | statement by statement the transaction is the specified one; a repeated version or event rolls the head back too |
| RouteStore.Store.BeginReconcile | internal/deliverypg/projection.go:153-195 | the lookup finds the one pending intent if there is one |
| RouteStore.ValidateAuthorizationBindings | internal/routeprojection/projector.go:296-310 | the loop accepts exactly the batches whose ringing facts are all bound |
| RouteStore.HoldsFact | internal/routeprojection/projector.go:275-283 | the loop finds exactly whether the replay contains the held fact |
| RouteTheorems.FoldedIsInstallable | internal/routeprojection/projector.go:190-203 | a folded and bound batch meets everything the install relies on |
| RouteTheorems.LedgerAgreesWithHead | internal/deliverypg/projection.go:112-344 | with any router: no ledger version above the head, the head's own row carries its event and digest, both ledgers agree, at most one pending intent |
| RouteTheorems.WriteOnce | internal/deliverypg/projection.go:112-295 | between any two points of a run no ledger row is rewritten, an intent leaves pending once, and a head changes only to a higher version |
| RouteTheorems.AnsweredIsRetained | internal/routeprojection/projector.go:165-204 | a fact answered applied or duplicate is in the ledger with its identity; an audited one is in the DLQ |
| RouteTheorems.OneEventOneFact | internal/deliverypg/projection.go:317-332 | in every run, within a tenant, two settled facts share an event exactly if they share interaction and version, and then they share the digest |
| RouteTheorems.VisibleIsBound | internal/routeprojection/projector.go:206-215 | Visible is true only for a head of its own generation, inside its lease, bound to a stored authorization of that interaction and receipt |
| RouteTruth.AtSplits | internal/routeprojection/projector.go:361-392 | any stretch of a history carries one projection to the next |
| RouteTruth.HeadIsFoldOfHistory | internal/routeprojection/projector.go:165-334 | with facts, replays and snapshots from one history, the stored head is always the fold of the history up to its version, and nothing is ever poisoned |
| RouteTruth.VisibleIffRinging | internal/routeprojection/projector.go:206-215 | then an interaction shows exactly while its last projected fact rings |
| RouteStalls.StalledForever | internal/deliverypg/projection.go:153-195 | once a pending intent observed less than the head, it stays pending and no intent of that interaction is started, closed or changed in any continuation |
| RouteStalls.CanStartIffNotOvertaken | internal/deliverypg/projection.go:153-195 | in every run a reconcile of an interaction can start or be joined if and only if none of its pending intents was overtaken by the head |
| RouteStalls.OutOfOrderStalls | internal/routeprojection/projector.go:165-334 | for any two facts of an interaction, the first of its history and a later one, some run of two projectors ends where no reconcile of it can start in any continuation |
| ParticipationTables.FoldSplits | internal/participation/projector.go:288-309 | folding records may be cut anywhere |
| ParticipationTables.FoldIffConsecutive | internal/participation/projector.go:288-309 | records fold exactly if they continue the fold, and the result ends in the last one |
| ParticipationTables.FoldRecords | internal/participation/projector.go:288-309 | the loop computes the fold |
| ParticipationTables.ValidateReplay | internal/participation/projector.go:311-340 | the loops accept exactly the replays that are complete, of this interaction, end in the authority's head if they reach it, and contain the held command |
| ParticipationSafety.RowsFollowFold | internal/participationpg/store.go:393-425 | upserts and deletes leave exactly the folded participants, and other interactions alone |
| ParticipationSafety.InstallKeeps | internal/participationpg/store.go:57-71 | on top of the loaded fold the tables then say exactly what was folded, to the last column |
| ParticipationSafety.SnapshotKeeps | internal/participationpg/store.go:164-223 | a snapshot leaves exactly its participants and can only raise the version |
| ParticipationSafety.CompleteKeeps | internal/participationpg/store.go:449-461 | closing an intent releases its own held command and no other's |
| ParticipationSafety.FailKeeps | internal/participationpg/store.go:232-273 | the held command is always found waiting, and is given up at exactly its third failure |
| ParticipationSafety.BeginKeeps | internal/participationpg/store.go:73-124 | a started or joined intent is the proposed one up to its token |
| ParticipationStore.Store.InstallRecords | internal/participationpg/store.go:393-425 | the loop of inserts, upserts and deletes is the specified transaction |
| ParticipationStore.Store.Install | internal/participationpg/store.go:57-71 | compare-and-set with rollback; on the stored fold the result is the purely folded state |
| ParticipationStore.Store.InstallReconcile | internal/participationpg/store.go:126-143 | a replayed batch under the intent's lock is the specified transaction |
| ParticipationStore.Store.InstallHistorical | internal/participationpg/store.go:145-162 | so is recording an older command |
| ParticipationStore.Store.InstallSnapshot | internal/participationpg/store.go:164-223 | so is a snapshot, rows rolled back if its ledger rows exist |
| ParticipationStore.Store.BeginReconcile | internal/participationpg/store.go:73-124 | the lookup finds the one pending intent if there is one |
| ParticipationStore.Store.ReplaceRows | internal/participationpg/store.go:171-186 | deleting and inserting in any order leaves the snapshot's rows |
| ParticipationStore.Store.FailReconcile | internal/participationpg/store.go:232-273 | counting and giving up are the specified transaction |
| ParticipationTheorems.ReadStep | internal/participationpg/store.go:319-359 | a fold read in two statements is the stored one whenever its version still is |
| ParticipationTheorems.TableIsPureFold | internal/participation/projector.go:130-260 | in every run head row and participants table equal the pure fold of the committed batches, snapshots replacing, though projectors lose races and read torn |
| ParticipationTheorems.TablesAgree | internal/participationpg/store.go:57-273 | ledger and head agree, each participant's row names a ledger entry, at most one intent is pending and it keeps its command waiting |
| ParticipationTheorems.WriteOnce | internal/participationpg/store.go:57-273 | no ledger row is rewritten, intents leave pending once, a fold changes only to a higher version |
| ParticipationTheorems.AnsweredIsRetained | internal/participation/projector.go:130-228 | a command answered applied or duplicate is in the ledger with its identity |
| ParticipationTheorems.OneEventOneCommand | internal/participationpg/store.go:57-273 | in every run, within a tenant, two settled commands share an event exactly if they share interaction and version, and then the whole identity |
| ParticipationTruth.RowsAreWhatIsWanted | internal/participation/projector.go:130-309 | with commands, replays and snapshots from one history, a participant has a row exactly if the last command about them wants them, and nothing is recorded as divergent |
| ParticipationStalls.StalledForever | internal/participationpg/store.go:376-391 | once a pending intent observed less than the head, it stays pending and no intent of that interaction is started, closed or changed in any continuation |
| ParticipationStalls.CanStartIffNotOvertaken | internal/participationpg/store.go:73-124 | in every run a reconcile of an interaction can start or be joined if and only if none of its pending intents was overtaken by the head |
| ParticipationStalls.OutOfOrderStalls | internal/participation/projector.go:130-228 | for any two commands of an interaction, the first of its history and a later one, some run of two projectors ends where no reconcile of it can start in any continuation |
| Outbox.AuthorizationHashInjective | internal/delivery/service.go:120-143 | equal request hashes mean equal authorizations |
| Outbox.AckHashInjective | internal/delivery/worker.go:54-72 | equal acknowledgement hashes mean equal acknowledgements |
| Outbox.HashMatchesIffIntact | internal/delivery/worker.go:98-109 | the stored hash matches a request exactly if the request is the row's own acknowledgement |
| Outbox.ProgressKeeps | internal/deliverypg/store.go:115-189 | claiming, completing and retrying keep log, authorization and outbox rows one to one |
| Outbox.InsertKeeps | internal/deliverypg/store.go:34-104 | so do the three rows of a new authorization |
| Outbox.Store.Append | internal/deliverypg/store.go:34-113 | a known authorization answers its retained receipt or conflicts, exactly by payload; a new one adds its three rows or rolls back |
| Outbox.Store.Claim | internal/deliverypg/store.go:115-151 | every claim of a row carries the same acknowledgement, and its hash |
| Outbox.Store.Complete | internal/deliverypg/store.go:153-168 | only the latest claim token completes, and only once |
| Outbox.Store.Retry | internal/deliverypg/store.go:170-189 | only the latest claim token puts a row back |
| Outbox.Interleave | internal/deliverypg/store.go:34-189 | any interleaving of acceptances, claims, completions and retries leaves accepted rows as they were and completed rows untouched, and a token that lost its row never wins it again |
| Outbox.Conclude | internal/delivery/worker.go:103-126 | the end of a round changes the row exactly if the token still holds it, and spends the token |
| Outbox.ProcessOne | internal/delivery/worker.go:93-127 | a worker's round, with anything happening meanwhile: the hash check never fails, the request is the row's one acknowledgement, only a round holding the latest claim changes the row, and the round's token is spent |
| Outbox.AcceptDelivery | internal/delivery/service.go:70-110 | acceptance returns the receipt in the outbox, the same for every retry of the same payload, and conflicts exactly on a different payload |
| Outbox.AcceptAgain | internal/delivery/service.go:70-110 | over any schedule in between, a retry of an accepted authorization is accepted with the same receipt |
| ClientDelivery.Mailbox.Push | clients/typescript/src/mailbox.ts:11-16 | nothing is lost, repeated or reordered between push and the consumers; one that asked to stop while waiting stops with this item |
| ClientDelivery.Mailbox.Next | clients/typescript/src/mailbox.ts:38-57 | the iterator ends or throws only after handing out everything accepted, and then lets the next consumer in |
| ClientDelivery.Mailbox.Stop | clients/typescript/src/mailbox.ts:31-59 | a consumer that breaks off releases the stream, at once or after the item it waits for, and leaves the rest to the next |
| ClientDelivery.Mailbox.Error | clients/typescript/src/mailbox.ts:18-24 | a waiting consumer has everything accepted when it sees the error, and is gone |
| ClientDelivery.Delivery.DrainContiguous | clients/typescript/src/delivery.ts:59-66 | hands over every contiguous event in order and keeps the rest |
| ClientDelivery.Delivery.Offer | clients/typescript/src/delivery.ts:39-45 | an offered event is delivered or waits in a running recovery; nothing moves after close or failure |
| ClientDelivery.Delivery.Prime | clients/typescript/src/delivery.ts:49-51 | opening runs a recovery unless closed or failed |
| ClientDelivery.Delivery.ReplayError | clients/typescript/src/delivery.ts:92-102 | a failing replay gives up exactly at the last backoff |
| ClientDelivery.Delivery.ReplayEvent | clients/typescript/src/delivery.ts:83-88 | a replayed event extends the stream in order, and nothing does after close |
| ClientDelivery.Delivery.ReplayDone | clients/typescript/src/delivery.ts:89-111 | a pass that fills the gap ends recovery |
| ClientDelivery.Interleave | clients/typescript/src/delivery.ts:39-118 | in any interleaving with consumers that come, pull and break off, what they are handed is exactly 1, 2, 3, ..., and the log's prefix if every live and replayed event of the turns is the log's own; pending events imply a running recovery; at most max(1, backoff length) passes; nothing after failure |
| ClientDelivery.Session | clients/typescript/src/delivery.ts:39-118 | over a client's whole life on honest sources, what consumers received is a prefix of what the stream accepted, and that of the log |

## Left out

- Authentication callout, commands, deployment, health and telemetry: no protocol state.
- Lease acquisition and release on the KV store: rests on the server's TTL; only the fence and the renewal budget are modelled.
- The stop of the renew loop when Run itself returns: no data loop is left then; a shutdown of the parent context is modelled.
- Stream retention and the finite deduplication window: facts and ids are taken to be kept for the run.
- Progress under fair scheduling: beyond when a reconcile can start, nothing is claimed about what is eventually done; a stale cache may reject a command.
- The `parents` map that rejects a divergent retry of a participation command: the router model admits such a retry, so the guarantees hold with and without it; the failing runs send none, so they do not depend on it either.
- The loop of handleParticipation over a transfer's two facts is modelled by the machine's steps, without a method of its own.
- The router's cache lookup by `tenant/iid`: states are keyed by the pair, and a command may use any cached state of its subject or a new one.
- Protobuf and JSON encodings are injective codecs; the participation digest is assumed collision-free.
- Database times: lease times are kept exactly, without rounding to microseconds, and versions are not bounded by bigint.
- A head row at version 0 is not told apart from a missing one, and the alert outbox tables are not modelled.
- Row-level security and connection errors: a failed transaction is a step that changes nothing.
- onApplied and onState callbacks of the client: no state of theirs is modelled.
