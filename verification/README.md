# A verified model of the MySQL failover controller

The system moves the writable role of a replicated MySQL cluster from one server to another. A controller runs the
switchover, a shared store keeps the cluster record (primary, epoch, failover flag), a lock, an operation slot and the task
history, and an agent beside every server checks its authority in the store before it changes a role. This project models
those four parts together and proves what every run of them keeps.

## Structure

The same protocol is described twice, and the two descriptions are connected.

**As a transition system.** `Protocol` is a labelled transition system over the store, the servers, any number of switches
and flag toggles, one probe loop, client commits and replication. A move is one store operation or one SQL statement. A
call that fails before it had any effect, stops half way, or takes full effect and loses its reply is the same kind of move
(`Fail`) taken at a different point. The safety theorems are about all its runs. `Optimistic` is the same system on the Etcd
store, where a conditional write is a read and a later transaction; every run of it is a run of `Protocol`.

**As imperative code.** `MySqlClient`, `Agent`, `MemoryStore`, `Fleet`, `Monitor` and `Controller` follow the Go methods step
by step, with every remote call answered nondeterministically. Between any two calls of the controller, `Neighbours` lets
everybody else make any moves that the protocol allows. Each method of the controller hands back a ghost log of protocol
events, its own and those of the others, and proves that the log is a run of `Protocol` ending in the store and the servers
as they now are. What is proved of all runs therefore holds of a switch or a toggle among any others, down to the
granularity of one call. Two switches of the model turn this nondeterminism off: with `others.alone` there is nobody else, and
with `fleet.faultless` every call is answered, every statement works and replication keeps up. With both on, the contracts
say exactly when a call succeeds.

| module | what it holds |
|---|---|
| `Model`, `MySql` | records; server modes, SQL statements and the scripts of a role change |
| `MySqlClient`, `Agent`, `Fleet` | internal/mysql/client.go, internal/agent/server.go, and the controller's calls to the agents |
| `MemoryStore`, `Etcd` | internal/store/store.go: the atomic store, and the optimistic epoch comparison that refines it |
| `Protocol`, `Invariant` | the transition system and its inductive invariant |
| `Durability`, `Writers`, `Exits`, `Replication`, `Epochs`, `Authority`, `Progress` | theorems over runs |
| `Optimistic` | the transition system with the Etcd store's reads and transactions, and its refinement |
| `Bursts`, `Neighbours` | calls as sequences of protocol moves; the moves of everybody else between them |
| `Monitor`, `DryRuns`, `Controller` | internal/ha/controller.go: what the probe loop remembers; runs of probes; switches, toggles, probes and failover |
| `Targets`, `Alerts`, `Quoting` | target choice, failure counting and alerting, SQL quoting |

The heart of the invariant is `Invariant.Expected`: at every point of a switch the modes of all servers are one fixed
function of the modes at the moment the lock was taken. The results on writers, exits, repair, replication and authority
all follow from it.

## Assumptions

- Operation identifiers are fresh.
- Epochs are unbounded; the source's `uint64` is assumed not to reach its maximum.
- GTID sets only grow. A server commits whenever its `super_read_only` is off, which allows more than real clients do, and
  a server with a started channel may replicate any transactions.
- `super_read_only` on implies `read_only` on. Flags change only through agents; servers do not restart.
- An agent does not act for a call after that call has returned.
- The lock is exclusive (`Exclusive`) everywhere except in the epoch history, where it may lapse at any time.
- Different configured nodes have different identifiers and addresses, and no identifier is empty.

## What the proofs found

- **A flag toggle can erase a freshly bootstrapped primary.** `SetAutoFailover` reads the record under the lock, but the
  probe loop's bootstrap writes without the lock and without a comparison. If the toggle read the empty record first, its
  write is still accepted, because both records carry epoch 0, and it puts the empty primary back. This breaks three
  expectations at once, and for each the exact condition is proved:
  - The next probe may record another server, and a write acknowledged in between is on no recorded primary.
    `Durability.ErasureLosesAWrite` is such a run, and `Durability.SafeExactlyWithoutErasure` says that this is the only way
    to lose a write.
  - The erased primary, if it is writable, becomes a writer that the record does not name, without any switch.
    `Writers.StraysAreCounted` counts such erasures beside the leaking switches, `Writers.ErasureAttainsTheBound` shows that
    each of them has to be counted, and `Writers.ErasureAddsAWriter` reaches one from the empty record.
  - The epoch 0 has two primaries. `Epochs.EpochHistoryExactly` says that the epoch history is a function exactly when no
    toggle in flight has read another primary at the current epoch.

  Once a primary is recorded and no such toggle is under way, none of this can happen any more (`Durability.SettledRun`,
  `Writers.SettledStrays`, `Epochs.SettledIsAgreeing`).
- **The window between promotion and record is real.** The bound on unrecorded writers is reached when a promotion's reply
  is lost (`Progress.LostPromotionLeaks`).
- **An undisturbed switch may still fail, and not only when it is refused.** Even with nobody else at work and every call
  answered, a switch whose candidate passed all checks closes the old primary and then fails if that primary has executed no
  transaction, because waiting for an empty GTID set is refused; and it fails after the record is written if the target has no
  address to point the others to. `Controller.Controller.Switch` states the exact condition.
- **Quoting is exact if and only if the text after the closing quote does not begin with a quote.** In the statement that
  the client builds it never does (`Quoting.StatementRoundTrip`).

## Model

| member | source | states |
|---|---|---|
| Durability.NoAcknowledgedWriteLost | internal/ha/controller.go:381-406 | in every run from a recorded primary on, a transaction committed by the recorded primary at any moment is, at the end, executed on the recorded primary of that time and on the target of every switch past its wait |
| Durability.SafeExactlyWithoutErasure | internal/ha/controller.go:264-406 | over every run, also from the empty record: acknowledged writes survive at every moment if and only if no toggle writes an empty primary, read before bootstrap, over a bootstrapped one that has acknowledged a write |
| Durability.ErasureLosesAWrite | internal/ha/controller.go:142-151 | a concrete run in which that toggle loses an acknowledged write |
| Durability.LossIsUnsafe | internal/ha/controller.go:280-286 | every such toggle, in every reachable state, leaves some acknowledged write on no recorded primary |
| Durability.SettledRun | internal/ha/controller.go:264-287 | once a primary is recorded and no older empty one is about to be written, that stays so in every run and no erasure happens |
| Durability.FrozenPrimary | internal/ha/controller.go:381-406 | from the read-only confirmation up to the record, the recorded primary has super_read_only on |
| Durability.RunDurable | internal/agent/server.go:70-91 | the inductive form: all acknowledged writes are in the recorded primary's set, in a measured GTID set, and in the target's set once it has waited |
| Writers.StraysAreCounted | internal/ha/controller.go:374-417 | in every run from every state that satisfies the invariant, writable nodes other than the recorded primary number at most those at the start plus, since the last completed switch, the switches that gave up between the promotion's effect and the record and the toggles that erased the primary (plus the target of a switch inside that window); no other failure adds one |
| Writers.SettledStrays | internal/ha/controller.go:374-417 | from a recorded primary on, with no toggle about to write an older empty one, nothing is ever erased and only leaking switches count |
| Writers.ErasureAttainsTheBound | internal/ha/controller.go:280-286 | every erasure of a writable primary adds exactly one such node in a run in which no switch leaks |
| Writers.ErasureAddsAWriter | internal/ha/controller.go:142-151 | such a state is reached from the empty record |
| Writers.AdvanceStrays | internal/ha/controller.go:395-417 | only the last promotion statement can add such a node, the record removes it again, and completion leaves none |
| Writers.ExpectedOpen | internal/mysql/client.go:140-183 | exactly which nodes are writable at each point of a switch, from those writable at lock time |
| Progress.LostPromotionLeaks | internal/ha/controller.go:395-397 | the bound is attained: with the promotion's reply lost, the run has leaked exactly once, the unrecorded writers are exactly one more, the recorded primary is closed and the task has failed |
| Progress.LeaksAreExits | internal/ha/controller.go:395-406 | a switch leaks at most once, on its way out |
| Progress.UndisturbedSwitchCompletes | internal/ha/controller.go:299-424 | from every state with a free lock, a configured primary and a caught-up replica there is a run that records the replica one epoch later, completes the task and frees the lock |
| Exits.SwitchEffects | internal/ha/controller.go:327-424 | while a switch holds the lock, from whatever cluster and whatever else happens: all servers are as expected from their modes at lock time; the record is untouched, but for a bootstrap of an empty one, until the switch writes the target one epoch after the record its snapshot agreed with |
| Exits.EveryExitHasItsClass | internal/ha/controller.go:327-435 | wherever a switch stands or gives up under the lock, also with the primary still unknown, it belongs to one of four classes: nothing touched; old primary closed and nobody opened; additionally exactly the target opened, record unchanged; record is (target, epoch + 1). The record meant is the one the switch met, which is that of lock time or what a bootstrap made of an empty one |
| Exits.SettledExit | internal/ha/controller.go:327-435 | if the record had a primary at lock time, the classes are about that very record |
| Exits.AtMostOneWriter | internal/ha/controller.go:381-417 | if at most the recorded primary is writable when a switch takes the lock, at most one node is writable at every moment until it gives the lock back |
| Exits.CompletedSwitchRepairs | internal/ha/controller.go:395-424 | after a completed switch, from any earlier state and in any loop order, the target is the only writable node and the recorded primary, has no source, and every other node is a started read-only replica of it |
| Replication.NeverACycle | internal/ha/controller.go:395-417 | no reachable state has a cycle along replication sources |
| Replication.EdgeToRoot | internal/mysql/client.go:164-183 | an edge to a node without a source closes no cycle |
| Replication.TargetIsRoot | internal/ha/controller.go:410-417 | the target has no source for the whole repointing loop and is never repointed itself |
| Epochs.EpochHistoryIsAFunction | internal/ha/controller.go:401-406 | after bootstrap, whatever switches and toggles are already in flight, for any number of controllers and even with lapsed locks: the epoch never falls, grows by exactly the number of recorded switches, and two moments with equal epochs have equal primaries, provided no toggle in flight has read another primary at the current epoch |
| Epochs.EpochHistoryExactly | internal/ha/controller.go:280-286 | that condition is exact: it holds if and only if all runs from the state have such a history |
| Epochs.SettledIsAgreeing | internal/ha/controller.go:264-287 | under an exclusive lock every settled reachable state meets it |
| Epochs.ToggleKeepsPrimary | internal/ha/controller.go:264-287 | from such a state on, a toggle changes the flag and nothing else in the record, also with a lapsed lock and with toggles in flight |
| Epochs.BootstrapStep | internal/ha/controller.go:142-151 | the probe's unconditional put only ever meets an empty primary at epoch 0, so it lowers no epoch and replaces no switch's result; the primary changes only by a recorded switch, that put, or an erasure at epoch 0 |
| Epochs.BootstrapIsSafe | internal/ha/controller.go:142-151 | over every run from the empty record: the epoch counts recorded switches, an epoch above zero has a primary, and only a recorded switch changes that primary |
| Authority.ActiveOperationHoldsLock | internal/store/store.go:66-96 | in every interleaving of the two-section acquire and release, an active operation belongs to the switch that placed it, and that switch holds the lock |
| Authority.RoleChangesAreAuthorized | internal/agent/server.go:93-184 | every single statement that changes a server runs while its switch holds the lock and its authorization is valid, with the epoch in {from, to} |
| Authority.AuthorizedThroughout | internal/store/store.go:256-282 | from the re-read under the lock to the final task the authorization is valid at every moment, so a check that reads epoch and operation one after the other agrees with one that reads both at once |
| Authority.RefusedEverAfter | internal/store/store.go:90-108 | once a switch has emptied the operation slot, its authorization is refused in every later state |
| Authority.RecordsAtMostOnce | internal/ha/controller.go:401-406 | a switch writes the record exactly once if it got past that point, and never otherwise |
| Authority.StoredTasksAreTrue | internal/ha/controller.go:346-361 | a task stored as running belongs to a switch that still holds the lock; completed means one epoch increment by that switch, dry-run none; after release the task is final |
| Invariant.Keep | internal/ha/controller.go:289-435 | every move but a lapse keeps the invariant that ties program counter, server modes, record, lock, operation slot, tasks and bootstrap together |
| Invariant.RunInv | internal/ha/controller.go:289-435 | so does every run |
| Invariant.StepModes | internal/ha/controller.go:381-406 | a successful call up to the record moves the servers from the modes expected at one point to those expected at the next |
| Invariant.StepRelink | internal/ha/controller.go:410-417 | so does each statement of the repointing loop |
| Etcd.OptimisticRefinesAtomic | internal/store/store.go:192-223 | for all interleaved clients, the record of the read-then-transact store is what a sequence of atomic operations leaves, in which every successful transaction is an atomic comparison that succeeds at its commit instant |
| Etcd.StepRefines | internal/store/store.go:192-223 | a transaction whose comparison holds finds the expected epoch (0 when absent) and installs the new state; one whose comparison fails changes nothing |
| Etcd.Keep | internal/store/store.go:198-207 | no pending comparison can hold again for a value other than the one that was read |
| Etcd.EtcdStore.PutClusterIfEpoch | internal/store/store.go:192-223 | one call with arbitrary interference: success means the stored epoch equalled the expected one at the commit instant and the state replaced it; an answered refusal leaves the key alone and means that the epoch read (0 for an absent key) was another one or that the key changed in between; a call whose answer is lost did one or the other |
| Optimistic.OptimisticRunRefines | internal/store/store.go:192-223 | every run of the protocol in which conditional writes are a read and a later transaction on the revision is a run of the protocol with atomic ones, through the same states |
| Optimistic.EtcdEpochHistory | internal/store/store.go:192-223 | so the epoch history holds for the key itself, with reads, transactions, errors and lapses interleaved at will |
| Optimistic.EtcdSafeExactlyWithoutErasure | internal/store/store.go:192-223 | with the lock kept and from the empty key on, acknowledged writes survive at every moment if and only if no toggle's transaction erases the primary under one |
| Optimistic.EtcdLosesNoWrite | internal/store/store.go:192-223 | from a settled state on, no acknowledged write is missing from the primary in the key |
| Optimistic.CommitsAreRecords | internal/store/store.go:215-222 | the switches whose transaction committed are exactly the recorded ones |
| MySql.DemoteProgress | internal/mysql/client.go:140-150 | a demotion is decided by its first statement and never touches the channel |
| MySql.PromoteProgress | internal/mysql/client.go:152-160 | a promotion opens the server only with its last statement, after the channel is gone |
| MySql.LinkProgress | internal/mysql/client.go:164-183 | repointing never opens a server and ends in the same mode from every start |
| MySqlClient.Server.SetAccessFlags | internal/mysql/client.go:140-150 | super_read_only is sent first and then read_only, up to the first statement that is not accepted; the mode is the old one after a prefix of the two, all of them on success |
| MySqlClient.Server.Demote | internal/mysql/client.go:162 | the same for the demotion script |
| MySqlClient.Server.Promote | internal/mysql/client.go:152-160 | the same for the promotion script, where the two channel statements may find nothing to do |
| MySqlClient.Server.ReconfigureReplica | internal/mysql/client.go:164-183 | the same for the repointing script; without credentials it ends after the old channel is dropped, and fails |
| MySqlClient.Server.Status | internal/mysql/client.go:35-62 | exact answers, query by query: unreachable without a ping, role unknown without the flags, primary exactly if both are off, and otherwise a replica that is healthy exactly if its status shows both threads running and a known lag; never more than is true of the server |
| MySqlClient.Server.WaitForGTID | internal/mysql/client.go:70-82 | succeeds exactly for a non-empty set all of which is executed here, if the answer is heard; the executed set only grows, and only over a started channel |
| MemoryStore.MemoryStore.PutClusterIfEpoch | internal/store/store.go:56-64 | succeeds exactly when the stored epoch is the expected one, and then replaces the record |
| MemoryStore.MemoryStore.AcquireLock | internal/store/store.go:66-79 | succeeds exactly when the lock was free |
| MemoryStore.MemoryStore.VerifySwitchOperation | internal/store/store.go:98-108 | accepts exactly the active operation with the epoch in {from, to} |
| MemoryStore.MemoryStore.PutTask | internal/store/store.go:110-115 | stores the task under its id and leaves the others |
| Agent.Agent.Authorize | internal/agent/server.go:177-184 | passes exactly a named operation that the store accepts, if the store can be reached |
| Agent.Agent.WaitGTID | internal/agent/server.go:70-91 | succeeds exactly with authority, a timeout from 1 to 60 and a non-empty set that is executed, if the calls are answered |
| Agent.Agent.Demote | internal/agent/server.go:93-108 | the script is sent exactly if the authority check passed; the answer is that of the script |
| Agent.Agent.Promote | internal/agent/server.go:110-135 | the script is sent exactly with authority and on a server just seen as a healthy replica with both threads running and a lag of zero; success means that the whole script was accepted and the server was then seen as a healthy primary |
| Agent.Agent.Replica | internal/agent/server.go:137-175 | the script is sent exactly with authority and for a different, named source with an address; success means that all of it was accepted and the last poll, and only that one, showed a healthy replica with running threads |
| Fleet.Fleet.Demote | internal/agent/client.go:87-89 | no other node changes; success is exactly an agent's success that was heard, and so implies the full effect; with every call answered it succeeds exactly if the store accepts the operation |
| Fleet.Fleet.Promote | internal/agent/client.go:91-93 | the same for promotion, which also needs a running replica |
| Fleet.Fleet.ReconfigureReplica | internal/agent/client.go:95-97 | the same for repointing, which also needs another source with an address |
| Bursts.BurstIsRun | internal/mysql/client.go:140-183 | statements that ran inside one agent call are that many moves of the switch in the transition system |
| Bursts.SoundIsRun | internal/ha/controller.go:289-425 | a log of states and events is a run of the transition system with an exclusive lock |
| Neighbours.SeenMove | internal/store/store.go:31-136 | a move that is enabled for the others, who do not see the caller's own thread, is enabled in the whole system and has the effect they see |
| Neighbours.Neighbours.Pause | internal/ha/controller.go:289-425 | between two calls everybody else makes any number of protocol moves; the caller's thread and stored task stay, and nothing changes if there is nobody else |
| Controller.Controller.CloseOld | internal/ha/controller.go:377-387 | goes on exactly if the old primary is configured, its demotion was reported done and it was then seen reachable with both flags on; nothing has begun exactly if it is not configured or its agent did not let the switch in; undisturbed, it goes on exactly if the primary is configured |
| Controller.Controller.Follow | internal/ha/controller.go:388-394 | goes on only when the target executed everything the closed primary had executed; undisturbed and with a running replica it goes on exactly if that was not nothing |
| Controller.Controller.OpenTarget | internal/ha/controller.go:395-400 | goes on only when the target was seen writable; undisturbed, a running replica always is |
| Controller.Controller.RecordTarget | internal/ha/controller.go:401-406 | records (target, next epoch, the flag of the snapshot) if the epoch is still the snapshot's; without others exactly then |
| Controller.Controller.RepointOthers | internal/ha/controller.go:410-417 | in any order, repoints every other node or stops at the first failure, and answers which of the two it was; undisturbed it comes to the end exactly if the target has an address or there is no other node |
| Controller.Controller.Work | internal/ha/controller.go:374-424 | succeeds exactly if the repointing loop came to its end; undisturbed and with a running replica, exactly if the primary is configured and has executed something and the target has an address |
| Controller.Controller.Compare | internal/ha/controller.go:323-335 | succeeds exactly if the re-read record has the epoch and the primary of the snapshot, a primary at all, and another one than the target |
| Controller.Controller.Look | internal/ha/controller.go:337-344 | succeeds exactly if the status that the candidate just answered is that of a healthy replica with both threads running and a known lag within the limit; in an automatic dry run, of a reachable replica whose SQL thread runs |
| Controller.Controller.Qualify | internal/ha/controller.go:317-344 | goes on only when the re-read under the lock agreed, and then exactly if the candidate's answer passes that check; without others the re-read agrees exactly if the record was the snapshot with a primary other than the target |
| Controller.Controller.RunTask | internal/ha/controller.go:346-372 | the task is stored as running, worked on and stored in its final state, which is completed exactly if the repointing loop came to its end, and the lock is given back; a dry run without others changes no server and no record and stores that one task; undisturbed, the exact condition of completion |
| Controller.Controller.RunLocked | internal/ha/controller.go:317-435 | between lock and release, among any moves of others: a protocol run that stores one final task or none and ends with the release; a task exactly for a candidate whose answer passes, once the record agreed |
| Controller.SwitchAccounts | internal/ha/controller.go:317-435 | a switch whose log started in a reachable state and got the lock leaves servers and record, from lock to release, as the class of its last point says |
| Controller.HeldLogHasItsClass | internal/ha/controller.go:317-435 | the log of an imperative switch inherits the exit classes of protocol runs |
| Controller.ConductedSettles | internal/ha/controller.go:317-435 | the log up to the lock and the log from there to the release are one run of the protocol that accounts for the whole call |
| Controller.Controller.AcceptTarget | internal/ha/controller.go:299-315 | a named target is refused exactly if it is unknown or the primary; without a name the best replica is taken, and refused exactly if none is eligible or the best one is unknown |
| Controller.Controller.Switch | internal/ha/controller.go:289-425 | the whole call, with everybody else moving between its calls, is a run of the protocol from any matching state; from a reachable one, the exit class describes what every switch that got the lock has done since, with or without a task. It begins exactly if the controller leads and there is a target. A task is stored only for a candidate whose answer passed the check, in its final state, completed exactly if all other nodes were repointed; it is a dry run exactly if actions are off or the switch is automatic with automatic execution off, and without others a dry run or a refusal changes no server and no record. Without others a task is stored exactly if the lock was free, a primary was recorded and the candidate passed; and if also every call is answered, a real switch completes exactly if moreover the target is a running replica with an address and the primary is configured and has executed something |
| Controller.Controller.SetAutoFailover | internal/ha/controller.go:264-287 | a protocol run, also with a bootstrap between its read and its write; nothing happens unless the caller leads and finds the lock free; without others it then sets the flag and nothing else |
| Monitor.FollowsOn | internal/ha/controller.go:110-134 | one observation of a node keeps count, latch and alerts of every node those of its history |
| Monitor.RunIsCounted | internal/ha/controller.go:113-125 | the remembered failure count of a node is the length of the unhealthy run that ends its history |
| Monitor.Monitor.Note | internal/ha/controller.go:113-134 | count, latch and alerts of the node follow from its observation history, which grows by this observation, and no other node's do change |
| Monitor.Monitor.DetectPrimary | internal/ha/controller.go:171-180 | finds a healthy primary, and nobody exactly when there is none |
| Controller.Controller.ObserveNodes | internal/ha/controller.go:110-140 | a round over all nodes in any order, with others moving in between, makes one observation of each and sends exactly the alerts that are returned; without others every remembered status is one of the server as it is, and exactly its status if every query is answered |
| Controller.Controller.Bootstrap | internal/ha/controller.go:142-151 | a recorded primary is left alone; otherwise the record as it was read is written with the primary that the statuses show, or nobody exactly when they show none |
| Controller.Controller.TryAutomaticFailover | internal/ha/controller.go:182-214 | a task is stored only for a primary whose remembered status is unhealthy with a failure count that reached the threshold, and for the replica of choice; without others the leader makes the attempt exactly if moreover no switch is under way, there is a replica to choose and, with execution off, the primary is not the one reported last; what is remembered as reported afterwards |
| Controller.Controller.Probe | internal/ha/controller.go:110-155 | one observation of every node with the alerts it takes; a task is stored only for a primary whose last observations, as many as the threshold or more, were all unhealthy; without others the leader attempts a failover exactly if a primary is recorded, the flag is on and the attempt is due; and with automatic execution off no server, epoch or recorded primary changes, and at most one dry run is stored, for a recorded primary that was not seen healthy and is not the one remembered |
| Controller.Controller.RunAsLeader | internal/ha/controller.go:86-108 | over every run of probes with automatic execution off: no server changes, the epoch stays, a primary stays from the probe on that recorded it; the stored tasks are exactly the dry runs of the probes that made one; a probe is said to have seen the primary healthy exactly if its observation in the node's history was healthy (and the failover flag on); between any two dry runs there is such a probe; and leadership can be taken up again |
| DryRuns.OnwardThroughout | internal/ha/controller.go:142-151 | probes that each keep a recorded primary keep it between any two moments |
| DryRuns.DryRunsAreSeparated | internal/ha/controller.go:186-199 | remembering the reported primary, and forgetting it when it is seen healthy, separates all dry runs of a run of probes, also from the one remembered at the start |
| DryRuns.Lingers | internal/ha/controller.go:194-199 | a dry run is remembered until the recorded primary is seen healthy |
| DryRuns.WitnessOne | internal/ha/controller.go:113-125 | what a probe is said to have seen stays tied to the observation it made |
| DryRuns.TasksAfterExactly | internal/ha/controller.go:346-361 | the stored tasks are the old ones and those of the probes that stored one, and no others |
| Alerts.CountsAndLatches | internal/ha/controller.go:110-134 | for every history, the failure count is the trailing unhealthy run and the node is latched exactly when that reaches a positive threshold |
| Alerts.AlertsAlternate | internal/ha/controller.go:126-133 | failure and recovery alerts strictly alternate, beginning with a failure |
| Alerts.OneAlertPerLongRun | internal/ha/controller.go:126-133 | failure alerts are as many as maximal unhealthy runs of at least the threshold |
| Alerts.LongRunsGrow | internal/ha/controller.go:115-133 | a new observation completes a long run exactly when the trailing run reaches the threshold |
| Targets.ChooseTarget | internal/ha/controller.go:437-467 | returns, for any map order, an eligible replica such that no eligible one has less lag and none with the same lag has a smaller id, by the first difference; fails exactly when none is eligible |
| Targets.BestIsUnique | internal/ha/controller.go:460-466 | the least eligible replica is unique, so the choice does not depend on the map order |
| Targets.ChooseDryRunTarget | internal/ha/controller.go:472-486 | returns the smallest id, by the first difference, of a reachable replica whose SQL thread runs, and fails exactly when there is none |
| Targets.Sort | internal/ha/controller.go:460-465 | a permutation in which no lag falls and, at equal lag, no id does |
| Targets.LessIsFirstDifference | internal/ha/controller.go:460-465 | the order on ids is that of the first difference: a proper prefix, or the smaller character there |
| Targets.ChoiceIsPromotable | internal/ha/controller.go:337-344 | on statuses of the MySQL client, an eligible replica passes the stricter check of a switch, and a dry-run target exists too |
| Quoting.RoundTripExactly | internal/mysql/client.go:193-196 | for every value and suffix, reading the quoted value, a closing quote and the suffix gives exactly the value and the suffix if and only if the suffix does not begin with a quote |
| Quoting.TwoPassesAreOne | internal/mysql/client.go:193-196 | the two replace passes are one per-character map |
| Quoting.ReadEscaped | internal/mysql/client.go:193-196 | reading an escaped value yields it and goes on behind it |
| Quoting.DoubledQuoteRunsOn | internal/mysql/client.go:193-196 | a concrete value and suffix for which the round trip fails |
| Quoting.StatementRoundTrip | internal/mysql/client.go:175 | whatever host, user and password contain and for every numeric port, a reader of comma-separated assignments finds exactly five in the statement: SOURCE_HOST, SOURCE_PORT, SOURCE_USER, SOURCE_PASSWORD with those values, and SOURCE_AUTO_POSITION = 1 |

## Left out

- HTTP, TLS, JSON and certificates (internal/agent/client.go, internal/api, cmd/pki-gen): only each call's effect and outcome
  are kept.
- Etcd's consensus, leases, mutex and leader election: a linearizable revisioned key and an exclusive lock are assumed.
- Etcd's `AcquireSwitchLock` and `VerifySwitchOperation` as code of their own: their steps are moves of `Protocol`, which
  allows every order of them.
- Single-writer safety across the expiry of a lock lease: an agent checks its authority and then acts, so the code does not
  establish it.
- The failover flag under a concurrent switch: a switch writes back the flag of its snapshot, so a toggle in between is
  overwritten. The model does the same and no preservation is claimed.
- A failing `PutTask`: the memory store's never fails, so the `tripping` flag that stays set after such a failure is not
  modelled.
- Controller.Controller.Switch: the others move between its calls; their moves between two SQL statements of one agent call
  are in `Protocol` alone.
- Controller.Controller.RunAsLeader: a run of probes only; switches and toggles requested through the API between two probes
  are not part of it.
- MySqlClient.Server.Status: the column scan of SHOW REPLICA STATUS and its older spellings are one nondeterministic answer.
- Agent.Agent.Replica: time is a bounded number of polls.
- `splitAddress`, `first` and the wording matched by `replicaChannelAbsent`: easy string functions.
- `ListTasks` and the order of tasks in the two stores.
- Timeouts, tickers and context cancellation: each is a call that may fail.
- Fencing and routing managers, which do nothing; metrics, logging, webhook delivery, alert texts, configuration parsing and
  cmd/state-migrate.
