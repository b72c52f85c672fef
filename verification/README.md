# Verification of the speculation protocol

A Dafny model of a daemon that runs predicted tool calls ahead of demand and
hands their saved output to the real call later, with proofs that what it hands
over is what the call would have returned.

`dafny verify dfyconfig.toml` checks everything.

## What is modelled

**The speculation protocol** is the main part. A session reserves jobs in an
epoch-and-occurrence cache, pool threads run them on the live repository or in
a fork with a streamed edit applied, and `resolve` claims a job, waits without
the lock, and publishes the result if it is still valid. Mutation brackets fence
every session of a repository while something authoritative changes it.

- `Ledger.dfy`, `Cache.dfy`, `WritePath.dfy`, `Session.dfy`, `Daemon.dfy` say
  what every operation does to the state, as functions over values.
- `CacheObject.dfy`, `SessionObject.dfy`, `DaemonObject.dfy` and
  `Executor.dfy` (and the class in `Ledger.dfy`) are the mutable objects of the
  source, with their loops and in-place updates; each method is proved to make
  exactly the change its function describes.
- `CacheQueue.dfy` proves the cache's two counters and table to be a queue.
- `SessionInvariant.dfy`, `Coherence.dfy` and `Evolution.dfy` prove, step by
  step, what a session keeps, what its undelivered results are worth, and what
  is never taken back.
- `Runs.dfy` puts daemon, clients, pool threads and the repositories into one
  transition system. Every public operation is one atomic step, `resolve` is cut
  at its unlocked wait, and any order of steps is a run. `RunSteps.dfy` and
  `StepFrames.dfy` carry the invariants over every step.
- `Lossless.dfy`, `Fences.dfy`, `Ownership.dfy` and `Tickets.dfy` hold the
  theorems about whole runs. `Scenario.dfy` has the pieces of runs with one
  client, from which `KeptChain.dfy` builds a bracketed run that is served and
  `Unbracketed.dfy` the exact price of a feed outside a bracket.
- `Invalidation.dfy`, `Answers.dfy`, `Asking.dfy`, `ReadLane.dfy` and
  `Lifecycle.dfy` say once more, without the functions above, what each request
  and each report of a pool thread is answered and leaves behind: read off the
  fields of whatever state it finds.
- `LiveAgent.dfy` is the agent that opens and closes the brackets, as an object
  whose every await may fail; `AgentRuns.dfy` places it among the steps of a
  run, its calls arriving late, out of order, more than once or never, shows that
  what it does is what losslessness asks for, and exhibits such a run.

A repository is a map from paths to contents and command execution is any
function `exec` of repository and call. A fork may take each path from the
repository at a different moment between the reservation and the result. A
result of the live repository is the command's output if the repository kept
one state since the reservation, and arbitrary otherwise. Runs that are judged
by an `exec` are *fair*: repositories change only inside an open bracket and an
unconflicted bracket that declared its write changes only that path. The
theorems that do not speak of outputs hold in every run, fair or not.

**Around it** stand six smaller models: forks with hard links and the writes
into them (`Fork.dfy`), the online predictor, its blending arithmetic and its
table on disk (`Sums.dfy`, `Predictor.dfy`, `Blend.dfy`, `Tables.dfy`), the
broker's poison state machine (`HostBroker.dfy`), the native tool-call transport
(`ModelTools.dfy`, `NativeStream.dfy`), the read-only script contracts
(`ScriptContracts.dfy`) and the canonical form of call arguments (`Canon.dfy`).

## Findings

- A feed without a mutation id builds its chain for a write that has not landed.
  `Unbracketed.UnbracketedServes` gives, for every write and every predicted
  call, a run that never touches the repository and is served the output with
  the write applied. `Unbracketed.UnbracketedLosslessIff` says when that run is
  lossless whatever commands compute: exactly when the repository already holds
  the write.
- A write into a directory that is missing is admitted: the fork gets the
  directory and the file, where a shell redirection in the repository fails.
  `Forks.AdmittedIntoMissingDirectory` is the smallest case;
  `Forks.AdmittedWriteAgrees` proves that an admitted write shows the same in
  fork and repository exactly when the repository has the directories.
- Over a looked-back window of zero kinds the online and the batch context keys
  differ (`Predictors.ZeroWindowDiffers`); from one kind on they agree.
- Every flat dictionary freezes to the same cache key as the sorted list of its
  items (`Canon.DictAndListCollide`); flat string-valued dictionaries are told
  apart exactly (`Canon.FlatKeysAreExact`).
- A worker that fails takes its job out of the table without a ledger record.
  `Ownership.Conservation` accounts for those jobs separately.

## Model

| member | source | states |
|---|---|---|
| Lossless.Lossless | src/sfx/daemon.py:558-605 | in every fair run whose feeds all carry their bracket id, each output `resolve` serves equals executing that call on the repository as it stands at delivery, however pool threads, forks, other clients and mutations interleave |
| Lossless.DeliveredIsExecuted | src/sfx/daemon.py:582-605 | without any assumption on feeds: a plain join is served the output on the current repository, a chain join the output with the chain's write applied, and a write fed under a bracket has landed by then |
| Lossless.EditedIsWritten | src/sfx/daemon.py:615-630 | an edit answered in advance is answered with the contents the repository already holds at that path |
| Unbracketed.UnbracketedLosslessIff | src/sfx/daemon.py:406-410 | the unbracketed run is served, for every way to execute commands, what the call would have returned if and only if the repository already holds the write |
| Unbracketed.LosslessIffLanded | src/sfx/daemon.py:406-410 | a fork's output is the repository's for every command if and only if the forked write has landed |
| Unbracketed.UnbracketedServes | src/sfx/daemon.py:388-430 | for every write and predicted call a concrete run without brackets that leaves the repository alone and is served the output with the write applied |
| KeptChains.BracketedServes | src/sfx/daemon.py:248-290 | for every write, predicted call and way to execute commands a fair bracketed run whose bracket keeps its chain and whose join is served what the command returns on the repository with the write in it |
| Fences.EpochFence | src/sfx/daemon.py:582-605 | whatever happens between claim and finish, a served job saw no invalidating step since its reservation, its session is still current and no bracket is open |
| Fences.InvalidatingBumps | src/sfx/daemon.py:230-290 | every begin, reported change, unbracketed feed, unpreserved end, session end and shutdown moves each affected session to a later epoch |
| Fences.FenceOccupancy | src/sfx/daemon.py:248-267 | inside an open bracket the only resident job of any session on the repository is the chain job fed under that bracket, then the only open and unconflicted one |
| Fences.StillAlone | src/sfx/daemon.py:241-267 | an unconflicted bracket has been the only open one since it was begun, because overlap and reported changes mark both sides for good |
| Fences.PreservationSound | src/sfx/daemon.py:269-290 | a chain kept by `mutation_end` had a bracket that overlapped no other and saw no reported change from begin to end, and the written file holds the chain's contents |
| Fences.EndKeepsChain | src/sfx/daemon.py:269-290 | `mutation_end` leaves the session its chain and cache exactly when it reports the chain preserved |
| Ownership.OneOwner | src/sfx/daemon.py:615-680 | at most one outstanding join owns a session's chain, and a set claim always has the one waiter that will clear it |
| Ownership.NoLostWaiter | src/sfx/cache.py:121-140 | every waiting join waits for a job that is resident or already signalled |
| Ownership.NoResurrection | src/sfx/cache.py:62-69 | a job that left the table at some point of a run is never resident or deliverable again, even if its worker completes later |
| Ownership.Conservation | src/sfx/ledger.py:16-27 | every launched speculation has one launch record and is ended exactly once, resident, or dropped by its failing worker; `terminal` never raises and the totals are the sums over the records |
| Ownership.Partition | src/sfx/ledger.py:16-27 | the launched speculations are the disjoint union of the ended, those still held in the table and those lost by a failing worker, and the three counts sum to the number launched |
| Tickets.NoJobTwice | src/sfx/cache.py:78-96 | in no run do two asks of a session, delivered or still waiting, get the same job |
| Tickets.SavedOnlyByHits | src/sfx/cache.py:98-112 | in every run a session's savings change only when a join is served, by at least nothing and at most the shorter of the run and the head start |
| RunSteps.StepKeeps | src/sfx/daemon.py:165-680 | every atomic step of daemon, client, pool thread or repository keeps the whole invariant |
| RunSteps.RunKeeps | src/sfx/daemon.py:165-680 | every run keeps the whole invariant, and nothing a session object has settled is taken back |
| Caches.ReserveKeepsValid | src/sfx/cache.py:49-60 | a reservation is a fresh resident occurrence and disturbs no other |
| Caches.CompleteKeepsValid | src/sfx/cache.py:62-69 | a completion keeps the table sound, with the same residents and the same job identities |
| Caches.CompleteReachesResidents | src/sfx/cache.py:62-69 | a result reaches a job while the table holds it, and `finish` then answers with it; after that nothing changes and `finish` misses |
| Caches.BumpKeepsValid | src/sfx/cache.py:129-140 | a new epoch starts with an empty table in which every expired job is ended and signalled |
| Caches.FinishDelivers | src/sfx/cache.py:98-112 | `finish` answers exactly for completed, current, unended residents, and never twice |
| Caches.SavingBounds | src/sfx/cache.py:98-112 | a hit saves between nothing and the shorter of the run and the head start |
| CacheQueues.ReserveEnqueues | src/sfx/cache.py:49-60 | the slot's counters and table are a queue: a reservation joins its end, also after misses |
| CacheQueues.ClaimDequeues | src/sfx/cache.py:78-96 | `claim` takes the oldest live reservation and leaves every other queue alone |
| CacheQueues.DiscardDeletes | src/sfx/cache.py:121-127 | a discard deletes one id from its queue |
| CacheQueues.QuietOperations | src/sfx/cache.py:98-140 | completing and finishing leave every queue as it is, a new epoch empties them all |
| CacheQueues.NoDoubleClaim | src/sfx/cache.py:78-96 | in no sequence of cache operations is a speculation claimed twice, and claims of a slot come in order of reservation |
| Invalidations.InvalidateBooks | src/sfx/daemon.py:230-239 | an invalidation books for each job still due exactly one end, discarded for the chain's own and expired with the time it wasted for the others, and saves nothing |
| Invalidations.InvalidateEmpties | src/sfx/daemon.py:230-239 | an invalidated session has a new epoch, an empty table, everything in it signalled, ended and booked, and no chain, claim or streamed write |
| CacheObjects.CacheObject.Claim | src/sfx/cache.py:78-96 | the scanning loop stops where the specification does and advances the serve counter past it |
| CacheObjects.CacheObject.Finish | src/sfx/cache.py:98-112 | the mutable cache and ledger change as the specification says, and the outcome is the specified one |
| CacheObjects.CacheObject.DiscardSpec | src/sfx/cache.py:121-127 | the search through the dictionary removes and signals the job it finds, if any |
| CacheObjects.CacheObject.BumpEpoch | src/sfx/cache.py:129-140 | the expiry loop ends, wakes and drops every job of the old epoch |
| CacheObjects.CacheObject.Reserve | src/sfx/cache.py:49-60 | occurrence, id, table entry and launch record of a reservation |
| CacheObjects.CacheObject.Complete | src/sfx/cache.py:62-69 | result, duration and signal reach the job if it is still in the table |
| Canon.FlatKeysAreExact | src/sfx/cache.py:26-35 | two flat string-valued argument dictionaries have the same canonical key if and only if they hold the same entries |
| Canon.DictAndListCollide | src/sfx/cache.py:26-35 | every flat string-valued dictionary has the same canonical key as the list of its sorted items |
| Ledgers.HistoryCounts | src/sfx/ledger.py:13-27 | every launched id has one launch record, an ended one also one end record |
| Ledgers.Ledger.Terminal | src/sfx/ledger.py:16-27 | a second end is refused and leaves the ledger unchanged; a first one adds record and totals |
| Sessions.LongestPrefix | src/sfx/chain.py:64-70 | the longest common prefix: equal up to it, different or ended after it |
| SessionObjects.FollowedHops | src/sfx/chain.py:64-70 | the counting loop finds the longest common prefix |
| SessionInvariants.ResolveChainKeepsValid | src/sfx/daemon.py:615-645 | following, breaking or joining a chain keeps hops, cursor, spec ids and claim in step; a join always points at the chain's own job |
| SessionInvariants.ResolveChainInRange | src/sfx/daemon.py:631-645 | the hop index is in range and a second ask is declined while a join is outstanding |
| SessionInvariants.StartChainKeepsValid | src/sfx/daemon.py:388-498 | building a chain leaves its spec, task and hops in step and the session without any other fork job |
| SessionInvariants.FinishChainKeepsValid | src/sfx/daemon.py:647-670 | the second half of a chain join keeps the session invariant whoever owns the chain by then |
| SessionObjects.SessionObject.DiscardChain | src/sfx/daemon.py:672-680 | the loop ends each unended spec of the chain once and removes it, then forgets chain, claim and mutation |
| SessionObjects.SessionObject.Invalidate | src/sfx/daemon.py:230-239 | one session's share of an invalidation |
| SessionObjects.SessionObject.StreamWrite | src/sfx/daemon.py:402-430 | the chain state after a streamed write, with and without a predicted hop or a substrate |
| SessionObjects.SessionObject.SubmitChain | src/sfx/daemon.py:454-498 | reservation, fork task and one-hop chain |
| SessionObjects.SessionObject.ResolveChain | src/sfx/daemon.py:615-645 | the chain state machine's answer and new state |
| SessionObjects.SessionObject.ResolveStart | src/sfx/daemon.py:558-580 | the guards and the claim of the locked first half of `resolve` |
| SessionObjects.SessionObject.FinishPlain | src/sfx/daemon.py:589-605 | the locked second half of `resolve` without a chain changes the session as its function does; what that is, `ReadLanes.PlainAnswers` says |
| SessionObjects.SessionObject.FinishChainClaim | src/sfx/daemon.py:647-670 | the locked second half on a chain hop, owned or not, completed or not |
| SessionObjects.SessionObject.WorkerFails | src/sfx/executor.py:67-83 | a failing pool thread removes its job without a ledger record |
| Coherence.MixedAgrees | src/sfx/chain.py:52-61 | a fork assembled from files copied at different moments equals the current repository under the write, if those moments differ only where the write lands |
| Coherence.StartChainCoherent | src/sfx/daemon.py:388-430 | a chain fed under its sole bracket, or outside any, is built from the repository as it stands |
| Coherence.FinishCoherent | src/sfx/daemon.py:647-670 | neither half of a finish leaves a stale deliverable job behind, also when it comes back inside a later bracket |
| Coherence.PreservedCoherent | src/sfx/daemon.py:269-290 | closing the sole bracket over a landed write keeps the chain's results right |
| DaemonObjects.DaemonObject.InvalidateRepo | src/sfx/daemon.py:230-239 | the loop over sessions invalidates exactly the current ones of the repository but the preserved one |
| DaemonObjects.DaemonObject.OnFsChange | src/sfx/daemon.py:241-246 | every open bracket is marked conflicted, then everything is invalidated |
| DaemonObjects.DaemonObject.MutationBegin | src/sfx/daemon.py:248-267 | an illegal write path raises and changes nothing; otherwise old and new brackets are conflicted if they overlap |
| DaemonObjects.DaemonObject.MutationEnd | src/sfx/daemon.py:269-290 | an unknown bracket raises and changes nothing; otherwise bracket, sessions and the completion record change as specified, which `Answers.EndAnswers` spells out |
| DaemonObjects.DaemonObject.CallExecuted | src/sfx/daemon.py:299-322 | which reports raise, consume a completion, invalidate, or are recognised as the streamed write |
| DaemonObjects.DaemonObject.CallStreamDelta | src/sfx/daemon.py:388-430 | which feeds the fence refuses, and the state after the others |
| DaemonObjects.DaemonObject.SessionEnd | src/sfx/daemon.py:193-202 | ending is refused while the session has an open bracket; otherwise its cache expires and its id is freed |
| DaemonObjects.DaemonObject.Shutdown | src/sfx/daemon.py:204-211 | every current session expires, every id and bracket is gone |
| Answers.NoticedAnswers | src/sfx/daemon.py:241-246 | a noticed change marks every open bracket of the repository and empties every current session on it, and no other |
| Answers.BeginAnswers | src/sfx/daemon.py:248-267 | a begin is refused exactly for an illegal declared path; otherwise the new bracket is open, conflicted exactly if another was, the others are conflicted, and the repository's sessions are emptied |
| Answers.EndAnswers | src/sfx/daemon.py:269-290 | an end is refused exactly for a bracket the session has not open; it answers true if and only if success was reported, the bracket was alone and unconflicted, the chain was fed under it with the declared write, its fork has not failed and the file reads back; then chain and cache stay, otherwise they are gone |
| Answers.FailedEndEmpties | src/sfx/daemon.py:269-290 | in every run, an end without success leaves no chain and no job in any session of the repository |
| Answers.ReportAnswers | src/sfx/daemon.py:299-322 | a report is refused exactly for an unknown completion, consumes a known one, and counts as a change exactly if it is of a call that is not free and not just the streamed write |
| Answers.LaunchAnswers | src/sfx/daemon.py:432-452 | a read is launched exactly outside every bracket with speculation on, for a kind that changes nothing; it joins the end of its queue as a new unfinished job |
| Answers.FeedAnswers | src/sfx/daemon.py:388-430 | a streamed write is taken exactly without any bracket or under its own sole unconflicted one; the old chain and, outside a bracket, everything on the repository is over, and the session holds the new chain with its one fork job or none |
| Asking.AskAnswers | src/sfx/daemon.py:558-645 | which asks are refused; otherwise the oldest reservation of the call is taken, the streamed edit answered with its contents, the predicted call joined to the chain's job, and the chain given up for anything else |
| ReadLanes.PlainAnswers | src/sfx/daemon.py:582-605 | in every run, a delivery outside a chain serves the job's result if and only if the session is current, no bracket is open and the job is resident, done, of this epoch and unended; "completed" exactly if it was done by the ask, with one hit in the ledger |
| ReadLanes.ChainAnswers | src/sfx/daemon.py:647-680 | in every run, a delivery on a chain serves exactly if the join still owns the chain, was waited for and its job is ripe, and then uses the chain up; otherwise the job is given up, and the chain if owned |
| ReadLanes.ReadServes | src/sfx/daemon.py:558-605 | for every read, way to execute commands, duration and time of asking a fair run in which the read is served what running it returns |
| Lifecycles.StartAnswers | src/sfx/daemon.py:207-228 | a session start gives the id to a new session that has done nothing and leaves all others alone |
| Lifecycles.EndSessionAnswers | src/sfx/daemon.py:190-198 | a session end is refused exactly while the session has a bracket open; otherwise its id is free and everything it held is signalled, ended and booked |
| Lifecycles.StopAnswers | src/sfx/daemon.py:200-207 | a shutdown expires every session that has an id and leaves no id and no bracket |
| Lifecycles.FailsAnswers | src/sfx/executor.py:67-83 | a failing pool thread takes its job out of table and queue and signals it, without telling the ledger |
| Lifecycles.PreemptsAnswers | src/sfx/executor.py:99-110 | a preempted job of the read lane that is not over is ended with the time it wasted; any other stays as it is |
| Executors.Executor.FreeSlots | src/sfx/executor.py:29-39 | the loop forgets exactly the failed and the elapsed, and counts the rest |
| Executors.Executor.Speculate | src/sfx/executor.py:47-56 | a speculation is launched if and only if fewer than the configured slots are occupied, which they never exceed |
| Executors.Executor.PreemptOne | src/sfx/executor.py:99-109 | preempts the least priority among the running, unpromoted and unended, ends it once, and nothing if there is none |
| LiveAgents.EachEndedOnce | src/eval/sfx_live_agent.py:649-717 | every bracket token is begun once and passed to exactly one end attempt, unless it is the one still open |
| LiveAgents.ExecutedInsideBracket | src/eval/sfx_live_agent.py:810-877 | every authoritative execution lies inside its own bracket, which no other overlaps |
| LiveAgents.LiveAgent.CancelPendingEdit | src/eval/sfx_live_agent.py:649-656 | a reservation is given up with one end attempt even if that fails |
| LiveAgents.LiveAgent.ModelEnd | src/eval/sfx_live_agent.py:669-678 | the reservation stays, confirmed, exactly if the step and the final command are its own and the text does not finish; otherwise one end is tried; nothing is executed |
| LiveAgents.LiveAgent.ModelDelta | src/eval/sfx_live_agent.py:679-717 | a new recognised edit worth a reservation opens exactly one bracket and feeds under it; it raises exactly if one of those awaits failed, with the bracket closed again, and any other event does nothing |
| LiveAgents.LiveAgent.InBracket | src/eval/sfx_live_agent.py:826-862 | feed and execution under an open bracket: it is closed whichever of them fails, and without failure the calls are exactly feed, execution and end |
| LiveAgents.LiveAgent.Authoritative | src/eval/sfx_live_agent.py:810-877 | raises exactly if an await it made failed or the begin gave no token, closing the bracket on every path; otherwise the command ran once, between exactly the calls of one execution |
| LiveAgents.LiveAgent.WriteAndChain | src/eval/sfx_live_agent.py:879-893 | a confirmed matching reservation is used, any other is closed first, then exactly one execution follows unless an await it made fails |
| LiveAgents.LiveAgent.RouteOne | src/eval/sfx_live_agent.py:776-808 | served exactly if the command may be asked for and the resolve is favourable; raising exactly if an await it made failed; otherwise, an ordinary miss included, executed once, with the exact calls |
| LiveAgents.LiveAgent.Route | src/eval/sfx_live_agent.py:719-746 | whatever fails, no bracket is open afterwards; it raises exactly if an await it made failed, serves exactly on a favourable resolve, and otherwise executes once, with the exact calls |
| AgentRuns.OpenInDaemon | src/eval/sfx_live_agent.py:810-877 | whatever other clients and pool threads do, and whether the agent's other calls arrive late, out of order, repeatedly or never, the bracket its trace has open is open in the daemon under its session |
| AgentRuns.AgentIsBracketed | src/eval/sfx_live_agent.py:649-893 | a run that performs an agent's trace is a fair, bracketed one: its feeds carry their bracket and its repository changes only inside one |
| AgentRuns.AgentIsLossless | src/eval/sfx_live_agent.py:649-893 | every output served in a run that performs an agent's trace equals executing the call on the repository as it stands at delivery |
| AgentRuns.AgentServes | src/eval/sfx_live_agent.py:649-893 | there are such runs, for every write, predicted call and way to execute commands: with a begin, a feed, an execution that changes the repository, an end, a report, and a served chain join |
| AgentRuns.EditThenRead | src/eval/sfx_live_agent.py:719-893 | an agent none of whose awaits fails leaves the trace of that run when it executes a literal edit and is then served a read |
| Forks.ClonefileFork | src/sfx/fork.py:265-283 | the copy shows the same at every path, shares no inode with the source, has its hard-link partition and stores every inode it names |
| Forks.ClonesMirror | src/sfx/fork.py:265-283 | a fresh clone mirrors its repository by inodes of its own |
| Forks.CloneAdmits | src/sfx/substrate.py:19-30 | a clone admits every write its repository admits |
| Forks.ValidateUnder | src/sfx/fork.py:36-50 | the component loop admits a write exactly when every existing ancestor is a directory and an existing target is a regular file with one link |
| Forks.AdmitsIff | src/sfx/fork.py:38-50 | a write is admitted if and only if whatever exists above its target is a directory and an existing target is a regular file no other path of the machine shares |
| WritePaths.WritePathIs | src/sfx/fork.py:22-37 | lexically, a write path is admitted if and only if it has no NUL, is not absolute, has no component `..` and has one that names something |
| Forks.WriteTextInFork | src/sfx/fork.py:53-83 | the loop makes missing ancestors and gives the target an inode of its own, and raises exactly when an ancestor is no directory or the target no regular file |
| Forks.WrittenIs | src/sfx/fork.py:53-88 | path by path: every directory above the target exists afterwards, the target is a file of an inode of its own, and everything else is as it was |
| Forks.AdmittedWriteAgrees | src/sfx/substrate.py:19-30 | an admitted write shows at every path, inside and outside the repository, the same in the fork as a redirection in the repository, if and only if the repository has every directory it needs |
| Forks.AdmittedIntoMissingDirectory | src/sfx/fork.py:36-50 | a write into a missing directory is admitted under both roots, and the fork alone ends up with it |
| Forks.SharedTargetDiffers | src/sfx/substrate.py:23-29 | a target shared with another path reads differently somewhere, whatever other contents are written |
| Forks.ReplacementAgreesIff | src/sfx/substrate.py:23-29 | the two writes agree for all contents if and only if the repository has the directories and an existing target has one link |
| Forks.Apply | src/sfx/substrate.py:19-30 | both roots are validated before anything is written; an admitted write never raises later |
| Forks.ForkAndApply | src/sfx/substrate.py:19-30 | fork, then write: the write goes through exactly when the repository admits it, and then shows the same as in the repository exactly when the directories are there |
| Predictors.Predictor.Observe | src/sfx/predictor.py:21-25 | with a window of k + 1 events the session counts stay those of the whole history |
| Predictors.KeysAreExact | src/sfx/schema.py:51-55 | two histories share a counter if and only if they agree on the last role, the visible outcome and the kinds looked back on |
| Predictors.CountSessions | src/mining/mine.py:21-27 | the batch loops count exactly the positions of every session's history |
| Predictors.OnlineIsBatch | src/sfx/predictor.py:21-25 | the online and the batch dictionary of a history are equal and their grand total is the number of events minus one |
| Predictors.ZeroWindowDiffers | src/sfx/schema.py:51-55 | with a look-back of zero the two context keys differ |
| Blends.Propose | src/sfx/predictor.py:27-51 | a descending list of the weighted mixture of the sources that exist, of total probability one; empty without a source |
| Blends.BlendSources | src/sfx/predictor.py:46-50 | the nested loops compute the mixture, and its mass is one |
| Blends.ShareIs | src/sfx/predictor.py:27-40 | the session's share of the weight of the sources `propose` mixes, as a formula in its count |
| Blends.ShareNeverFalls | src/sfx/predictor.py:27-40 | among the sources `propose` mixes, the session's share of the weight never decreases as its counts grow |
| Blends.OutweighsAtThirteen | src/sfx/predictor.py:33-40 | against one prior at the cap the session outweighs it if and only if it has thirteen observations or more |
| Blends.HalfFromTwenty | src/sfx/predictor.py:33-40 | from twenty observations the session holds half the weight against any two priors, and against two at the cap exactly from then on |
| Tables.Persist | src/sfx/daemon.py:99-120 | one session end turns the file into the table of the merged counts, or leaves it when nothing was counted |
| Tables.PersistMerges | src/sfx/daemon.py:99-120 | the file of some counts becomes the file of the pointwise sum |
| Tables.PersistedAll | src/sfx/daemon.py:99-120 | any sequence of session ends, from no file on, leaves the file of the sum of all counts |
| Tables.OrderIndependent | src/sfx/daemon.py:99-120 | the file does not depend on the order in which sessions end |
| Tables.GroupingIndependent | src/sfx/daemon.py:99-120 | the file does not depend on how counts are grouped before they are merged |
| Tables.RoundingRecovers | src/sfx/daemon.py:106-109 | rounding at reload recovers one count below 2^51 although division and product each err by up to 2^-53 |
| Tables.RoundingRecoversLarge | src/sfx/daemon.py:106-109 | with a support above 2^53, itself rounded to a float, it still recovers one count below 2^50 |
| Tables.FloatLossless | src/sfx/daemon.py:99-120 | whatever each division, product and large support rounds to, any sequence of session ends leaves the float file of the sum of all counts, and no file when all are empty, as long as counts stay below 2^51, and below 2^50 where the support has passed 2^53 |
| Tables.FloatOrderIndependent | src/sfx/daemon.py:99-120 | two float runs over the same sessions in any order are read back as the same counts |
| Tables.ExactRunIsFloatRun | src/sfx/daemon.py:99-120 | the exact run is one of the float runs |
| HostBrokers.NothingOkAfterPoison | src/eval/sidecar_rpc.py:89-95 | after poison no request is dispatched, no ok reply written, no close returns normally, and no second poison is recorded |
| HostBrokers.NormalCloseIsQuiet | src/eval/sidecar_rpc.py:211-238 | `aclose` returns normally only if the broker was not poisoned and every worker ever dispatched has finished |
| HostBrokers.HostBroker.Poison | src/eval/sidecar_rpc.py:89-91 | the first reason is kept |
| HostBrokers.HostBroker.Dispatch | src/eval/sidecar_rpc.py:131-142 | a worker is started exactly for a well-formed request to an open, unpoisoned broker; anything else poisons with the first reason, starts the termination once and leaves the handler to wait for it |
| HostBrokers.HostBroker.WorkerAnswered | src/eval/sidecar_rpc.py:143-195 | an ok reply is written if and only if the answer is good and nothing has poisoned the broker meanwhile; otherwise the poison, the log and the handler's state are exact |
| HostBrokers.HostBroker.StartQuiescing | src/eval/sidecar_rpc.py:97-112 | the termination callback is started at most once, only after poison, and always then |
| HostBrokers.HostBroker.HandlerBroken | src/eval/sidecar_rpc.py:196-209 | a cancelled handler poisons |
| HostBrokers.HostBroker.ReplyLost | src/eval/sidecar_rpc.py:196-209 | a lost reply poisons and quiesces, and nothing is answered ok any more |
| HostBrokers.WaitedStays | src/eval/sidecar_rpc.py:211-238 | no worker is dispatched once closing has begun, so the workers waited for are all that can be unfinished, whatever runs meanwhile |
| HostBrokers.HostBroker.CloseDrained | src/eval/sidecar_rpc.py:211-238 | after the wait every dispatched worker has finished or the broker is poisoned |
| HostBrokers.HostBroker.CloseEnd | src/eval/sidecar_rpc.py:211-238 | the close returns normally if and only if there is no poison, whatever ran since the drain |
| ModelTools.ParseInvertsCanonical | src/eval/model_tools.py:38-60 | parsing answers a command if and only if the text is its canonical wrapping, and the end exactly for DONE |
| ModelTools.CommandIsWrapped | src/eval/model_tools.py:38-60 | a text carries a command if and only if it is the command between the two fences, without NUL and not blank |
| ModelTools.NativeBashMessages | src/eval/model_tools.py:63-96 | the conversion loop accepts exactly the histories in which every command is followed by its output |
| ModelTools.PairedIff | src/eval/model_tools.py:63-96 | message by message, which histories are accepted: whatever is not the system's or the user's is a command followed at once by its output |
| ModelTools.HistoryRoundTrip | src/eval/model_tools.py:63-96 | the conversion can be undone |
| ModelTools.HistoryIsWellPaired | src/eval/model_tools.py:63-96 | calls get ascending ids and each is answered at once by the output of its own id |
| NativeStreams.StreamNativeBash | src/eval/model_tools.py:173-261 | an action appears if and only if the chunks before the first end mark are proper and say so: reason "tool_calls" with one complete well-named call decoding to it, or reason "stop", no call and "DONE"; any other reason yields none and raises nothing |
| NativeStreams.ProperIff | src/eval/model_tools.py:129-149 | chunk by chunk, which sequences the reader takes: indices, ids, fragments and finish reasons |
| NativeStreams.ConcatenationDecides | src/eval/model_tools.py:173-261 | two well-formed streams with the same id, concatenated names, arguments and contents, finish reason and called flag come to the same action or error, however they are cut and whatever follows the end mark |
| NativeStreams.FragmentationIrrelevant | src/eval/model_tools.py:129-149 | wherever a name or argument fragment is cut in two, the stream stays well-formed and comes to the same thing |
| ScriptContracts.CheckContracts | src/sfx/script_contracts.py:52-99 | the constructor accepts exactly lists of distinct, well-named Python scripts with distinct, unambiguous, non-mutating options and pins that are proper paths with sha256 digests |
| ScriptContracts.ReadArgs | src/sfx/script_contracts.py:128-163 | the index loop finds a reading of the arguments allowed by the grammar if there is one, and its paths in order |
| ScriptContracts.Match | src/sfx/script_contracts.py:111-164 | an invocation is accepted if and only if some contract allows some reading of the words; under an ordinary repository its script and every path lie under the repository and name the files the words named |
| ScriptContracts.OneReading | src/sfx/script_contracts.py:111-164 | a command line has at most one reading |
| ScriptContracts.RelativeStaysInside | src/sfx/script_contracts.py:32-41 | an accepted path is relative, free of `..` and its own canonical form |
| ScriptContracts.RelativeIff | src/sfx/script_contracts.py:32-41 | a path is accepted if and only if it has no way out and, being absolute, its components are the repository's followed by others; rejoined to the repository, the answer names the same components |
| ScriptContracts.AcceptedWords | src/sfx/script_contracts.py:128-164 | in an accepted command line each option is declared, given once and changes no file; help stands alone, and without it every required option is there |
| ScriptContracts.InvocationStaysInside | src/sfx/script_contracts.py:128-164 | every path of an accepted invocation is relative and free of `..`, the script first |

## Left out

- SessionObjects.SessionObject: a chain and a claim are told apart by the chain's number, not by object identity; `Ownership.OneOwner` proves that at most one waiter can match. What the model then does not capture is a second reference to the same chain object.
- DaemonObjects.DaemonObject: sessions are rows of a store under their identity rather than references to `SessionObject`; the daemon's methods update rows, so aliasing between sessions is not modelled.
- CacheObjects.CacheObject: the clock is read once per operation, where `bump_epoch` reads it several times for one job.
- Runs.Step: the executor's slots, the gate's thresholds and the predictor's choice do not restrict which reads a step may launch; every admissible and inadmissible choice is a run.
- Runs.Fair: a live-repository command sees one repository state per step; a command that reads while the repository changes may answer anything.
- Forks.WrittenThrough: a redirection through a symbolic link is not followed; no admitted target is one.
- WritePaths.Split: the lexical half of `validate_write_path` only; the checks on existing links are in `Forks.ValidateUnder`.
- Blends.Propose: kinds of equal probability may come in any order, where the source keeps insertion order.
- Tables.FloatLossless: floating point enters as a relative error of 2^-53 on the division, on the product and on a support above 2^53; overflow and subnormal numbers are not modelled.
- ScriptContracts.Match: starts from an already split word list; the character blacklist and shell splitting before it are library string matching, comparing the source pins with the files' digests is hashing.
- ScriptContracts.CheckContracts: which characters are word characters is a parameter, where the source asks the regular expression library.
- ModelTools.ParseNativeAction: stripping knows the Latin-1 white space only; the native call's JSON is its command, its id the number in the alias.
- NativeStreams.StreamNativeBash: JSON decoding of arguments is an arbitrary function; malformed chunks of every kind are one refusal; a conflict between the two reasoning fields is such a refusal.
- HostBrokers.HostBroker: socket setup and removal, message encoding and the contents of requests and replies.
- AgentRuns.Performs: speaks of one agent; other clients may do anything but end its brackets, feed outside a bracket, change a repository that has none open, or stop the daemon while the agent has one open. A command that goes on changing the repository after its execution was given up is not such a run.
- LiveAgents.LiveAgent: recognising a literal edit and classifying a command are arbitrary functions; diagnostics, receipts and persistence are omitted.
- Thread timing, wait timeouts and lock acquisition: a wait is any number of other steps in between.
- `run_chain`'s multi-hop loop: the daemon only submits one-hop chains.
- `authoritative`, `drain` and `promote` bookkeeping beyond slots, idle ticks, oracle trajectories, tracing and logging.
- Substrate probing, overlay and reflink forks, mounts and teardown.
- Sockets, command-line clients, container control, HTTP streaming and token budgets.
- Corpus normalisation, offline evaluation, reporting and parity checks.
