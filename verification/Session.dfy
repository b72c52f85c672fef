/**
 * One session of src/sfx/daemon.py: its cache, its executor's tasks and the
 * chain state machine (`_submit_chain`, `_resolve_chain`,
 * `_finish_chain_claim`, `_discard_chain`).
 */
module Sessions {
  import opened Common
  import opened Caches
  import opened WritePaths
  import L = Ledgers

  type MutationId = nat
  type FS = map<seq<string>, string>

  datatype Write = Write(path: string, contents: string)

  function WriteArgs(w: Write): Args {
    map["path" := w.path, "contents" := w.contents]
  }

  /** The repository with the write in it. */
  function Applied(w: Write, fs: FS): FS {
    match ValidateWritePath(w.path)
    case Some(p) => fs[p := w.contents]
    case None => fs
  }

  /** What `_write_is_committed` reads back from the repository. */
  predicate Landed(w: Write, fs: FS) {
    match ValidateWritePath(w.path)
    case Some(p) => p in fs && fs[p] == w.contents
    case None => false
  }

  datatype Policy = Free | Fork | Never

  /** KIND_POLICY.get(kind, "never"). */
  function KindPolicy(kind: string): Policy {
    if kind in {"read", "grep", "search", "test", "lint", "typecheck", "build", "run", "sub-LLM"} then Free
    else if kind == "edit" then Fork
    else Never
  }

  /* State */

  datatype Future = Pending | Succeeded | Failed

  /** `fed` is the mutation the write was streamed under, if any. */
  datatype Chain = Chain(id: nat, write: Write, hops: seq<Call>, future: Option<Future>, fed: Option<MutationId>)

  datatype ChainClaim = ChainClaim(chain: nat, job: SpecId, hop: nat)

  /** What a pool thread was told to run: on the live repository, or in a fork with a write applied. */
  datatype Lane = OnRepo | InFork(write: Write, fed: Option<MutationId>)

  /** `seen` holds every state the repository has been in since the reservation. */
  datatype Task = Task(lane: Lane, seen: set<FS>, running: bool)

  datatype Settings = Settings(specDisabled: bool, streams: bool, intercepts: bool, registered: Option<set<string>>)

  datatype Session = Session(
    sid: string,
    repo: string,
    settings: Settings,
    cache: Cache,
    tasks: map<SpecId, Task>,
    dropped: set<SpecId>,
    chain: Option<Chain>,
    claim: Option<ChainClaim>,
    cursor: nat,
    chainSpecIds: seq<SpecId>,
    realHops: seq<Call>,
    streamedWrite: bool,
    chainMutation: Option<MutationId>,
    completed: map<MutationId, bool>,
    chains: nat)

  function NewSession(sid: string, repo: string, settings: Settings): Session {
    Session(sid, repo, settings, EMPTY, map[], {}, None, None, 0, [], [], false, None, map[], 0)
  }

  /* Chain steps */

  function DiscardOne(c: Cache, id: SpecId): Cache {
    if id in c.ledger.terminated then c
    else DiscardSpec(c.(ledger := L.Terminate(c.ledger, id, L.Discarded, 0.0, 0.0)), id)
  }

  function DiscardIds(c: Cache, ids: seq<SpecId>): Cache
    decreases |ids|
  {
    if ids == [] then c else DiscardIds(DiscardOne(c, ids[0]), ids[1..])
  }

  function From<T>(xs: seq<T>, i: nat): seq<T> {
    if i <= |xs| then xs[i..] else []
  }

  function DiscardChain(s: Session, fromHop: nat): Session {
    s.(cache := DiscardIds(s.cache, From(s.chainSpecIds, fromHop)),
       chain := None, claim := None, chainMutation := None)
  }

  /** What an invalidation of the repository does to one of its sessions. */
  function Invalidate(s: Session, now: real): Session {
    var t := if s.chain.Some? then DiscardChain(s, 0) else s;
    t.(streamedWrite := false, cache := BumpEpoch(t.cache, now))
  }

  function Speculate(s: Session, call: Call, now: real, fs: FS): Session {
    s.(cache := Reserve(s.cache, call, now, false),
       tasks := s.tasks[s.cache.n := Task(OnRepo, {fs}, true)])
  }

  /** The session a streamed write starts from: no chain, the write noted. */
  function Cleared(s: Session, fed: Option<MutationId>): Session {
    (if fed.Some? && s.chain.Some? then DiscardChain(s, 0) else s).(chainMutation := fed, streamedWrite := true)
  }

  function EmptyChain(t: Session, w: Write, fed: Option<MutationId>): Session {
    t.(chain := Some(Chain(t.chains, w, [], None, fed)), chains := t.chains + 1,
       cursor := 0, chainSpecIds := [], realHops := [])
  }

  /** `_submit_chain` once a fork substrate is known to exist. */
  function LaunchChain(t: Session, w: Write, fed: Option<MutationId>, call: Call, now: real, fs: FS): Session {
    t.(cache := Reserve(t.cache, call, now, false),
       tasks := t.tasks[t.cache.n := Task(InFork(w, fed), {fs}, true)],
       chain := Some(Chain(t.chains, w, [call], Some(Pending), fed)), chains := t.chains + 1,
       cursor := 0, chainSpecIds := [t.cache.n], realHops := [])
  }

  /** Builds the chain of a streamed write; `pred` is the predicted next call, if one was admitted. */
  function StartChain(s: Session, w: Write, fed: Option<MutationId>, pred: Option<Call>,
                      substrate: bool, now: real, fs: FS): Session {
    var t := Cleared(s, fed);
    if ValidateWritePath(w.path) == None then t
    else match pred
      case None => EmptyChain(t, w, fed)
      case Some(call) => if substrate then LaunchChain(t, w, fed, call, now, fs) else t.(chain := None)
  }

  /* Resolving a call */

  datatype Reply = Declined | Served(completed: bool, output: Output) | Edited(contents: string)

  datatype Started =
    | Answered(s: Session, reply: Reply)
    | Joining(s: Session, job: Option<SpecId>, claim: Option<ChainClaim>)

  /** How far two call lists agree. */
  function LongestPrefix(speculated: seq<Call>, actual: seq<Call>): (n: nat)
    ensures n <= |speculated| && n <= |actual| && speculated[..n] == actual[..n]
    ensures n < |speculated| && n < |actual| ==> speculated[n] != actual[n]
  {
    if speculated == [] || actual == [] || speculated[0] != actual[0] then 0
    else
      var m := LongestPrefix(speculated[1..], actual[1..]);
      assert speculated[..m + 1] == [speculated[0]] + speculated[1..][..m];
      assert actual[..m + 1] == [actual[0]] + actual[1..][..m];
      m + 1
  }

  function ResolveChain(s: Session, call: Call): Started
    requires s.chain.Some?
  {
    var chain := s.chain.value;
    if s.claim.Some? then Answered(s, Declined)
    else if s.cursor == 0 then
      if call != Call("edit", WriteArgs(chain.write)) then Answered(DiscardChain(s, 0), Declined)
      else Answered(s.(cursor := 1, chain := if chain.hops == [] then None else s.chain),
                    Edited(chain.write.contents))
    else
      var hop := s.cursor - 1;
      var actual := s.realHops + [call];
      if LongestPrefix(chain.hops, actual) < |actual| then Answered(DiscardChain(s, hop), Declined)
      else
        var job := ClaimedId(s.cache, call);
        var t := s.(cache := Claim(s.cache, call));
        if job == None || hop >= |s.chainSpecIds| || job.value != s.chainSpecIds[hop] then
          Answered(DiscardChain(t, hop), Declined)
        else
          var claim := ChainClaim(chain.id, job.value, hop);
          Joining(t.(realHops := actual, cursor := s.cursor + 1, claim := Some(claim)), job, Some(claim))
  }

  /** The locked first half of `resolve`; `open` says a mutation fences the repository. */
  function ResolveStart(s: Session, call: Call, open: bool): Started {
    if s.settings.specDisabled || open
       || (!s.settings.intercepts && s.settings.registered.Some? && call.kind !in s.settings.registered.value)
       || KindPolicy(call.kind) == Never then
      Answered(s, Declined)
    else if s.chain.Some? then ResolveChain(s, call)
    else Joining(s.(cache := Claim(s.cache, call)), ClaimedId(s.cache, call), None)
  }

  datatype Finished = Finished(s: Session, reply: Reply)

  function ReplyOf(o: Outcome): Reply {
    match o
    case Miss => Declined
    case Hit(completed, output) => Served(completed, output)
  }

  /** The locked second half of `resolve` for a job claimed outside a chain. */
  function FinishPlain(s: Session, job: Option<SpecId>, current: bool, open: bool, ask: real): Finished {
    if !current || open then Finished(s, Declined)
    else Finished(s.(cache := Finish(s.cache, job, ask)), ReplyOf(FinishOutcome(s.cache, job, ask)))
  }

  predicate Owned(s: Session, claim: ChainClaim) {
    s.chain.Some? && s.chain.value.id == claim.chain && s.claim == Some(claim)
  }

  /** The locked second half of `resolve` for a chain hop, `_finish_chain_claim`. */
  function FinishChainClaim(s: Session, claim: ChainClaim, completed: bool,
                            current: bool, open: bool, ask: real): Finished {
    var valid := Owned(s, claim) && current && !open
                 && claim.job in s.cache.objs && s.cache.objs[claim.job].epoch == s.cache.epoch;
    var outcome := if valid && completed then FinishOutcome(s.cache, Some(claim.job), ask) else Miss;
    if outcome == Miss then
      if Owned(s, claim) then Finished(DiscardChain(s, claim.hop), Declined)
      else
        var ledger := if claim.job in s.cache.ledger.terminated then s.cache.ledger
                      else L.Terminate(s.cache.ledger, claim.job, L.Discarded, 0.0, 0.0);
        Finished(s.(cache := DiscardSpec(s.cache.(ledger := ledger), claim.job),
                    claim := if s.claim == Some(claim) then None else s.claim), Declined)
    else
      Finished(s.(cache := Finish(s.cache, Some(claim.job), ask), claim := None,
                  chain := if claim.hop + 1 >= |s.chain.value.hops| then None else s.chain),
               ReplyOf(outcome))
  }

  /* Worker steps */

  function WorkerCompletes(s: Session, id: SpecId, result: Output, duration: real): Session
    requires id in s.tasks
  {
    s.(cache := Complete(s.cache, id, result, duration), tasks := s.tasks[id := s.tasks[id].(running := false)])
  }

  function WorkerFails(s: Session, id: SpecId): Session
    requires id in s.tasks
  {
    s.(cache := DiscardSpec(s.cache, id), dropped := s.dropped + {id},
       tasks := s.tasks[id := s.tasks[id].(running := false)])
  }

  function Settle(s: Session, ok: bool): Session {
    if s.chain.Some? && s.chain.value.future.Some? then
      s.(chain := Some(s.chain.value.(future := Some(if ok then Succeeded else Failed))))
    else s
  }

  /** `_preempt_one` on a running read-lane task. */
  function Preempt(s: Session, id: SpecId, now: real): Session {
    if id in s.cache.objs && id in s.tasks && s.tasks[id].lane.OnRepo? && id !in s.cache.ledger.terminated then
      s.(cache := s.cache.(ledger :=
           L.Terminate(s.cache.ledger, id, L.Preempted, 0.0, WastedMs(s.cache.objs[id], now))))
    else s
  }

  /** The repository's next state, seen by every task of the session. */
  function Observe(s: Session, fs: FS): Session {
    s.(tasks := map id | id in s.tasks :: s.tasks[id].(seen := s.tasks[id].seen + {fs}))
  }
}
