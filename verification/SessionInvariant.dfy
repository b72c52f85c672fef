/** What every step of a session keeps (src/sfx/daemon.py:454-680). */
module SessionInvariants {
  import opened Common
  import opened Caches
  import opened WritePaths
  import opened Sessions
  import L = Ledgers

  /** The executor knows a task for every job, and only workers it launched fail. */
  ghost predicate TasksMatch(s: Session) {
    && s.tasks.Keys == s.cache.objs.Keys
    && s.dropped <= s.tasks.Keys
    && (forall id :: id in s.dropped ==> !s.tasks[id].running && !Resident(s.cache, id))
  }

  /**
   * The chain state machine: the followed hops are the prefix before the
   * cursor, every hop has its spec id, and a set claim names the current chain
   * and its last followed hop. The daemon submits one-hop chains only.
   */
  ghost predicate ChainShape(s: Session) {
    && (s.chain == None ==> s.claim == None)
    && (s.chain.Some? ==>
          var ch := s.chain.value;
          && ch.id < s.chains
          && ValidateWritePath(ch.write.path).Some?
          && |ch.hops| == |s.chainSpecIds| <= 1
          && (s.cursor == 0 ==> s.realHops == [])
          && (0 < s.cursor ==> s.cursor - 1 <= |ch.hops| && s.realHops == ch.hops[..s.cursor - 1])
          && (s.claim == None ==> s.cursor == 0 || s.cursor - 1 < |ch.hops|)
          && (s.claim.Some? ==>
                var cl := s.claim.value;
                && cl.chain == ch.id && s.cursor == cl.hop + 2 && cl.hop < |s.chainSpecIds|
                && cl.job == s.chainSpecIds[cl.hop]))
  }

  /** The chain's spec is the job its fork task was launched for. */
  ghost predicate ChainTask(s: Session) {
    s.chain.Some? && s.chainSpecIds != [] ==>
      var id := s.chainSpecIds[0];
      && id in s.tasks && id in s.cache.objs
      && s.tasks[id].lane == InFork(s.chain.value.write, s.chain.value.fed)
      && s.chain.value.hops == [s.cache.objs[id].call]
  }

  /** A fork job that can still be delivered belongs to the current chain. */
  ghost predicate ForkOwned(s: Session) {
    forall id :: id in s.tasks && s.tasks[id].lane.InFork? && Resident(s.cache, id)
                 && id !in s.cache.ledger.terminated ==>
      s.chain.Some? && s.chainSpecIds == [id]
  }

  ghost predicate Valid(s: Session) {
    && Caches.Valid(s.cache, s.dropped)
    && TasksMatch(s)
    && ChainShape(s)
    && ChainTask(s)
    && ForkOwned(s)
  }

  lemma ValidParts(s: Session)
    requires Valid(s)
    ensures Caches.Valid(s.cache, s.dropped) && TasksMatch(s) && ChainShape(s) && ChainTask(s) && ForkOwned(s)
  {
  }

  /* Discarding */

  /** `d` is `c` with some jobs taken out of the table. */
  ghost predicate Thinned(c: Cache, d: Cache) {
    && SameIdentities(c, d)
    && d.epoch == c.epoch && d.n == c.n
    && (forall id :: id in c.objs ==> d.objs[id].call == c.objs[id].call)
    && c.ledger.terminated <= d.ledger.terminated
    && (forall id :: id in c.objs && Resident(d, id) ==> Resident(c, id) && d.objs[id] == c.objs[id])
  }

  lemma ThinnedReflexive(c: Cache)
    ensures Thinned(c, c)
  {
  }

  lemma ThinnedTransitive(c: Cache, d: Cache, e: Cache)
    requires Thinned(c, d) && Thinned(d, e)
    ensures Thinned(c, e)
  {
  }

  lemma DiscardThins(c: Cache, id: SpecId)
    requires Table(c)
    ensures Thinned(c, DiscardSpec(c, id))
    ensures id in c.objs ==> !Resident(DiscardSpec(c, id), id)
  {
    DiscardKeepsTable(c, id);
  }

  /** The cache after its ledger ends `id`, unless it has already. */
  function Ended(c: Cache, id: SpecId): Cache {
    if id in c.ledger.terminated then c else c.(ledger := L.Terminate(c.ledger, id, L.Discarded, 0.0, 0.0))
  }

  lemma EndedKeeps(c: Cache, dropped: set<SpecId>, id: SpecId)
    requires Caches.Valid(c, dropped) && id in c.objs
    ensures Caches.Valid(DiscardSpec(Ended(c, id), id), dropped)
    ensures Thinned(c, DiscardSpec(Ended(c, id), id))
    ensures !Resident(DiscardSpec(Ended(c, id), id), id)
  {
    EndedThins(c, id);
    hide Thinned;
    if id !in c.ledger.terminated {
      TerminateKeepsCache(c, dropped, id, L.Discarded, 0.0, 0.0);
    }
    hide Caches.Valid, Resident, KeyOf;
    DiscardKeepsValid(Ended(c, id), dropped, id);
  }

  lemma EndedThins(c: Cache, id: SpecId)
    requires Table(c) && id in c.objs
    ensures Thinned(c, DiscardSpec(Ended(c, id), id))
    ensures !Resident(DiscardSpec(Ended(c, id), id), id)
  {
    RelabelKeepsTable(c, Ended(c, id).ledger);
    assert Ended(c, id) == c.(ledger := Ended(c, id).ledger);
    DiscardThins(Ended(c, id), id);
  }

  lemma DiscardOneThins(c: Cache, id: SpecId)
    requires Table(c) && id in c.objs
    ensures Thinned(c, DiscardOne(c, id))
    ensures id !in c.ledger.terminated ==> !Resident(DiscardOne(c, id), id)
  {
    if id !in c.ledger.terminated {
      EndedThins(c, id);
    }
  }

  lemma DiscardOneKeeps(c: Cache, dropped: set<SpecId>, id: SpecId)
    requires Caches.Valid(c, dropped) && id in c.objs
    ensures Caches.Valid(DiscardOne(c, id), dropped)
    ensures id in DiscardOne(c, id).ledger.terminated
  {
    if id !in c.ledger.terminated {
      TerminateKeepsCache(c, dropped, id, L.Discarded, 0.0, 0.0);
      DiscardKeepsValid(c.(ledger := L.Terminate(c.ledger, id, L.Discarded, 0.0, 0.0)), dropped, id);
    }
  }

  lemma DiscardIdsKeep(c: Cache, dropped: set<SpecId>, ids: seq<SpecId>)
    requires Caches.Valid(c, dropped) && |ids| <= 1 && forall id :: id in ids ==> id in c.objs
    ensures Caches.Valid(DiscardIds(c, ids), dropped)
    ensures Thinned(c, DiscardIds(c, ids))
    ensures forall id :: id in ids ==> id in DiscardIds(c, ids).ledger.terminated
    ensures forall id :: id in ids && id !in c.ledger.terminated ==> !Resident(DiscardIds(c, ids), id)
  {
    hide Caches.Valid, Table, Thinned, Resident, KeyOf, DiscardOne;
    ValidTable(c, dropped);
    ThinnedReflexive(c);
    if ids != [] {
      DiscardOneKeeps(c, dropped, ids[0]);
      DiscardOneThins(c, ids[0]);
      assert ids == [ids[0]] && DiscardIds(c, ids) == DiscardIds(DiscardOne(c, ids[0]), []);
    }
  }

  /** A session may go on with a thinned cache. */
  lemma ThinnedKeepsValid(s: Session, d: Cache, dropped: set<SpecId>)
    requires Valid(s) && Thinned(s.cache, d) && Caches.Valid(d, dropped)
    requires s.dropped <= dropped <= s.tasks.Keys
    requires forall id :: id in dropped ==> !s.tasks[id].running && (id !in s.dropped ==> !Resident(d, id))
    ensures Valid(s.(cache := d, dropped := dropped))
  {
    hide Caches.Valid, Resident, KeyOf;
  }

  lemma DiscardChainKeepsValid(s: Session)
    requires Valid(s) && s.chain.Some?
    ensures Valid(DiscardChain(s, 0))
    ensures Thinned(s.cache, DiscardChain(s, 0).cache)
  {
    hide Caches.Valid, KeyOf, Resident, Thinned, DiscardIds;
    assert From(s.chainSpecIds, 0) == s.chainSpecIds;
    DiscardIdsKeep(s.cache, s.dropped, s.chainSpecIds);
    ThinnedStays(s.cache, DiscardChain(s, 0).cache);
  }

  lemma ThinnedStays(c: Cache, d: Cache)
    requires Thinned(c, d)
    ensures d.objs.Keys == c.objs.Keys && c.ledger.terminated <= d.ledger.terminated
    ensures forall id :: id in c.objs && Resident(d, id) ==> Resident(c, id)
  {
  }

  lemma InvalidateKeepsValid(s: Session, now: real)
    requires Valid(s)
    ensures Valid(Invalidate(s, now))
    ensures Invalidate(s, now).cache.jobs == map[]
    ensures Invalidate(s, now).chain == None
    ensures Invalidate(s, now).cache.epoch == s.cache.epoch + 1
    ensures SameIdentities(s.cache, Invalidate(s, now).cache)
    ensures s.cache.ledger.terminated <= Invalidate(s, now).cache.ledger.terminated
  {
    if s.chain.Some? {
      DiscardChainKeepsValid(s);
    }
    var t := if s.chain.Some? then DiscardChain(s, 0) else s;
    BumpKeepsValid(t.cache, t.dropped, now);
  }

  /* Launching */

  lemma SpeculateKeepsValid(s: Session, call: Call, now: real, fs: FS)
    requires Valid(s)
    ensures Valid(Speculate(s, call, now, fs))
    ensures forall id :: id in s.tasks ==>
              Resident(Speculate(s, call, now, fs).cache, id) == Resident(s.cache, id)
  {
    hide Caches.Valid, Resident, KeyOf, Reserve;
    ReserveKeepsValid(s.cache, s.dropped, call, now, false);
  }

  lemma LaunchChainOwned(t: Session, w: Write, fed: Option<MutationId>, call: Call, now: real, fs: FS)
    requires Valid(t) && t.chain == None
    ensures ForkOwned(LaunchChain(t, w, fed, call, now, fs))
  {
    hide Caches.Valid, Resident, KeyOf, Reserve, TasksMatch, ChainShape, ChainTask;
    ReserveKeepsValid(t.cache, t.dropped, call, now, false);
    var d := LaunchChain(t, w, fed, call, now, fs);
    forall id | id in d.tasks && d.tasks[id].lane.InFork? && Resident(d.cache, id)
                && id !in d.cache.ledger.terminated
      ensures d.chainSpecIds == [id]
    {
      TaskKeys(t);
    }
  }

  lemma TaskKeys(s: Session)
    requires Valid(s)
    ensures s.tasks.Keys == s.cache.objs.Keys
  {
  }

  lemma LaunchChainKeepsValid(t: Session, w: Write, fed: Option<MutationId>, call: Call, now: real, fs: FS)
    requires Valid(t) && t.chain == None && ValidateWritePath(w.path).Some?
    ensures Valid(LaunchChain(t, w, fed, call, now, fs))
    ensures forall id :: id in t.tasks ==>
              Resident(LaunchChain(t, w, fed, call, now, fs).cache, id) == Resident(t.cache, id)
  {
    hide Caches.Valid, Resident, KeyOf, Reserve, TasksMatch, ChainShape, ChainTask, ForkOwned;
    ReserveKeepsValid(t.cache, t.dropped, call, now, false);
    TaskKeys(t);
    LaunchChainShape(t, w, fed, call, now, fs);
    LaunchChainTasks(t, w, fed, call, now, fs);
    LaunchChainOwned(t, w, fed, call, now, fs);
  }

  lemma LaunchChainShape(t: Session, w: Write, fed: Option<MutationId>, call: Call, now: real, fs: FS)
    requires Valid(t) && t.chain == None && ValidateWritePath(w.path).Some?
    ensures ChainShape(LaunchChain(t, w, fed, call, now, fs)) && ChainTask(LaunchChain(t, w, fed, call, now, fs))
  {
    hide Caches.Valid, Resident, Reserve, ValidateWritePath, TasksMatch, ForkOwned;
    ReserveKeepsValid(t.cache, t.dropped, call, now, false);
  }

  lemma LaunchChainTasks(t: Session, w: Write, fed: Option<MutationId>, call: Call, now: real, fs: FS)
    requires Valid(t)
    ensures TasksMatch(LaunchChain(t, w, fed, call, now, fs))
  {
    hide Caches.Valid, Resident, KeyOf, Reserve, ChainShape, ChainTask, ForkOwned;
    ReserveKeepsValid(t.cache, t.dropped, call, now, false);
  }

  lemma ClearedKeepsValid(s: Session, fed: Option<MutationId>)
    requires Valid(s)
    requires fed == None ==> s.chain == None
    ensures Valid(Cleared(s, fed)) && Cleared(s, fed).chain == None
    ensures Thinned(s.cache, Cleared(s, fed).cache)
  {
    hide Caches.Valid, Resident, KeyOf;
    if s.chain.Some? {
      DiscardChainKeepsValid(s);
    }
  }

  lemma EmptyChainKeepsValid(t: Session, w: Write, fed: Option<MutationId>)
    requires Valid(t) && t.chain == None && ValidateWritePath(w.path).Some?
    ensures Valid(EmptyChain(t, w, fed))
  {
    hide Caches.Valid, Resident, KeyOf;
  }

  lemma StartChainKeepsValid(s: Session, w: Write, fed: Option<MutationId>, pred: Option<Call>,
                             substrate: bool, now: real, fs: FS)
    requires Valid(s)
    requires fed == None ==> s.chain == None
    ensures Valid(StartChain(s, w, fed, pred, substrate, now, fs))
  {
    hide Valid, Thinned, Resident, KeyOf, LaunchChain, EmptyChain, Cleared;
    ClearedKeepsValid(s, fed);
    var t := Cleared(s, fed);
    assert t.(chain := None) == t;
    if ValidateWritePath(w.path).Some? {
      match pred
      case None => EmptyChainKeepsValid(t, w, fed);
      case Some(call) => LaunchChainKeepsValid(t, w, fed, call, now, fs);
    }
  }

  /* Resolving */

  /** A join points at a job of the session; a chain join carries a claim on it. */
  ghost predicate JoinOk(s: Session, call: Call, job: Option<SpecId>, claim: Option<ChainClaim>) {
    && (job.Some? ==> job.value in s.cache.objs && s.cache.objs[job.value].call == call)
    && (claim.Some? ==> job == Some(claim.value.job))
    && (claim == None && job.Some? ==>
          job.value in s.tasks && (s.tasks[job.value].lane.OnRepo? || job.value in s.cache.ledger.terminated))
    && (claim.Some? ==> job.value in s.tasks && s.tasks[job.value].lane.InFork?)
  }

  /** What the first half of `resolve` leaves behind. */
  ghost predicate StartedOk(s: Session, call: Call, r: Started) {
    && Valid(r.s)
    && Thinned(s.cache, r.s.cache)
    && r.s.tasks == s.tasks
    && (r.Joining? ==> JoinOk(r.s, call, r.job, r.claim))
  }

  lemma ClaimCacheKeeps(s: Session, call: Call)
    requires Valid(s)
    ensures Valid(s.(cache := Claim(s.cache, call)))
    ensures Thinned(s.cache, Claim(s.cache, call))
    ensures ClaimedId(s.cache, call).Some? ==>
              Resident(s.cache, ClaimedId(s.cache, call).value)
              && Resident(Claim(s.cache, call), ClaimedId(s.cache, call).value)
              && s.cache.objs[ClaimedId(s.cache, call).value].call == call
  {
    ClaimKeepsValid(s.cache, s.dropped, call);
  }

  /** Whether a chain past its edit lets `call` join the speculated hop. */
  predicate Follows(s: Session, call: Call)
    requires s.chain.Some?
  {
    && s.claim == None && 0 < s.cursor
    && LongestPrefix(s.chain.value.hops, s.realHops + [call]) == |s.realHops| + 1
    && s.cursor - 1 < |s.chainSpecIds|
    && ClaimedId(s.cache, call) == Some(s.chainSpecIds[s.cursor - 1])
  }

  lemma FollowsKeepsValid(s: Session, call: Call)
    requires Valid(s) && s.chain.Some? && Follows(s, call)
    ensures ResolveChain(s, call).Joining?
    ensures ResolveChain(s, call).claim.Some?
    ensures StartedOk(s, call, ResolveChain(s, call))
    ensures Resident(ResolveChain(s, call).s.cache, s.chainSpecIds[0])
    ensures ResolveChain(s, call).job == Some(s.chainSpecIds[0])
  {
    hide Caches.Valid, Resident, KeyOf, Valid, Thinned, Claim, ClaimedId;
    OneHop(s);
    ClaimCacheKeeps(s, call);
    var t := s.(cache := Claim(s.cache, call));
    var r := t.(realHops := [call], cursor := 2,
                claim := Some(ChainClaim(s.chain.value.id, s.chainSpecIds[0], 0)));
    assert s.realHops + [call] == [call];
    AdvanceKeepsValid(t, call);
    assert ResolveChain(s, call).s == r;
  }

  /** Taking the chain's only hop. */
  lemma AdvanceKeepsValid(t: Session, call: Call)
    requires Valid(t) && t.chain.Some? && t.claim == None && t.cursor == 1
    requires LongestPrefix(t.chain.value.hops, [call]) == 1
    ensures |t.chainSpecIds| == 1 && t.chainSpecIds[0] in t.tasks && t.tasks[t.chainSpecIds[0]].lane.InFork?
    ensures Valid(t.(realHops := [call], cursor := 2,
                     claim := Some(ChainClaim(t.chain.value.id, t.chainSpecIds[0], 0))))
  {
    hide Caches.Valid, Resident, KeyOf;
    assert t.chain.value.hops[..1] == [call][..1];
  }

  /** The only hop position a chain can be at. */
  lemma OneHop(s: Session)
    requires Valid(s) && s.chain.Some? && s.claim == None && 0 < s.cursor
    ensures s.cursor == 1 && |s.chainSpecIds| == 1 && s.realHops == []
  {
  }

  lemma EditFollowedKeepsValid(s: Session)
    requires Valid(s) && s.chain.Some? && s.cursor == 0
    ensures Valid(s.(cursor := 1, chain := if s.chain.value.hops == [] then None else s.chain))
  {
    hide Caches.Valid, Resident, KeyOf;
  }

  /** Giving up on the chain, before or after a claim that did not match. */
  lemma BreakKeepsValid(s: Session, call: Call)
    requires Valid(s) && s.chain.Some?
    ensures Valid(DiscardChain(s, 0)) && Thinned(s.cache, DiscardChain(s, 0).cache)
    ensures var t := DiscardChain(s.(cache := Claim(s.cache, call)), 0);
            Valid(t) && Thinned(s.cache, t.cache)
  {
    hide Valid, Thinned, Resident, KeyOf, Claim, ClaimedId;
    var t := s.(cache := Claim(s.cache, call));
    DiscardChainKeepsValid(s);
    ClaimCacheKeeps(s, call);
    DiscardChainKeepsValid(t);
    ThinnedTransitive(s.cache, t.cache, DiscardChain(t, 0).cache);
  }

  lemma ResolveChainKeepsValid(s: Session, call: Call)
    requires Valid(s) && s.chain.Some?
    ensures StartedOk(s, call, ResolveChain(s, call))
    ensures ResolveChain(s, call).Joining? ==> Follows(s, call)
  {
    hide Valid, Thinned, Resident, KeyOf, Claim, ClaimedId, LongestPrefix, Follows, ResolveChain;
    if Follows(s, call) {
      FollowsKeepsValid(s, call);
    } else {
      NotFollowing(s, call);
    }
  }

  lemma NotFollowing(s: Session, call: Call)
    requires Valid(s) && s.chain.Some? && !Follows(s, call)
    ensures ResolveChain(s, call).Answered?
    ensures StartedOk(s, call, ResolveChain(s, call))
  {
    hide Valid, Thinned, Resident, KeyOf, Claim, ClaimedId, LongestPrefix;
    if s.claim == None && 0 < s.cursor {
      OneHop(s);
    }
    BreakKeepsValid(s, call);
    ThinnedReflexive(s.cache);
    if s.cursor == 0 {
      EditFollowedKeepsValid(s);
    }
  }

  /**
   * Following a hop never indexes past the chain's spec ids, and a second ask
   * is declined while one join is outstanding.
   */
  lemma ResolveChainInRange(s: Session, call: Call)
    requires Valid(s) && s.chain.Some?
    ensures s.claim == None && 0 < s.cursor ==>
              s.cursor - 1 < |s.chainSpecIds| && |s.realHops| == s.cursor - 1
    ensures s.claim.Some? ==> ResolveChain(s, call) == Answered(s, Declined)
  {
  }

  lemma ResolveStartKeepsValid(s: Session, call: Call, open: bool)
    requires Valid(s)
    ensures StartedOk(s, call, ResolveStart(s, call, open))
  {
    hide Caches.Valid, Resident, KeyOf;
    if s.chain.Some? {
      ResolveChainKeepsValid(s, call);
    } else {
      ClaimCacheKeeps(s, call);
    }
  }

  lemma FinishPlainKeepsValid(s: Session, job: Option<SpecId>, current: bool, open: bool, ask: real)
    requires Valid(s)
    ensures Valid(FinishPlain(s, job, current, open, ask).s)
    ensures Thinned(s.cache, FinishPlain(s, job, current, open, ask).s.cache)
  {
    hide Valid, Caches.Valid, Thinned, Finish, FinishOutcome;
    ThinnedReflexive(s.cache);
    if current && !open {
      FinishThins(s, job, ask);
    }
  }

  lemma FinishThins(s: Session, job: Option<SpecId>, ask: real)
    requires Valid(s)
    ensures Thinned(s.cache, Finish(s.cache, job, ask))
    ensures Valid(s.(cache := Finish(s.cache, job, ask)))
  {
    hide Caches.Valid, Resident, KeyOf, TasksMatch, ChainShape, ChainTask, ForkOwned;
    ValidParts(s);
    FinishKeepsValid(s.cache, s.dropped, job, ask);
    DroppedIdle(s);
    ThinnedKeepsValid(s, Finish(s.cache, job, ask), s.dropped);
  }

  lemma DroppedIdle(s: Session)
    requires Valid(s)
    ensures s.dropped <= s.tasks.Keys && forall id :: id in s.dropped ==> !s.tasks[id].running
  {
  }

  lemma FinishChainKeepsValid(s: Session, claim: ChainClaim, completed: bool, current: bool, open: bool, ask: real)
    requires Valid(s) && claim.job in s.cache.objs
    ensures Valid(FinishChainClaim(s, claim, completed, current, open, ask).s)
    ensures Thinned(s.cache, FinishChainClaim(s, claim, completed, current, open, ask).s.cache)
  {
    hide Caches.Valid, Resident, KeyOf;
    var f := FinishChainClaim(s, claim, completed, current, open, ask);
    if f.reply == Declined {
      if Owned(s, claim) {
        DiscardChainKeepsValid(s);
      } else {
        DiscardUnowned(s, claim);
      }
    } else {
      FinishKeepsValid(s.cache, s.dropped, Some(claim.job), ask);
    }
  }

  lemma DiscardUnowned(s: Session, claim: ChainClaim)
    requires Valid(s) && claim.job in s.cache.objs && !Owned(s, claim)
    ensures var f := FinishChainClaim(s, claim, false, false, false, 0.0);
            Valid(f.s) && Thinned(s.cache, f.s.cache) && !Resident(f.s.cache, claim.job)
  {
    hide Caches.Valid, Resident, KeyOf;
    EndedKeeps(s.cache, s.dropped, claim.job);
    assert s.claim != Some(claim);
  }

  /* Workers */

  lemma WorkerCompletesKeepsValid(s: Session, id: SpecId, result: Output, duration: real)
    requires Valid(s) && id in s.tasks && s.tasks[id].running
    ensures Valid(WorkerCompletes(s, id, result, duration))
    ensures forall i :: Resident(WorkerCompletes(s, id, result, duration).cache, i) == Resident(s.cache, i)
  {
    hide Caches.Valid, Resident, Complete, KeyOf;
    CompleteKeepsValid(s.cache, s.dropped, id, result, duration);
    CompleteKeepsCalls(s.cache, id, result, duration);
  }

  lemma CompleteKeepsCalls(c: Cache, id: SpecId, result: Output, duration: real)
    ensures var d := Complete(c, id, result, duration);
            && d.objs.Keys == c.objs.Keys && d.ledger == c.ledger
            && forall i :: i in c.objs ==> d.objs[i].call == c.objs[i].call
  {
  }

  lemma WorkerFailsKeepsValid(s: Session, id: SpecId)
    requires Valid(s) && id in s.tasks && s.tasks[id].running
    ensures Valid(WorkerFails(s, id))
    ensures Thinned(s.cache, WorkerFails(s, id).cache)
  {
    hide Valid, Caches.Valid, Table, ChainShape, ChainTask, ForkOwned, Thinned, Resident, KeyOf;
    ValidParts(s);
    ValidTable(s.cache, s.dropped);
    DiscardThins(s.cache, id);
    MoreDroppedKeepsValid(s.cache, s.dropped, s.dropped + {id});
    DiscardKeepsValid(s.cache, s.dropped + {id}, id);
    StopTaskKeepsValid(s, id);
    assert WorkerFails(s, id) == StopTask(s, id).(cache := DiscardSpec(s.cache, id), dropped := s.dropped + {id});
    ThinnedKeepsValid(StopTask(s, id), DiscardSpec(s.cache, id), s.dropped + {id});
  }

  function StopTask(s: Session, id: SpecId): Session
    requires id in s.tasks
  {
    s.(tasks := s.tasks[id := s.tasks[id].(running := false)])
  }

  lemma StopTaskKeepsValid(s: Session, id: SpecId)
    requires Valid(s) && id in s.tasks
    ensures Valid(StopTask(s, id))
  {
    hide Caches.Valid, Resident, KeyOf;
  }

  lemma PreemptKeepsValid(s: Session, id: SpecId, now: real)
    requires Valid(s)
    ensures Valid(Preempt(s, id, now))
    ensures Thinned(s.cache, Preempt(s, id, now).cache)
  {
    hide Caches.Valid, Resident, KeyOf;
    if Preempt(s, id, now) != s {
      TerminateKeepsCache(s.cache, s.dropped, id, L.Preempted, 0.0, WastedMs(s.cache.objs[id], now));
    }
  }

  lemma SettleKeepsValid(s: Session, ok: bool)
    requires Valid(s)
    ensures Valid(Settle(s, ok))
  {
    hide Caches.Valid, Resident;
  }

  lemma ObserveKeepsValid(s: Session, fs: FS)
    requires Valid(s)
    ensures Valid(Observe(s, fs))
  {
    hide Caches.Valid, Resident;
  }

  lemma BumpSessionKeepsValid(s: Session, now: real)
    requires Valid(s)
    ensures Valid(s.(cache := BumpEpoch(s.cache, now)))
  {
    hide Caches.Valid;
    BumpKeepsValid(s.cache, s.dropped, now);
  }
}
