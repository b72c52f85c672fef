/**
 * What ties a session's undelivered results to the repository it speculates
 * on: `exec` is the command execution, any function of repository and call.
 */
module Coherence {
  import opened Common
  import opened Caches
  import opened WritePaths
  import opened Sessions
  import opened SessionInvariants
  import opened Daemons
  import L = Ledgers

  type Exec = (FS, Call) -> Output

  /* What a worker may answer */

  predicate SameAt(a: FS, b: FS, p: seq<string>) {
    (p in a) == (p in b) && (p in a ==> a[p] == b[p])
  }

  /** The copy took path `p` from one of the states seen. */
  ghost predicate CopiedAt(seen: set<FS>, copy: FS, p: seq<string>) {
    exists f :: f in seen && SameAt(f, copy, p)
  }

  /** A copy that took each path from the repository at some moment of its own. */
  ghost predicate Mixed(seen: set<FS>, copy: FS) {
    forall p: seq<string> :: CopiedAt(seen, copy, p)
  }

  /**
   * Results a pool thread may return. On the live repository it is the
   * command's output if the repository kept one state, and anything at all
   * otherwise; in a fork it is the output on some mixed copy with the write applied.
   */
  ghost predicate Legal(exec: Exec, t: Task, call: Call, result: Output) {
    match t.lane
    case OnRepo => forall f: FS :: t.seen == {f} ==> result == exec(f, call)
    case InFork(w, _) => exists copy: FS :: Mixed(t.seen, copy) && result == exec(Applied(w, copy), call)
  }

  lemma CopiedAgrees(w: Write, seen: set<FS>, copy: FS, fs: FS, p: seq<string>)
    requires CopiedAt(seen, copy, p)
    requires forall f :: f in seen ==> Applied(w, f) == Applied(w, fs)
    ensures SameAt(Applied(w, copy), Applied(w, fs), p)
  {
    var f :| f in seen && SameAt(f, copy, p);
    assert SameAt(Applied(w, f), Applied(w, copy), p);
  }

  /** If the states a fork was copied from differ only where the write lands, the copy does not matter. */
  lemma MixedAgrees(w: Write, seen: set<FS>, copy: FS, fs: FS)
    requires Mixed(seen, copy)
    requires forall f :: f in seen ==> Applied(w, f) == Applied(w, fs)
    ensures Applied(w, copy) == Applied(w, fs)
  {
    hide Applied, CopiedAt;
    var a, b := Applied(w, copy), Applied(w, fs);
    forall p: seq<string>
      ensures (p in a) == (p in b) && (p in a ==> a[p] == b[p])
    {
      CopiedAgrees(w, seen, copy, fs, p);
    }
  }

  lemma LandedIsApplied(w: Write, fs: FS)
    requires Landed(w, fs)
    ensures Applied(w, fs) == fs
  {
  }

  /* The invariant */

  /** `m` is the only bracket on the repository, unconflicted, and `sid` writes `w` under it. */
  predicate Fenced(active: map<MutationId, Mutation>, m: MutationId, sid: string, w: Write) {
    active.Keys == {m} && active[m] == Mutation(sid, Some(w), false)
  }

  /** If the job is done with a result, that result is `right`. */
  predicate ResultOk(j: Job, right: Output) {
    j.done && j.result.Some? ==> j.result.value == right
  }

  /**
   * What a resident job may be. The fence holds in any world; results and
   * landed writes are spoken of only when there is an `exec` to judge them by.
   */
  ghost predicate JobOk(exec: Option<Exec>, s: Session, id: SpecId, fs: FS, active: map<MutationId, Mutation>) {
    && id in s.tasks && id in s.cache.objs
    && var t, j := s.tasks[id], s.cache.objs[id];
    match t.lane
    case OnRepo =>
      && active == map[]
      && (exec.Some? ==> t.seen == {fs} && ResultOk(j, exec.value(fs, j.call)))
    case InFork(w, fed) =>
      && (exec.Some? ==>
            && t.seen != {}
            && (forall f :: f in t.seen ==> Applied(w, f) == Applied(w, fs))
            && ResultOk(j, exec.value(Applied(w, fs), j.call))
            && (active == map[] && fed.Some? ==> Landed(w, fs)))
      && (active != map[] ==>
            && fed.Some? && Fenced(active, fed.value, s.sid, w)
            && s.chain.Some? && s.chainSpecIds == [id] && id !in s.cache.ledger.terminated)
  }

  /** The chain's write is in the repository, or its bracket is still the only one open. */
  ghost predicate ChainOk(exec: Option<Exec>, s: Session, fs: FS, active: map<MutationId, Mutation>) {
    s.chain.Some? ==>
      var ch := s.chain.value;
      && (exec.Some? && active == map[] && ch.fed.Some? ==> Landed(ch.write, fs))
      && (active != map[] ==> ch.fed.Some? && Fenced(active, ch.fed.value, s.sid, ch.write))
  }

  ghost predicate Coherent(exec: Option<Exec>, s: Session, fs: FS, active: map<MutationId, Mutation>) {
    && (forall id :: id in s.tasks && Resident(s.cache, id) ==> JobOk(exec, s, id, fs, active))
    && ChainOk(exec, s, fs, active)
  }

  /** An invalidated session has nothing left to be wrong about. */
  lemma EmptyIsCoherent(exec: Option<Exec>, s: Session, fs: FS, active: map<MutationId, Mutation>)
    requires s.cache.jobs == map[] && s.chain == None
    ensures Coherent(exec, s, fs, active)
  {
  }

  /* Steps of the environment */

  /** `fs` became `next` with nothing touched outside the write's own path. */
  ghost predicate OnlyTouches(w: Write, fs: FS, next: FS) {
    match ValidateWritePath(w.path)
    case Some(target) => forall p: seq<string> :: p != target ==> SameAt(fs, next, p)
    case None => fs == next
  }

  lemma OnlyTouchesApplied(w: Write, fs: FS, next: FS)
    requires OnlyTouches(w, fs, next)
    ensures Applied(w, fs) == Applied(w, next)
  {
    if ValidateWritePath(w.path).Some? {
      var target := ValidateWritePath(w.path).value;
      forall p: seq<string>
        ensures (p in Applied(w, fs)) == (p in Applied(w, next))
        ensures p in Applied(w, fs) ==> Applied(w, fs)[p] == Applied(w, next)[p]
      {
        assert p != target ==> SameAt(fs, next, p);
      }
    }
  }

  /** A bracket that declared its write touches that path alone, as long as no other overlaps it. */
  ghost predicate Disciplined(active: map<MutationId, Mutation>, fs: FS, next: FS) {
    && active != map[]
    && forall m :: m in active && !active[m].conflicted && active[m].writeArgs.Some? ==>
         OnlyTouches(active[m].writeArgs.value, fs, next)
  }

  lemma ObserveCoherent(exec: Option<Exec>, s: Session, fs: FS, next: FS, active: map<MutationId, Mutation>)
    requires Coherent(exec, s, fs, active) && (exec.Some? ==> Disciplined(active, fs, next))
    ensures Coherent(exec, Observe(s, next), next, active)
  {
    hide Resident, Applied, OnlyTouches, Landed;
    var t := Observe(s, next);
    forall id | id in t.tasks && Resident(t.cache, id)
      ensures JobOk(exec, t, id, next, active)
    {
      assert JobOk(exec, s, id, fs, active);
      if exec.Some? {
        var w := s.tasks[id].lane.write;
        assert OnlyTouches(w, fs, next);
        OnlyTouchesApplied(w, fs, next);
      }
    }
  }

  lemma WorkerCompletesCoherent(exec: Option<Exec>, s: Session, id: SpecId, result: Output, duration: real,
                                fs: FS, active: map<MutationId, Mutation>)
    requires SessionInvariants.Valid(s) && Coherent(exec, s, fs, active)
    requires id in s.tasks && s.tasks[id].running && id in s.cache.objs
    requires exec.Some? ==> Legal(exec.value, s.tasks[id], s.cache.objs[id].call, result)
    ensures Coherent(exec, WorkerCompletes(s, id, result, duration), fs, active)
  {
    hide SessionInvariants.Valid, Resident, KeyOf, Applied, Landed, Legal, Mixed, Fenced;
    var t := WorkerCompletes(s, id, result, duration);
    WorkerCompletesKeepsValid(s, id, result, duration);
    forall i | i in t.tasks && Resident(t.cache, i)
      ensures JobOk(exec, t, i, fs, active)
    {
      assert JobOk(exec, s, i, fs, active);
      if i == id && exec.Some? {
        LegalIsRight(exec.value, s, id, result, fs, active);
      }
    }
  }

  /** A worker that may still deliver can only have come to the right answer. */
  lemma LegalIsRight(exec: Exec, s: Session, id: SpecId, result: Output, fs: FS, active: map<MutationId, Mutation>)
    requires JobOk(Some(exec), s, id, fs, active)
    requires Legal(exec, s.tasks[id], s.cache.objs[id].call, result)
    ensures result == exec(match s.tasks[id].lane case OnRepo => fs case InFork(w, _) => Applied(w, fs),
                           s.cache.objs[id].call)
  {
    hide Applied, Landed, Mixed, Fenced;
    if s.tasks[id].lane.InFork? {
      var w := s.tasks[id].lane.write;
      var copy: FS :| Mixed(s.tasks[id].seen, copy) && result == exec(Applied(w, copy), s.cache.objs[id].call);
      MixedAgrees(w, s.tasks[id].seen, copy, fs);
    }
  }

  /* Steps that only take jobs away */

  /** With no bracket open, a session that kept or dropped its chain and thinned its cache stays coherent. */
  lemma ThinnedCoherent(exec: Option<Exec>, s: Session, t: Session, fs: FS, active: map<MutationId, Mutation>)
    requires Coherent(exec, s, fs, active) && Thinned(s.cache, t.cache)
    requires t.tasks.Keys == s.tasks.Keys && s.tasks.Keys == s.cache.objs.Keys && t.sid == s.sid
    requires forall id :: id in s.tasks ==> t.tasks[id].lane == s.tasks[id].lane && t.tasks[id].seen == s.tasks[id].seen
    requires t.chain.Some? ==> s.chain.Some? && t.chain.value.write == s.chain.value.write
                               && t.chain.value.fed == s.chain.value.fed
    requires active != map[] ==> forall id :: id in s.tasks && Resident(t.cache, id) ==>
               t.chain.Some? && t.chainSpecIds == s.chainSpecIds && id !in t.cache.ledger.terminated
    ensures Coherent(exec, t, fs, active)
  {
    forall id | id in t.tasks && Resident(t.cache, id)
      ensures JobOk(exec, t, id, fs, active)
    {
      assert JobOk(exec, s, id, fs, active);
    }
  }

  /* Steps of the daemon */

  lemma SpeculateCoherent(exec: Option<Exec>, s: Session, call: Call, now: real, fs: FS)
    requires SessionInvariants.Valid(s) && Coherent(exec, s, fs, map[])
    ensures Coherent(exec, Speculate(s, call, now, fs), fs, map[])
  {
    hide SessionInvariants.Valid, Resident, KeyOf;
    SpeculateKeepsValid(s, call, now, fs);
    var t := Speculate(s, call, now, fs);
    forall id | id in t.tasks && Resident(t.cache, id)
      ensures JobOk(exec, t, id, fs, map[])
    {
      if id in s.tasks && id != s.cache.n {
        assert JobOk(exec, s, id, fs, map[]);
      }
    }
  }

  /** Inside a bracket the only residents are the chain's own, so clearing the chain clears the table. */
  lemma ClearedCoherent(exec: Option<Exec>, s: Session, fed: Option<MutationId>, fs: FS, active: map<MutationId, Mutation>)
    requires SessionInvariants.Valid(s) && Coherent(exec, s, fs, active)
    requires fed.Some? ==> active != map[]
    requires fed == None ==> s.chain == None && active == map[]
    ensures Coherent(exec, Cleared(s, fed), fs, active)
    ensures fed.Some? ==> forall id :: id in s.tasks ==> !Resident(Cleared(s, fed).cache, id)
  {
    hide SessionInvariants.Valid, Resident, KeyOf;
    var t := Cleared(s, fed);
    ClearedKeepsValid(s, fed);
    TaskKeys(s);
    if fed.Some? {
      forall id | id in s.tasks
        ensures !Resident(t.cache, id)
      {
        if Resident(s.cache, id) {
          assert JobOk(exec, s, id, fs, active);
          DiscardChainEmpties(s, id);
        }
      }
    }
    ThinnedCoherent(exec, s, t, fs, active);
  }

  lemma DiscardChainEmpties(s: Session, id: SpecId)
    requires SessionInvariants.Valid(s) && s.chain.Some? && s.chainSpecIds == [id]
    requires id !in s.cache.ledger.terminated
    ensures !Resident(DiscardChain(s, 0).cache, id)
  {
    assert From(s.chainSpecIds, 0) == s.chainSpecIds;
    DiscardIdsKeep(s.cache, s.dropped, s.chainSpecIds);
  }

  /** A chain fed under its bracket, or outside any, is built from the repository as it stands. */
  lemma StartChainCoherent(exec: Option<Exec>, s: Session, w: Write, fed: Option<MutationId>, pred: Option<Call>,
                           substrate: bool, now: real, fs: FS, active: map<MutationId, Mutation>)
    requires SessionInvariants.Valid(s) && Coherent(exec, s, fs, active)
    requires fed.Some? ==> Fenced(active, fed.value, s.sid, w)
    requires fed == None ==> s.chain == None && active == map[]
    ensures Coherent(exec, StartChain(s, w, fed, pred, substrate, now, fs), fs, active)
  {
    hide SessionInvariants.Valid, Resident, KeyOf, Cleared, Coherent, LaunchChain, EmptyChain;
    ClearedCoherent(exec, s, fed, fs, active);
    ClearedKeepsValid(s, fed);
    ClearedIdentity(s, fed);
    var t := Cleared(s, fed);
    assert t.(chain := None) == t;
    if ValidateWritePath(w.path).Some? {
      match pred
      case None => EmptyChainCoherent(exec, t, w, fed, fs, active);
      case Some(call) => LaunchChainCoherent(exec, t, w, fed, call, now, fs, active);
    }
  }

  lemma ClearedIdentity(s: Session, fed: Option<MutationId>)
    ensures Cleared(s, fed).sid == s.sid && Cleared(s, fed).tasks == s.tasks
  {
  }

  lemma EmptyChainCoherent(exec: Option<Exec>, t: Session, w: Write, fed: Option<MutationId>, fs: FS,
                           active: map<MutationId, Mutation>)
    requires Coherent(exec, t, fs, active) && t.chain == None
    requires fed.Some? ==> Fenced(active, fed.value, t.sid, w)
    requires fed == None ==> active == map[]
    requires fed.Some? ==> forall id :: id in t.tasks ==> !Resident(t.cache, id)
    ensures Coherent(exec, EmptyChain(t, w, fed), fs, active)
  {
    hide Resident, KeyOf;
    var d := EmptyChain(t, w, fed);
    forall id | id in d.tasks && Resident(d.cache, id)
      ensures JobOk(exec, d, id, fs, active)
    {
      assert JobOk(exec, t, id, fs, active);
    }
  }

  lemma LaunchChainCoherent(exec: Option<Exec>, t: Session, w: Write, fed: Option<MutationId>, call: Call, now: real,
                            fs: FS, active: map<MutationId, Mutation>)
    requires SessionInvariants.Valid(t) && Coherent(exec, t, fs, active) && t.chain == None
    requires ValidateWritePath(w.path).Some?
    requires fed.Some? ==> Fenced(active, fed.value, t.sid, w)
    requires fed == None ==> active == map[]
    requires fed.Some? ==> forall id :: id in t.tasks ==> !Resident(t.cache, id)
    ensures Coherent(exec, LaunchChain(t, w, fed, call, now, fs), fs, active)
  {
    hide SessionInvariants.Valid, Resident, KeyOf, LaunchChain, JobOk, ValidateWritePath;
    LaunchChainKeepsValid(t, w, fed, call, now, fs);
    LaunchFacts(t, w, fed, call, now, fs);
    LaunchedJobOk(exec, t, w, fed, call, now, fs, active);
    var d := LaunchChain(t, w, fed, call, now, fs);
    forall id | id in d.tasks && Resident(d.cache, id)
      ensures JobOk(exec, d, id, fs, active)
    {
      if id != t.cache.n {
        assert JobOk(exec, t, id, fs, active);
        EarlierJobOk(exec, t, d, id, fs);
      }
    }
  }

  lemma LaunchedJobOk(exec: Option<Exec>, t: Session, w: Write, fed: Option<MutationId>, call: Call, now: real,
                      fs: FS, active: map<MutationId, Mutation>)
    requires SessionInvariants.Valid(t)
    requires fed.Some? ==> Fenced(active, fed.value, t.sid, w)
    requires fed == None ==> active == map[]
    ensures JobOk(exec, LaunchChain(t, w, fed, call, now, fs), t.cache.n, fs, active)
    ensures ChainOk(exec, LaunchChain(t, w, fed, call, now, fs), fs, active)
  {
    hide SessionInvariants.Valid, Reserve, Applied, Landed;
    LaunchFacts(t, w, fed, call, now, fs);
  }

  /** Outside brackets a job does not care which chain is current. */
  lemma EarlierJobOk(exec: Option<Exec>, t: Session, d: Session, id: SpecId, fs: FS)
    requires JobOk(exec, t, id, fs, map[])
    requires id in d.tasks && d.tasks[id] == t.tasks[id] && id in d.cache.objs && d.cache.objs[id] == t.cache.objs[id]
    ensures JobOk(exec, d, id, fs, map[])
  {
    hide Applied, Landed;
  }

  lemma LaunchFacts(t: Session, w: Write, fed: Option<MutationId>, call: Call, now: real, fs: FS)
    requires SessionInvariants.Valid(t)
    ensures var d := LaunchChain(t, w, fed, call, now, fs);
            && d.cache.objs == t.cache.objs[t.cache.n := Fresh(t.cache, call, now, false)]
            && d.tasks == t.tasks[t.cache.n := Task(InFork(w, fed), {fs}, true)]
            && d.cache.ledger.terminated == t.cache.ledger.terminated
            && t.cache.n !in t.cache.objs && t.tasks.Keys == t.cache.objs.Keys
            && t.cache.n !in t.cache.ledger.terminated
  {
    ReserveKeepsValid(t.cache, t.dropped, call, now, false);
    TerminatedBelow(t.cache, t.dropped, t.cache.n);
  }

  lemma TerminatedBelow(c: Cache, dropped: set<SpecId>, id: SpecId)
    requires Caches.Valid(c, dropped)
    ensures id in c.ledger.terminated ==> id < c.n
  {
    L.HistoryCounts(c.ledger.records, c.n, c.ledger.terminated, id);
  }

  lemma ResolveStartCoherent(exec: Option<Exec>, s: Session, call: Call, fs: FS, active: map<MutationId, Mutation>)
    requires SessionInvariants.Valid(s) && Coherent(exec, s, fs, active)
    ensures Coherent(exec, ResolveStart(s, call, active != map[]).s, fs, active)
  {
    hide SessionInvariants.Valid, Resident, KeyOf, Coherent, Thinned;
    if active == map[] {
      ResolveStartKeepsValid(s, call, false);
      TaskKeys(s);
      ResolveStartChain(s, call);
      ThinnedCoherent(exec, s, ResolveStart(s, call, false).s, fs, active);
    }
  }

  lemma ResolveStartChain(s: Session, call: Call)
    ensures var t := ResolveStart(s, call, false).s;
            t.sid == s.sid && (t.chain == None || t.chain == s.chain)
  {
  }

  lemma FinishCoherent(exec: Option<Exec>, s: Session, j: Join, completed: bool, current: bool, fs: FS,
                       active: map<MutationId, Mutation>)
    requires SessionInvariants.Valid(s) && Coherent(exec, s, fs, active)
    requires j.claim.Some? ==> j.claim.value.job in s.cache.objs
    ensures j.claim.Some? ==>
              Coherent(exec, FinishChainClaim(s, j.claim.value, completed, current, active != map[], j.ask).s, fs, active)
    ensures j.claim == None ==>
              Coherent(exec, FinishPlain(s, j.job, current, active != map[], j.ask).s, fs, active)
  {
    hide SessionInvariants.Valid, Resident, KeyOf, Coherent, Thinned, Finish, FinishOutcome;
    TaskKeys(s);
    if j.claim == None {
      if active == map[] {
        FinishPlainKeepsValid(s, j.job, current, false, j.ask);
        ThinnedCoherent(exec, s, FinishPlain(s, j.job, current, false, j.ask).s, fs, active);
      }
    } else {
      var t := FinishChainClaim(s, j.claim.value, completed, current, active != map[], j.ask).s;
      FinishChainKeepsValid(s, j.claim.value, completed, current, active != map[], j.ask);
      if active != map[] {
        FinishInsideBracket(exec, s, j.claim.value, completed, current, fs, active, j.ask);
      }
      ThinnedCoherent(exec, s, t, fs, active);
    }
  }

  /** A chain join that comes back inside a later bracket can only discard. */
  lemma FinishInsideBracket(exec: Option<Exec>, s: Session, claim: ChainClaim, completed: bool, current: bool, fs: FS,
                            active: map<MutationId, Mutation>, ask: real)
    requires SessionInvariants.Valid(s) && Coherent(exec, s, fs, active) && active != map[]
    requires claim.job in s.cache.objs
    ensures var t := FinishChainClaim(s, claim, completed, current, true, ask).s;
            forall id :: id in s.tasks && Resident(t.cache, id) ==>
              t.chain.Some? && t.chainSpecIds == s.chainSpecIds && id !in t.cache.ledger.terminated
  {
    hide SessionInvariants.Valid, Caches.Valid, KeyOf, Coherent, Thinned, Resident;
    var t := FinishChainClaim(s, claim, completed, current, true, ask).s;
    FinishChainKeepsValid(s, claim, completed, current, true, ask);
    TaskKeys(s);
    forall id | id in s.tasks && Resident(t.cache, id)
      ensures t.chain.Some? && t.chainSpecIds == s.chainSpecIds && id !in t.cache.ledger.terminated
    {
      ThinnedResident(s.cache, t.cache, id);
      ResidentInBracket(exec, s, id, fs, active);
      if Owned(s, claim) {
        OwnedHop(s, claim);
        DiscardChainEmpties(s, id);
        assert false;
      } else {
        DiscardUnowned(s, claim);
        assert id != claim.job;
      }
    }
  }

  lemma ThinnedResident(c: Cache, d: Cache, id: SpecId)
    requires Thinned(c, d) && id in c.objs && Resident(d, id)
    ensures Resident(c, id)
  {
  }

  lemma OwnedHop(s: Session, claim: ChainClaim)
    requires SessionInvariants.Valid(s) && Owned(s, claim)
    ensures claim.hop == 0
  {
  }

  /** Fence occupancy, one session at a time. */
  lemma ResidentInBracket(exec: Option<Exec>, s: Session, id: SpecId, fs: FS, active: map<MutationId, Mutation>)
    requires Coherent(exec, s, fs, active) && active != map[]
    requires id in s.tasks && Resident(s.cache, id)
    ensures s.chain.Some? && s.chainSpecIds == [id] && id !in s.cache.ledger.terminated
    ensures s.tasks[id].lane.InFork? && s.tasks[id].lane.fed.Some?
    ensures Fenced(active, s.tasks[id].lane.fed.value, s.sid, s.tasks[id].lane.write)
  {
    assert JobOk(exec, s, id, fs, active);
  }

  /** Closing the only bracket over a landed write keeps the session coherent. */
  lemma PreservedCoherent(exec: Option<Exec>, s: Session, t: Session, m: MutationId, fs: FS,
                          active: map<MutationId, Mutation>)
    requires Coherent(exec, s, fs, active) && m in active
    requires s.chain.Some? && active[m].writeArgs == Some(s.chain.value.write)
    requires Landed(s.chain.value.write, fs)
    requires t == s.(completed := t.completed, chainMutation := t.chainMutation)
    ensures Coherent(exec, t, fs, map[])
  {
    forall id | id in t.tasks && Resident(t.cache, id)
      ensures JobOk(exec, t, id, fs, map[])
    {
      assert JobOk(exec, s, id, fs, active);
    }
  }
}
