/** What no step ever takes back from a session object. */
module Evolution {
  import opened Common
  import opened Caches
  import opened WritePaths
  import opened Sessions
  import opened SessionInvariants

  /**
   * Jobs keep their identity and lane, a job that left the table stays out,
   * an ended speculation stays ended and epochs only grow.
   */
  ghost predicate Evolves(s: Session, t: Session) {
    && t.sid == s.sid && t.repo == s.repo
    && s.cache.objs.Keys <= t.cache.objs.Keys
    && s.tasks.Keys <= t.tasks.Keys
    && s.cache.ledger.terminated <= t.cache.ledger.terminated
    && s.cache.epoch <= t.cache.epoch
    && (forall id :: id in s.cache.objs ==> t.cache.objs[id].call == s.cache.objs[id].call)
    && (forall id :: id in s.cache.objs ==> t.cache.objs[id].epoch == s.cache.objs[id].epoch)
    && (forall id :: id in s.cache.objs && Resident(t.cache, id) ==> Resident(s.cache, id))
    && (forall id :: id in s.tasks ==> t.tasks[id].lane == s.tasks[id].lane)
  }

  lemma EvolvesTransitive(s: Session, t: Session, u: Session)
    requires Evolves(s, t) && Evolves(t, u)
    ensures Evolves(s, u)
  {
    hide Resident;
  }

  lemma EvolvesReflexive(s: Session)
    ensures Evolves(s, s)
  {
  }

  /** A join keeps pointing at a job of its session. */
  lemma JoinEvolves(s: Session, t: Session, call: Call, job: Option<SpecId>, claim: Option<ChainClaim>)
    requires Evolves(s, t) && JoinOk(s, call, job, claim)
    ensures JoinOk(t, call, job, claim)
  {
    hide Resident;
  }

  lemma SameEpochs(c: Cache, d: Cache)
    requires SameIdentities(c, d)
    ensures forall id :: id in c.objs ==> d.objs[id].epoch == c.objs[id].epoch && d.objs[id].call == c.objs[id].call
  {
    forall id | id in c.objs
      ensures d.objs[id].epoch == c.objs[id].epoch && d.objs[id].call == c.objs[id].call
    {
      assert KeyOf(c.objs[id]) == KeyOf(d.objs[id]);
    }
  }

  lemma ThinnedEvolves(s: Session, t: Session)
    requires Thinned(s.cache, t.cache)
    requires t.sid == s.sid && t.repo == s.repo && t.tasks.Keys == s.tasks.Keys
    requires forall id :: id in s.tasks ==> t.tasks[id].lane == s.tasks[id].lane
    ensures Evolves(s, t)
  {
    hide Resident, KeyOf;
    ThinnedSame(s.cache, t.cache);
    SameEpochs(s.cache, t.cache);
  }

  lemma ThinnedSame(c: Cache, d: Cache)
    requires Thinned(c, d)
    ensures SameIdentities(c, d)
  {
  }

  lemma NoneResident(c: Cache, id: SpecId)
    requires c.jobs == map[]
    ensures !Resident(c, id)
  {
  }

  lemma InvalidateEvolves(s: Session, now: real)
    requires SessionInvariants.Valid(s)
    ensures Evolves(s, Invalidate(s, now))
  {
    hide SessionInvariants.Valid, Resident, KeyOf, BumpEpoch;
    var t := Invalidate(s, now);
    InvalidateKeepsValid(s, now);
    SameEpochs(s.cache, t.cache);
    forall id | id in s.cache.objs
      ensures !Resident(t.cache, id)
    {
      NoneResident(t.cache, id);
    }
  }

  lemma RetireEvolves(s: Session, now: real)
    requires SessionInvariants.Valid(s)
    ensures Evolves(s, s.(cache := BumpEpoch(s.cache, now)))
  {
    hide Caches.Valid, Resident, KeyOf, BumpEpoch;
    var t := s.(cache := BumpEpoch(s.cache, now));
    ValidParts(s);
    BumpKeepsValid(s.cache, s.dropped, now);
    SameEpochs(s.cache, t.cache);
    BumpNext(s.cache, now);
    forall id | id in s.cache.objs
      ensures !Resident(t.cache, id)
    {
      NoneResident(t.cache, id);
    }
  }

  lemma BumpNext(c: Cache, now: real)
    ensures BumpEpoch(c, now).epoch == c.epoch + 1
  {
  }

  lemma SpeculateEvolves(s: Session, call: Call, now: real, fs: FS)
    requires SessionInvariants.Valid(s)
    ensures Evolves(s, Speculate(s, call, now, fs))
  {
    hide Caches.Valid, Resident, KeyOf, Reserve;
    ValidParts(s);
    ReserveKeepsValid(s.cache, s.dropped, call, now, false);
    ReserveEpoch(s.cache, call, now);
  }

  lemma ReserveEpoch(c: Cache, call: Call, now: real)
    ensures Reserve(c, call, now, false).epoch == c.epoch
  {
  }

  lemma StartChainEvolves(s: Session, w: Write, fed: Option<MutationId>, pred: Option<Call>,
                          substrate: bool, now: real, fs: FS)
    requires SessionInvariants.Valid(s)
    requires fed == None ==> s.chain == None
    ensures Evolves(s, StartChain(s, w, fed, pred, substrate, now, fs))
  {
    hide SessionInvariants.Valid, Evolves, Thinned, LaunchChain, Cleared, Resident;
    var t := Cleared(s, fed);
    ClearedKeepsValid(s, fed);
    ClearedSame(s, fed);
    ThinnedEvolves(s, t);
    var r := StartChain(s, w, fed, pred, substrate, now, fs);
    if ValidateWritePath(w.path).Some? && pred.Some? && substrate {
      LaunchChainEvolves(t, w, fed, pred.value, now, fs);
      EvolvesTransitive(s, t, LaunchChain(t, w, fed, pred.value, now, fs));
    } else {
      ThinnedReflexive(t.cache);
      ThinnedEvolves(t, r);
      EvolvesTransitive(s, t, r);
    }
  }

  lemma ClearedSame(s: Session, fed: Option<MutationId>)
    ensures var t := Cleared(s, fed); t.sid == s.sid && t.repo == s.repo && t.tasks == s.tasks
  {
  }

  lemma LaunchChainEvolves(t: Session, w: Write, fed: Option<MutationId>, call: Call, now: real, fs: FS)
    requires SessionInvariants.Valid(t)
    ensures Evolves(t, LaunchChain(t, w, fed, call, now, fs))
  {
    hide Caches.Valid, Resident, KeyOf, Reserve;
    ValidParts(t);
    ReserveKeepsValid(t.cache, t.dropped, call, now, false);
    ReserveEpoch(t.cache, call, now);
  }

  lemma WorkerCompletesEvolves(s: Session, id: SpecId, result: Output, duration: real)
    requires SessionInvariants.Valid(s) && id in s.tasks
    ensures Evolves(s, WorkerCompletes(s, id, result, duration))
  {
    hide Caches.Valid, Resident, KeyOf, Complete;
    var t := WorkerCompletes(s, id, result, duration);
    ValidParts(s);
    CompleteKeepsValid(s.cache, s.dropped, id, result, duration);
    SameEpochs(s.cache, t.cache);
    CompleteSame(s.cache, id, result, duration);
  }

  lemma CompleteSame(c: Cache, id: SpecId, result: Output, duration: real)
    ensures var d := Complete(c, id, result, duration); d.epoch == c.epoch && d.ledger == c.ledger
  {
  }
}
