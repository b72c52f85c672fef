/**
 * How sessions begin and end and what pool threads report, read off the fields
 * (src/sfx/daemon.py:190-228, src/sfx/executor.py:58-120, src/sfx/cache.py:62-140).
 */
module Lifecycles {
  import opened Common
  import opened Caches
  import opened Sessions
  import opened SessionInvariants
  import opened Daemons
  import opened Coherence
  import opened Runs
  import opened RunSteps
  import opened Invalidations
  import L = Ledgers
  import Q = CacheQueues

  /* Sessions */

  /** Only the store and the names of the daemon may differ, and of the world only the daemon. */
  ghost predicate SameAround(w: World, v: World) {
    v.fs == w.fs && v.joins == w.joins && v.tickets == w.tickets && v.d.mids == w.d.mids
  }

  /** A session that has done nothing yet. */
  ghost predicate Untouched(s: Session) {
    && s.cache.jobs == map[] && s.cache.objs == map[] && s.cache.n == 0 && s.cache.epoch == 0
    && (forall call :: Q.Queue(s.cache, call) == [])
    && s.cache.ledger.records == [] && s.cache.ledger.terminated == {}
    && s.cache.ledger.saved == 0.0 && s.cache.ledger.wasted == 0.0
    && s.chain == None && s.claim == None && !s.streamedWrite && s.chainMutation == None
    && s.tasks == map[] && s.completed == map[]
  }

  /** `session_start` gives the id to a new, untouched session, whomever it named before, and leaves all others alone. */
  lemma StartAnswers(exec: Option<Exec>, w: World, sid: string, repo: string, settings: Settings)
    requires Invariant(exec, w)
    ensures var v := Next(w, StartSession(sid, repo, settings));
            var uid := w.d.uids;
            && uid !in w.d.store && v.d.store.Keys == w.d.store.Keys + {uid}
            && (forall u :: u in w.d.store ==> v.d.store[u] == w.d.store[u])
            && Untouched(v.d.store[uid]) && v.d.store[uid].sid == sid && v.d.store[uid].repo == repo
            && v.d.store[uid].settings == settings
            && v.d.sessions == w.d.sessions[sid := uid] && v.d.mutations == w.d.mutations && SameAround(w, v)
  {
    hide SessionInvariants.Valid, AllCoherent, AllBracketsOk, JoinsOk;
  }

  /** A session that is over: a new epoch with an empty table, everything in it ended and booked. */
  ghost predicate Expired(s: Session, t: Session, now: real) {
    && t == s.(cache := t.cache)
    && t.cache.epoch == s.cache.epoch + 1 && t.cache.jobs == map[] && t.cache.n == s.cache.n
    && Over(s, t) && Booked(s.cache, t.cache, [], now)
  }

  lemma RetireExpires(s: Session, now: real)
    requires SessionInvariants.Valid(s)
    ensures Expired(s, Retire(s, now), now)
  {
    hide SessionInvariants.Valid, Booked;
    RetireOk(s, now);
    ValidParts(s);
    BumpKeepsValid(s.cache, s.dropped, now);
    EmptyTable(s, Retire(s, now));
    ValidTable(s.cache, s.dropped);
    BumpBooks(s.cache, now);
  }

  /**
   * `session_end` is refused exactly while a bracket of the session is open.
   * Otherwise the id is free, the session expires, and nothing else changes.
   */
  ghost predicate EndSessionAnswer(w: World, v: World, sid: string, now: real)
    requires Known(w.d, sid)
  {
    var uid := w.d.sessions[sid];
    var s := w.d.store[uid];
    if s.repo in w.d.mutations && exists m :: m in w.d.mutations[s.repo] && w.d.mutations[s.repo][m].sid == sid then v == w
    else
      && uid in v.d.store && Expired(s, v.d.store[uid], now)
      && v == w.(d := w.d.(store := w.d.store[uid := v.d.store[uid]], sessions := w.d.sessions - {sid}))
  }

  lemma EndSessionAnswers(exec: Option<Exec>, w: World, sid: string, now: real)
    requires Invariant(exec, w) && Known(w.d, sid)
    ensures EndSessionAnswer(w, Next(w, EndSession(sid, now)), sid, now)
  {
    hide Invariant, Expired, SessionInvariants.Valid, Retire;
    SessionOf(exec, w, w.d.sessions[sid]);
    RetireExpires(w.d.store[w.d.sessions[sid]], now);
    RemovableIs(w.d, sid);
    var v := Next(w, EndSession(sid, now));
    if Removable(w.d, sid) {
      assert v.d.store[w.d.sessions[sid]] == Retire(w.d.store[w.d.sessions[sid]], now);
    }
  }

  lemma RemovableIs(d: Daemon, sid: string)
    requires Known(d, sid)
    ensures var repo := d.store[d.sessions[sid]].repo;
            Removable(d, sid) <==> !(repo in d.mutations && exists m :: m in d.mutations[repo] && d.mutations[repo][m].sid == sid)
  {
    var active := Active(d, d.store[d.sessions[sid]].repo);
    if !Removable(d, sid) {
      var m :| m in active && active[m].sid == sid;
    }
  }

  /** `shutdown`: every session that has an id expires, and no id and no bracket is left. */
  ghost predicate StopAnswer(w: World, v: World, now: real) {
    && SameAround(w, v) && v.d.sessions == map[] && v.d.mutations == map[] && v.d.uids == w.d.uids
    && v.d.store.Keys == w.d.store.Keys
    && forall u :: u in w.d.store ==>
         if w.d.store[u].sid in w.d.sessions && w.d.sessions[w.d.store[u].sid] == u
         then Expired(w.d.store[u], v.d.store[u], now) else v.d.store[u] == w.d.store[u]
  }

  lemma StopAnswers(exec: Option<Exec>, w: World, now: real)
    requires Invariant(exec, w)
    ensures StopAnswer(w, Next(w, StopDaemon(now)), now)
  {
    hide Invariant, Expired, SessionInvariants.Valid, Retire;
    forall u | u in w.d.store
      ensures Expired(w.d.store[u], Retire(w.d.store[u], now), now)
    {
      SessionOf(exec, w, u);
      RetireExpires(w.d.store[u], now);
    }
  }

  /* Pool threads */

  /** `t` in place of session `uid`, and nothing else different. */
  ghost predicate OnlySession(w: World, v: World, uid: Uid) {
    uid in w.d.store && uid in v.d.store && v == w.(d := w.d.(store := w.d.store[uid := v.d.store[uid]]))
  }

  /** The table holds job `id`. */
  predicate Holds(c: Cache, id: SpecId) {
    && id in c.objs
    && var key := Key(Slot(c.objs[id].call, c.objs[id].epoch), c.objs[id].occurrence);
    key in c.jobs && c.jobs[key] == id
  }

  /**
   * A pool thread that comes back is done with its task. Its result and the
   * time it took go to its job, which is signalled, if the table still holds
   * it; otherwise they are lost. Nothing is ended.
   */
  ghost predicate CompletesAnswer(w: World, v: World, uid: Uid, id: SpecId, result: Output, duration: real) {
    if !(uid in w.d.store && id in w.d.store[uid].tasks && w.d.store[uid].tasks[id].running) then v == w
    else
      && OnlySession(w, v, uid)
      && var s, t := w.d.store[uid], v.d.store[uid];
      && t == s.(cache := t.cache, tasks := s.tasks[id := s.tasks[id].(running := false)])
      && if Holds(s.cache, id) then
           t.cache == s.cache.(objs := s.cache.objs[id := Job(s.cache.objs[id].call, s.cache.objs[id].occurrence,
             s.cache.objs[id].epoch, s.cache.objs[id].launch, Some(duration), Some(result), s.cache.objs[id].synchronous, true)])
         else t.cache == s.cache
  }

  lemma CompletesAnswers(w: World, uid: Uid, id: SpecId, result: Output, duration: real)
    ensures CompletesAnswer(w, Next(w, Completes(uid, id, result, duration)), uid, id, result, duration)
  {
  }

  /**
   * A pool thread that fails is done with its task. Its job leaves the table
   * and is signalled, so that whoever waits for it hears; the ledger is not told.
   */
  ghost predicate FailsAnswer(w: World, v: World, uid: Uid, id: SpecId) {
    if !(uid in w.d.store && id in w.d.store[uid].tasks && w.d.store[uid].tasks[id].running) then v == w
    else
      && OnlySession(w, v, uid)
      && var s, t := w.d.store[uid], v.d.store[uid];
      && t == s.(cache := t.cache, dropped := s.dropped + {id}, tasks := s.tasks[id := s.tasks[id].(running := false)])
      && t.cache.ledger == s.cache.ledger && !Holds(t.cache, id)
      && (Holds(s.cache, id) ==> t.cache.objs == s.cache.objs[id := s.cache.objs[id].(done := true)])
      && (!Holds(s.cache, id) ==> t.cache == s.cache)
      && forall call :: Q.Queue(t.cache, call) == Q.Without(Q.Queue(s.cache, call), id)
  }

  lemma FailsAnswers(exec: Option<Exec>, w: World, uid: Uid, id: SpecId)
    requires Invariant(exec, w)
    ensures FailsAnswer(w, Next(w, Fails(uid, id)), uid, id)
  {
    hide Invariant, SessionInvariants.Valid, Q.Queue, Q.Without;
    if uid in w.d.store {
      SessionOf(exec, w, uid);
      var s := w.d.store[uid];
      FailedQueues(s, id);
    }
  }

  lemma FailedQueues(s: Session, id: SpecId)
    requires SessionInvariants.Valid(s)
    ensures forall call :: Q.Queue(DiscardSpec(s.cache, id), call) == Q.Without(Q.Queue(s.cache, call), id)
  {
    ValidTable(s.cache, s.dropped);
    forall call
      ensures Q.Queue(DiscardSpec(s.cache, id), call) == Q.Without(Q.Queue(s.cache, call), id)
    {
      Q.DiscardDeletes(s.cache, id, call);
    }
  }

  /**
   * Preempting ends a job of the read lane that is not over, and books the
   * time it ran as wasted. The job itself stays where it is.
   */
  ghost predicate PreemptsAnswer(w: World, v: World, uid: Uid, id: SpecId, now: real) {
    if !(uid in w.d.store && id in w.d.store[uid].cache.objs && id in w.d.store[uid].tasks
         && w.d.store[uid].tasks[id].lane == OnRepo && id !in w.d.store[uid].cache.ledger.terminated) then v == w
    else
      && OnlySession(w, v, uid)
      && var s, t := w.d.store[uid], v.d.store[uid];
      && t == s.(cache := s.cache.(ledger := t.cache.ledger))
      && var wasted := Wasted(s.cache.objs[id], now);
      && t.cache.ledger.records == s.cache.ledger.records + [L.End(id, L.Preempted, 0.0, wasted)]
      && t.cache.ledger.terminated == s.cache.ledger.terminated + {id}
      && t.cache.ledger.saved == s.cache.ledger.saved && t.cache.ledger.wasted == s.cache.ledger.wasted + wasted
  }

  lemma PreemptsAnswers(w: World, uid: Uid, id: SpecId, now: real)
    ensures PreemptsAnswer(w, Next(w, Preempts(uid, id, now)), uid, id, now)
  {
    if uid in w.d.store {
      assert w.d.store[uid := w.d.store[uid]] == w.d.store;
    }
  }
}
