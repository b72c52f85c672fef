/** What a step leaves alone: chain identities, claims and the lanes of tasks. */
module StepFrames {
  import opened Common
  import opened Caches
  import opened WritePaths
  import opened Sessions
  import opened Daemons
  import opened Runs
  import L = Ledgers
  import Q = CacheQueues

  /**
   * Chain numbers only grow and a chain's cursor never goes back; the only
   * chains and fork tasks to appear are those fed under one of `fed`. Jobs keep
   * their keys, serve counters never go back, and time is saved only by a hit.
   */
  ghost predicate Moves(s: Session, t: Session, fed: set<Option<MutationId>>, hit: bool) {
    && Q.Later(s.cache, t.cache)
    && (!hit ==> t.cache.ledger.saved == s.cache.ledger.saved)
    && s.chains <= t.chains
    && (t.chain.Some? && t.chain.value.id < s.chains ==>
          s.chain.Some? && t.chain.value.id == s.chain.value.id && s.cursor <= t.cursor)
    && (t.chain.Some? ==> t.chain.value.fed in fed || (s.chain.Some? && t.chain.value.fed == s.chain.value.fed))
    && (forall id :: id in s.tasks ==> id in t.tasks && t.tasks[id].lane == s.tasks[id].lane)
    && (forall id :: id in t.tasks && id !in s.tasks && t.tasks[id].lane.InFork? ==> t.tasks[id].lane.fed in fed)
  }

  ghost predicate KeepsClaim(s: Session, t: Session) {
    t.claim == None || t.claim == s.claim
  }

  lemma MovesTransitive(s: Session, t: Session, u: Session, fed: set<Option<MutationId>>, hit: bool)
    requires Moves(s, t, fed, hit) && Moves(t, u, fed, hit)
    ensures Moves(s, u, fed, hit)
  {
    hide Q.Later;
    Q.LaterTransitive(s.cache, t.cache, u.cache);
  }

  /* The cache under a step */

  lemma {:induction false} DiscardIdsMove(c: Cache, ids: seq<SpecId>)
    ensures Q.Later(c, DiscardIds(c, ids)) && DiscardIds(c, ids).ledger.saved == c.ledger.saved
    ensures DiscardIds(c, ids).n == c.n && DiscardIds(c, ids).objs.Keys == c.objs.Keys
    decreases |ids|
  {
    hide Q.Later, DiscardOne;
    Q.Unmoved(c, c.ledger);
    if ids != [] {
      DiscardOneMoves(c, ids[0]);
      DiscardIdsMove(DiscardOne(c, ids[0]), ids[1..]);
      Q.LaterTransitive(c, DiscardOne(c, ids[0]), DiscardIds(c, ids));
    }
  }

  lemma DiscardOneMoves(c: Cache, id: SpecId)
    ensures Q.Later(c, DiscardOne(c, id)) && DiscardOne(c, id).ledger.saved == c.ledger.saved
    ensures DiscardOne(c, id).n == c.n && DiscardOne(c, id).objs.Keys == c.objs.Keys
  {
    hide Q.Later;
    var ended := c.(ledger := L.Terminate(c.ledger, id, L.Discarded, 0.0, 0.0));
    Q.Unmoved(c, c.ledger);
    Q.Unmoved(c, ended.ledger);
    Q.DiscardIsLater(ended, id);
    Q.LaterTransitive(c, ended, DiscardSpec(ended, id));
  }

  lemma InvalidateMoves(s: Session, now: real)
    ensures Moves(s, Invalidate(s, now), {}, false) && KeepsClaim(s, Invalidate(s, now))
  {
    hide DiscardIds, BumpEpoch, Q.Later;
    var t := if s.chain.Some? then DiscardChain(s, 0) else s;
    DiscardIdsMove(s.cache, From(s.chainSpecIds, 0));
    Q.Unmoved(s.cache, s.cache.ledger);
    Q.BumpIsLater(t.cache, now);
    Q.LaterTransitive(s.cache, t.cache, BumpEpoch(t.cache, now));
  }

  /** A fresh task never reuses a spec id. */
  ghost predicate Unnumbered(s: Session) {
    s.cache.n !in s.tasks && s.cache.n !in s.cache.objs
  }

  lemma SpeculateMoves(s: Session, call: Call, now: real, fs: FS)
    requires Unnumbered(s)
    ensures Moves(s, Speculate(s, call, now, fs), {}, false) && KeepsClaim(s, Speculate(s, call, now, fs))
  {
    hide Reserve, Q.Later;
    Q.ReserveIsLater(s.cache, call, now, false);
  }

  lemma StartChainMoves(s: Session, w: Write, fed: Option<MutationId>, pred: Option<Call>,
                        substrate: bool, now: real, fs: FS)
    requires Unnumbered(s)
    ensures Moves(s, StartChain(s, w, fed, pred, substrate, now, fs), {fed}, false)
    ensures KeepsClaim(s, StartChain(s, w, fed, pred, substrate, now, fs))
  {
    hide DiscardIds, Reserve, Q.Later, ValidateWritePath;
    var c := Cleared(s, fed).cache;
    DiscardIdsMove(s.cache, From(s.chainSpecIds, 0));
    Q.Unmoved(s.cache, s.cache.ledger);
    if pred.Some? {
      Q.ReserveIsLater(c, pred.value, now, false);
      Q.LaterTransitive(s.cache, c, Reserve(c, pred.value, now, false));
    }
  }

  lemma ResolveStartMoves(s: Session, call: Call, open: bool)
    ensures Moves(s, ResolveStart(s, call, open).s, {}, false)
    ensures var r := ResolveStart(s, call, open);
            if r.Joining? && r.claim.Some? then
              && s.chain.Some? && s.claim == None && r.s.claim == r.claim && r.s.chain == s.chain
              && r.claim.value.chain == s.chain.value.id && r.s.chains == s.chains
              && s.cursor == r.claim.value.hop + 1 && r.s.cursor == r.claim.value.hop + 2
            else KeepsClaim(s, r.s)
  {
    hide DiscardIds, Claim, ClaimedId, LongestPrefix, Q.Later;
    var ids := From(s.chainSpecIds, if s.cursor == 0 then 0 else s.cursor - 1);
    Q.Unmoved(s.cache, s.cache.ledger);
    Q.ClaimIsLater(s.cache, call);
    DiscardIdsMove(s.cache, ids);
    DiscardIdsMove(Claim(s.cache, call), ids);
    Q.LaterTransitive(s.cache, Claim(s.cache, call), DiscardIds(Claim(s.cache, call), ids));
  }

  lemma FinishPlainMoves(s: Session, job: Option<SpecId>, current: bool, open: bool, ask: real)
    ensures var t := FinishPlain(s, job, current, open, ask).s; Moves(s, t, {}, true) && KeepsClaim(s, t)
  {
    hide Finish, FinishOutcome, Q.Later;
    Q.Unmoved(s.cache, s.cache.ledger);
    Q.FinishIsLater(s.cache, job, ask);
  }

  lemma FinishClaimMoves(s: Session, claim: ChainClaim, completed: bool, current: bool, open: bool, ask: real)
    ensures var t := FinishChainClaim(s, claim, completed, current, open, ask).s;
            Moves(s, t, {}, true) && KeepsClaim(s, t) && t.claim != Some(claim)
  {
    hide DiscardIds, Finish, FinishOutcome, DiscardSpec, Q.Later;
    var c, id := s.cache, claim.job;
    var ended := c.(ledger := L.Terminate(c.ledger, id, L.Discarded, 0.0, 0.0));
    Q.FinishIsLater(c, Some(id), ask);
    DiscardIdsMove(c, From(s.chainSpecIds, claim.hop));
    Q.Unmoved(c, ended.ledger);
    Q.DiscardIsLater(c, id);
    Q.DiscardIsLater(ended, id);
    Q.LaterTransitive(c, ended, DiscardSpec(ended, id));
  }

  lemma FinishMoves(d: Daemon, j: Join, completed: bool)
    requires j.uid in d.store
    ensures var s, t := d.store[j.uid], FinishResolve(d, j, completed).s;
            && Moves(s, t, {}, true) && KeepsClaim(s, t)
            && (j.claim.Some? ==> t.claim != j.claim)
  {
    hide FinishPlain, FinishChainClaim, Moves, KeepsClaim, Current, Open;
    var s := d.store[j.uid];
    if j.claim.Some? {
      FinishClaimMoves(s, j.claim.value, completed, Current(d, j.uid), Open(d, s.repo), j.ask);
    } else {
      FinishPlainMoves(s, j.job, Current(d, j.uid), Open(d, s.repo), j.ask);
    }
  }

  /** The mutations under which a step may feed a fork. */
  function FedBy(st: Step): set<Option<MutationId>> {
    if st.FeedWrite? then {st.under} else {}
  }

  /** The session a step asks, if it is a `resolve`. */
  predicate Asks(d: Daemon, st: Step, uid: Uid) {
    st.Ask? && st.sid in d.sessions && d.sessions[st.sid] == uid
  }

  /** Which objects a step may touch: it moves old ones and creates blank ones. */
  ghost predicate Framed(d: Daemon, e: Daemon, st: Step) {
    && (forall uid :: uid in d.store ==>
          && uid in e.store && Moves(d.store[uid], e.store[uid], FedBy(st), st.Deliver?)
          && (!Asks(d, st, uid) ==> KeepsClaim(d.store[uid], e.store[uid])))
    && (forall uid :: uid in e.store && uid !in d.store ==>
          e.store[uid].tasks == map[] && e.store[uid].claim == None && e.store[uid].chain == None)
  }

  lemma MovesMore(s: Session, t: Session, fed: set<Option<MutationId>>, hit: bool)
    requires Moves(s, t, {}, false)
    ensures Moves(s, t, fed, hit) && Moves(s, s, fed, hit) && KeepsClaim(s, s)
  {
    hide Q.Later;
    Q.Unmoved(s.cache, s.cache.ledger);
  }

  lemma InvalidateFramed(d: Daemon, repo: string, preserve: Option<Uid>, now: real, st: Step)
    ensures Framed(d, InvalidateRepo(d, repo, preserve, now), st)
  {
    hide Invalidate, Moves, KeepsClaim;
    forall uid | uid in d.store
      ensures var t := InvalidateRepo(d, repo, preserve, now).store[uid];
              Moves(d.store[uid], t, FedBy(st), st.Deliver?) && KeepsClaim(d.store[uid], t)
    {
      InvalidateMoves(d.store[uid], now);
      MovesMore(d.store[uid], Invalidate(d.store[uid], now), FedBy(st), st.Deliver?);
    }
  }

  lemma StaysPut(s: Session, fed: set<Option<MutationId>>, hit: bool)
    ensures Moves(s, s, fed, hit) && KeepsClaim(s, s)
  {
    Q.Unmoved(s.cache, s.cache.ledger);
  }

  lemma PutFramed(d: Daemon, uid: Uid, t: Session, st: Step)
    requires uid in d.store && Moves(d.store[uid], t, FedBy(st), st.Deliver?)
    requires !Asks(d, st, uid) ==> KeepsClaim(d.store[uid], t)
    ensures Framed(d, Put(d, uid, t), st)
  {
    hide Asks, KeepsClaim, Moves;
    forall u | u in d.store && u != uid
      ensures Moves(d.store[u], d.store[u], FedBy(st), st.Deliver?) && KeepsClaim(d.store[u], d.store[u])
    {
      StaysPut(d.store[u], FedBy(st), st.Deliver?);
    }
  }

  /** An invalidation, then one more change to one session. */
  lemma InvalidatePutFramed(d: Daemon, e: Daemon, uid: Uid, t: Session, st: Step)
    requires Framed(d, e, st) && uid in d.store && !st.Ask?
    requires Moves(e.store[uid], t, FedBy(st), st.Deliver?) && KeepsClaim(e.store[uid], t)
    ensures Framed(d, Put(e, uid, t), st)
  {
    hide Moves, KeepsClaim, FedBy;
    MovesTransitive(d.store[uid], e.store[uid], t, FedBy(st), st.Deliver?);
    KeepsClaimTransitive(d.store[uid], e.store[uid], t);
  }

  lemma KeepsClaimTransitive(s: Session, t: Session, u: Session)
    requires KeepsClaim(t, u)
    ensures KeepsClaim(s, t) ==> KeepsClaim(s, u)
  {
  }

  /** Every object the invariant of runs speaks of hands out fresh spec ids. */
  ghost predicate FreshIds(d: Daemon) {
    && (forall uid :: uid in d.store ==> Unnumbered(d.store[uid]))
    && d.uids !in d.store
  }

  lemma OnFsChangeFramed(d: Daemon, repo: string, now: real, st: Step)
    ensures Framed(d, OnFsChange(d, repo, now), st)
  {
    hide Framed, InvalidateRepo;
    var e := if repo in d.mutations then d.(mutations := d.mutations[repo := Conflict(d.mutations[repo])]) else d;
    InvalidateFramed(e, repo, None, now, st);
    SameStoreFramed(d, e, OnFsChange(d, repo, now), st);
  }

  lemma SameStoreFramed(d: Daemon, e: Daemon, f: Daemon, st: Step)
    requires d.store == e.store && d.sessions == e.sessions && Framed(e, f, st)
    ensures Framed(d, f, st)
  {
  }

  lemma EndFramed(d: Daemon, sid: string, mid: MutationId, success: bool, committed: bool, now: real, st: Step)
    requires Endable(d, sid, mid) && !st.Ask?
    ensures Framed(d, MutationEnd(d, sid, mid, success, committed, now), st)
  {
    hide Framed, InvalidateRepo;
    var uid := d.sessions[sid];
    var repo := d.store[uid].repo;
    var preserve := Preserves(d, sid, mid, success, committed);
    var active := Active(d, repo) - {mid};
    var b := d.(mutations := if active == map[] then d.mutations - {repo} else d.mutations[repo := active]);
    var e := InvalidateRepo(b, repo, if preserve then Some(uid) else None, now);
    InvalidateFramed(b, repo, if preserve then Some(uid) else None, now, st);
    SameStoreFramed(d, b, e, st);
    FramedHolds(d, e, uid, st);
    InvalidatePutFramed(d, e, uid, e.store[uid].(completed := e.store[uid].completed[mid := preserve],
                                                 chainMutation := None), st);
  }

  lemma FramedHolds(d: Daemon, e: Daemon, uid: Uid, st: Step)
    requires Framed(d, e, st) && uid in d.store
    ensures uid in e.store
  {
  }

  lemma ReportFramed(d: Daemon, sid: string, policy: Policy, args: Args, mid: Option<MutationId>, now: real, st: Step)
    requires Reportable(d, sid, mid) && !st.Ask?
    ensures Framed(d, Report(d, sid, policy, args, mid, now), st)
  {
    hide Framed, OnFsChange;
    var uid := d.sessions[sid];
    var s := d.store[uid];
    OnFsChangeFramed(d, s.repo, now, st);
    var e := OnFsChange(d, s.repo, now);
    FramedHolds(d, e, uid, st);
    InvalidatePutFramed(d, e, uid, e.store[uid].(streamedWrite := false), st);
    FramedReflexive(d, st);
    InvalidatePutFramed(d, d, uid, s.(streamedWrite := false), st);
    if mid.Some? {
      InvalidatePutFramed(d, d, uid, s.(completed := s.completed - {mid.value}, streamedWrite := false), st);
    }
  }

  lemma FramedReflexive(d: Daemon, st: Step)
    ensures Framed(d, d, st)
  {
  }

  lemma FeedFramed(d: Daemon, sid: string, w: Write, mid: Option<MutationId>, pred: Option<Call>,
                   substrate: bool, now: real, fs: FS, st: Step)
    requires Feedable(d, sid, w, mid) && FreshIds(d)
    requires st.FeedWrite? && st.under == mid
    ensures Framed(d, Feed(d, sid, w, mid, pred, substrate, now, fs), st)
  {
    hide Framed, OnFsChange, StartChain;
    var uid := d.sessions[sid];
    var e := if mid == None then OnFsChange(d, d.store[uid].repo, now) else d;
    OnFsChangeFramed(d, d.store[uid].repo, now, st);
    FramedReflexive(d, st);
    FramedHolds(d, e, uid, st);
    OnFsChangeNumbers(d, d.store[uid].repo, now, uid);
    StartChainMoves(e.store[uid], w, mid, pred, substrate, now, fs);
    InvalidatePutFramed(d, e, uid, StartChain(e.store[uid], w, mid, pred, substrate, now, fs), st);
  }

  lemma OnFsChangeNumbers(d: Daemon, repo: string, now: real, uid: Uid)
    requires uid in d.store && Unnumbered(d.store[uid])
    ensures uid in OnFsChange(d, repo, now).store && Unnumbered(OnFsChange(d, repo, now).store[uid])
  {
    hide DiscardIds;
    var s := d.store[uid];
    DiscardIdsMove(s.cache, From(s.chainSpecIds, 0));
  }

  lemma WorkerFramed(w: World, st: Step)
    requires st.Completes? || st.Fails? || st.Settles? || st.Preempts?
    ensures Framed(w.d, Next(w, st).d, st)
  {
    hide WorkerCompletes, WorkerFails, Settle, Preempt, Moves, KeepsClaim, Framed, FedBy;
    FramedReflexive(w.d, st);
    if st.uid in w.d.store {
      var s := w.d.store[st.uid];
      match st
      case Completes(uid, id, result, duration) =>
        if HasTask(w, uid, id) {
          WorkerMoves(s, id, result, duration);
          PutMoves(w.d, uid, WorkerCompletes(s, id, result, duration), st);
        }
      case Fails(uid, id) =>
        if HasTask(w, uid, id) {
          FailMoves(s, id);
          PutMoves(w.d, uid, WorkerFails(s, id), st);
        }
      case Settles(uid, ok) =>
        SettleMoves(s, ok);
        PutMoves(w.d, uid, Settle(s, ok), st);
      case Preempts(uid, id, now) =>
        PreemptMoves(s, id, now);
        PutMoves(w.d, uid, Preempt(s, id, now), st);
    }
  }

  lemma PutMoves(d: Daemon, uid: Uid, t: Session, st: Step)
    requires uid in d.store && Moves(d.store[uid], t, {}, false) && KeepsClaim(d.store[uid], t)
    ensures Framed(d, Put(d, uid, t), st)
  {
    PutFramed(d, uid, t, st);
  }

  lemma WorkerMoves(s: Session, id: SpecId, result: Output, duration: real)
    requires id in s.tasks
    ensures Moves(s, WorkerCompletes(s, id, result, duration), {}, false)
    ensures KeepsClaim(s, WorkerCompletes(s, id, result, duration))
  {
    hide Complete, Q.Later;
    Q.CompleteIsLater(s.cache, id, result, duration);
  }

  lemma FailMoves(s: Session, id: SpecId)
    requires id in s.tasks
    ensures Moves(s, WorkerFails(s, id), {}, false) && KeepsClaim(s, WorkerFails(s, id))
  {
    hide DiscardSpec, Q.Later;
    Q.DiscardIsLater(s.cache, id);
  }

  lemma SettleMoves(s: Session, ok: bool)
    ensures Moves(s, Settle(s, ok), {}, false) && KeepsClaim(s, Settle(s, ok))
  {
  }

  lemma PreemptMoves(s: Session, id: SpecId, now: real)
    ensures Moves(s, Preempt(s, id, now), {}, false) && KeepsClaim(s, Preempt(s, id, now))
  {
  }

  lemma SessionFramed(w: World, st: Step)
    requires FreshIds(w.d)
    requires st.StartSession? || st.EndSession? || st.StopDaemon? || st.Changes?
    ensures Framed(w.d, Next(w, st).d, st)
  {
    hide Retire, Observe, Moves, KeepsClaim, Framed, FedBy;
    FramedReflexive(w.d, st);
    match st
    case StartSession(sid, repo, settings) => BlankFramed(w.d, sid, repo, settings, st);
    case EndSession(sid, now) =>
      if Removable(w.d, sid) {
        var uid := w.d.sessions[sid];
        RetireMoves(w.d.store[uid], now);
        PutMoves(w.d, uid, Retire(w.d.store[uid], now), st);
        SameStoresFramed(w.d, Put(w.d, uid, Retire(w.d.store[uid], now)), Next(w, st).d, st);
      }
    case StopDaemon(now) =>
      forall s: Session
        ensures Moves(s, Retire(s, now), {}, false) && KeepsClaim(s, Retire(s, now)) && Moves(s, s, {}, false) && KeepsClaim(s, s)
      {
        RetireMoves(s, now);
      }
      EachMoves(w.d, Next(w, st).d, st);
    case Changes(repo, next) =>
      forall s: Session
        ensures Moves(s, Observe(s, next), {}, false) && KeepsClaim(s, Observe(s, next)) && Moves(s, s, {}, false) && KeepsClaim(s, s)
      {
        ObserveMoves(s, next);
      }
      EachMoves(w.d, Next(w, st).d, st);
  }

  lemma SameStoresFramed(d: Daemon, e: Daemon, f: Daemon, st: Step)
    requires e.store == f.store && Framed(d, e, st)
    ensures Framed(d, f, st)
  {
  }

  lemma BlankFramed(d: Daemon, sid: string, repo: string, settings: Settings, st: Step)
    requires d.uids !in d.store
    ensures Framed(d, SessionStart(d, sid, repo, settings), st)
  {
  }

  lemma RetireMoves(s: Session, now: real)
    ensures Moves(s, Retire(s, now), {}, false) && KeepsClaim(s, Retire(s, now)) && Moves(s, s, {}, false) && KeepsClaim(s, s)
  {
    hide BumpEpoch, Q.Later;
    Q.BumpIsLater(s.cache, now);
    Q.Unmoved(s.cache, s.cache.ledger);
  }

  lemma ObserveMoves(s: Session, fs: FS)
    ensures Moves(s, Observe(s, fs), {}, false) && KeepsClaim(s, Observe(s, fs)) && Moves(s, s, {}, false) && KeepsClaim(s, s)
  {
  }

  lemma EachMoves(d: Daemon, e: Daemon, st: Step)
    requires e.store.Keys == d.store.Keys
    requires forall uid :: uid in d.store ==> Moves(d.store[uid], e.store[uid], {}, false) && KeepsClaim(d.store[uid], e.store[uid])
    ensures Framed(d, e, st)
  {
  }

  lemma AskFramed(w: World, st: Step)
    requires st.Ask?
    ensures Framed(w.d, Next(w, st).d, st)
  {
    hide ResolveStart, Moves;
    FramedReflexive(w.d, st);
    if Known(w.d, st.sid) {
      var uid := w.d.sessions[st.sid];
      var s := w.d.store[uid];
      ResolveStartMoves(s, st.call, Open(w.d, s.repo));
      PutFramed(w.d, uid, ResolveStart(s, st.call, Open(w.d, s.repo)).s, st);
    }
  }

  lemma BeginFramed(d: Daemon, sid: string, writeArgs: Option<Write>, now: real, st: Step)
    requires Beginnable(d, sid, writeArgs)
    ensures Framed(d, MutationBegin(d, sid, writeArgs, now), st)
  {
    hide Framed, InvalidateRepo, Conflict, ValidateWritePath;
    var repo := d.store[d.sessions[sid]].repo;
    var active := Active(d, repo);
    var e := d.(mutations := d.mutations[repo := Conflict(active)[d.mids := Mutation(sid, writeArgs, active != map[])]],
                mids := d.mids + 1);
    InvalidateFramed(e, repo, None, now, st);
    SameStoreFramed(d, e, MutationBegin(d, sid, writeArgs, now), st);
  }

  lemma NextFramed(w: World, st: Step)
    requires FreshIds(w.d)
    ensures Framed(w.d, Next(w, st).d, st)
  {
    hide Framed, SessionStart, SessionEnd, Shutdown, MutationBegin, MutationEnd, OnFsChange, Report, SpeculateCall,
      Feed, Asked, FinishResolve, WorkerCompletes, WorkerFails, Settle, Preempt, Observe, Feedable, Reportable,
      Beginnable, Endable;
    FramedReflexive(w.d, st);
    match st
    case StartSession(_, _, _) => SessionFramed(w, st);
    case EndSession(_, _) => SessionFramed(w, st);
    case StopDaemon(_) => SessionFramed(w, st);
    case Changes(_, _) => SessionFramed(w, st);
    case Begin(sid, writeArgs, now) =>
      if Beginnable(w.d, sid, writeArgs) { BeginFramed(w.d, sid, writeArgs, now, st); }
    case End(sid, mid, success, now) =>
      if Endable(w.d, sid, mid) { EndFramed(w.d, sid, mid, success, Committed(w, sid, mid), now, st); }
    case Noticed(sid, now) =>
      if Known(w.d, sid) { OnFsChangeFramed(w.d, w.d.store[w.d.sessions[sid]].repo, now, st); }
    case Reported(sid, policy, args, mid, now) =>
      if Reportable(w.d, sid, mid) { ReportFramed(w.d, sid, policy, args, mid, now, st); }
    case Launch(sid, call, now) => LaunchFramed(w, st);
    case FeedWrite(sid, write, mid, pred, substrate, now) =>
      if Feedable(w.d, sid, write, mid) {
        assert Known(w.d, sid) by { FeedableKnown(w.d, sid, write, mid); }
        FeedFramed(w.d, sid, write, mid, pred, substrate, now, Repo(w, w.d.store[w.d.sessions[sid]].repo), st);
      }
    case Ask(_, _, _) => AskFramed(w, st);
    case Deliver(ticket, completed) =>
      if ticket in w.joins && w.joins[ticket].uid in w.d.store {
        var j := w.joins[ticket];
        DeliverFramed(w.d, j, completed, st);
      }
    case Completes(_, _, _, _) => WorkerFramed(w, st);
    case Fails(_, _) => WorkerFramed(w, st);
    case Settles(_, _) => WorkerFramed(w, st);
    case Preempts(_, _, _) => WorkerFramed(w, st);
  }

  lemma FeedableKnown(d: Daemon, sid: string, w: Write, mid: Option<MutationId>)
    requires Feedable(d, sid, w, mid)
    ensures Known(d, sid)
  {
  }

  lemma LaunchFramed(w: World, st: Step)
    requires st.Launch? && FreshIds(w.d)
    ensures Framed(w.d, Next(w, st).d, st)
  {
    hide Speculate, Moves, KeepsClaim, FedBy;
    FramedReflexive(w.d, st);
    if Speculable(w.d, st.sid, st.call) {
      var uid := w.d.sessions[st.sid];
      var fs := Repo(w, w.d.store[uid].repo);
      SpeculateMoves(w.d.store[uid], st.call, st.now, fs);
      PutMoves(w.d, uid, Speculate(w.d.store[uid], st.call, st.now, fs), st);
    }
  }

  lemma DeliverFramed(d: Daemon, j: Join, completed: bool, st: Step)
    requires j.uid in d.store && st.Deliver?
    ensures Framed(d, Put(d, j.uid, FinishResolve(d, j, completed).s), st)
  {
    hide FinishResolve, Moves;
    FinishMoves(d, j, completed);
    PutFramed(d, j.uid, FinishResolve(d, j, completed).s, st);
  }
}
