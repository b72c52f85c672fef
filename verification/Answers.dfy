/**
 * What the daemon's requests do and answer, read off the fields of the state
 * they find (src/sfx/daemon.py:241-452): which are refused, and what is true
 * after the others. The state may be any that satisfies `Invariant`, which
 * every state of every run does (RunSteps.RunKeeps).
 */
module Answers {
  import opened Common
  import opened Caches
  import opened WritePaths
  import opened Sessions
  import opened SessionInvariants
  import opened Daemons
  import opened Coherence
  import opened Invalidations
  import opened Runs
  import opened RunSteps
  import opened Lossless
  import opened Fences
  import L = Ledgers
  import Q = CacheQueues

  /** The brackets of `repo` are now `active`, those of other repositories as before. */
  ghost predicate OpenNow(d: Daemon, e: Daemon, repo: string, active: map<MutationId, Mutation>) {
    && Active(e, repo) == active && (forall r: string :: r != repo ==> Active(e, r) == Active(d, r))
    && e.sessions == d.sessions && e.uids == d.uids
  }

  /** Whom a request of session `sid` is about. */
  ghost predicate Speaks(d: Daemon, sid: string, s: Session) {
    Known(d, sid) && s == d.store[d.sessions[sid]]
  }

  /* Reported and observed changes */

  ghost predicate Disturbed(d: Daemon, e: Daemon, repo: string, now: real) {
    && OpenNow(d, e, repo, map m | m in Active(d, repo) :: Active(d, repo)[m].(conflicted := true))
    && e.mids == d.mids && EmptiedAll(d, e, repo, None, now)
  }

  lemma ChangeDisturbs(exec: Option<Exec>, w: World, repo: string, now: real)
    requires Invariant(exec, w)
    ensures Disturbed(w.d, OnFsChange(w.d, repo, now), repo, now)
  {
    hide Invariant, InvalidateRepo, EmptiedAll, OpenNow;
    var e := if repo in w.d.mutations then w.d.(mutations := w.d.mutations[repo := Conflict(w.d.mutations[repo])]) else w.d;
    RepoEmptied(exec, w, e, repo, None, now);
    InvalidateFrame(e, repo, None, now);
    EmptiedThrough(w.d, e, InvalidateRepo(e, repo, None, now), repo, None, now);
    ChangeRebrackets(w.d, InvalidateRepo(e, repo, None, now), repo);
  }

  lemma ChangeRebrackets(d: Daemon, x: Daemon, repo: string)
    requires x.mutations == if repo in d.mutations then d.mutations[repo := Conflict(d.mutations[repo])] else d.mutations
    requires x.sessions == d.sessions && x.uids == d.uids
    ensures OpenNow(d, x, repo, map m | m in Active(d, repo) :: Active(d, repo)[m].(conflicted := true))
  {
  }

  /** `on_fs_change`: every bracket of the repository is marked, every session of it emptied. */
  lemma NoticedAnswers(exec: Option<Exec>, w: World, sid: string, now: real, s: Session)
    requires Invariant(exec, w) && Speaks(w.d, sid, s)
    ensures var v := Next(w, Noticed(sid, now));
            Disturbed(w.d, v.d, s.repo, now) && v.fs == w.fs && v.joins == w.joins
  {
    hide Invariant, OnFsChange, Disturbed;
    ChangeDisturbs(exec, w, s.repo, now);
  }

  /* Brackets */

  /**
   * `mutation_begin` is refused, for a known session, exactly if it declares a
   * path no write may have. Otherwise the new bracket is open, conflicted
   * exactly if another one was, which all the others now are too, and every
   * session of the repository is emptied.
   */
  ghost predicate BeginAnswer(w: World, v: World, sid: string, writeArgs: Option<Write>, repo: string, now: real) {
    var before := Active(w.d, repo);
    if writeArgs.Some? && ValidateWritePath(writeArgs.value.path) == None then v == w
    else
      && OpenNow(w.d, v.d, repo,
                     (map m | m in before :: before[m].(conflicted := true))
                     [w.d.mids := Mutation(sid, writeArgs, before != map[])])
      && v.d.mids == w.d.mids + 1 && EmptiedAll(w.d, v.d, repo, None, now) && v.fs == w.fs && v.joins == w.joins
  }

  lemma BeginAnswers(exec: Option<Exec>, w: World, sid: string, writeArgs: Option<Write>, now: real, s: Session)
    requires Invariant(exec, w) && Speaks(w.d, sid, s)
    ensures BeginAnswer(w, Next(w, Begin(sid, writeArgs, now)), sid, writeArgs, s.repo, now)
  {
    hide Invariant, InvalidateRepo, EmptiedAll, ValidateWritePath, Conflict, OpenNow, Next, Active;
    var e := Begun(w.d, sid, writeArgs, s.repo);
    var x := InvalidateRepo(e, s.repo, None, now);
    BeginIs(w, sid, writeArgs, now, s);
    RepoEmptied(exec, w, e, s.repo, None, now);
    InvalidateFrame(e, s.repo, None, now);
    BeginRebrackets(w.d, e, x, sid, writeArgs, s.repo);
    EmptiedThrough(w.d, e, x, s.repo, None, now);
  }

  /** The daemon with the new bracket open and nothing swept yet. */
  function Begun(d: Daemon, sid: string, writeArgs: Option<Write>, repo: string): Daemon {
    var active := Active(d, repo);
    d.(mutations := d.mutations[repo := Conflict(active)[d.mids := Mutation(sid, writeArgs, active != map[])]],
       mids := d.mids + 1)
  }

  lemma BeginIs(w: World, sid: string, writeArgs: Option<Write>, now: real, s: Session)
    requires Speaks(w.d, sid, s)
    ensures Next(w, Begin(sid, writeArgs, now))
            == if writeArgs.Some? && ValidateWritePath(writeArgs.value.path) == None then w
               else w.(d := InvalidateRepo(Begun(w.d, sid, writeArgs, s.repo), s.repo, None, now))
  {
    hide InvalidateRepo, ValidateWritePath, Conflict;
  }

  lemma BeginRebrackets(d: Daemon, e: Daemon, x: Daemon, sid: string, writeArgs: Option<Write>, repo: string)
    requires var active := Active(d, repo);
             e.mutations == d.mutations[repo := Conflict(active)[d.mids := Mutation(sid, writeArgs, active != map[])]]
    requires x.mutations == e.mutations && x.sessions == d.sessions && x.uids == d.uids
    ensures OpenNow(d, x, repo, (map m | m in Active(d, repo) :: Active(d, repo)[m].(conflicted := true))
                                    [d.mids := Mutation(sid, writeArgs, Active(d, repo) != map[])])
  {
  }

  /** Whose brackets were changed before the sweep makes no difference to it. */
  lemma EmptiedThrough(d: Daemon, e: Daemon, x: Daemon, repo: string, kept: Option<Uid>, now: real)
    requires EmptiedAll(e, x, repo, kept, now) && e.store == d.store && e.sessions == d.sessions
    ensures EmptiedAll(d, x, repo, kept, now)
  {
    hide Emptied;
  }

  /** Whether `mutation_end` may answer that the chain is kept. */
  ghost predicate Keeps(w: World, s: Session, mid: MutationId, success: bool) {
    && success
    && Active(w.d, s.repo).Keys == {mid} && !Active(w.d, s.repo)[mid].conflicted
    && s.chain.Some? && s.chainMutation == Some(mid) && s.chain.value.fed == Some(mid)
    && Active(w.d, s.repo)[mid].writeArgs == Some(s.chain.value.write)
    && s.chain.value.future != Some(Failed)
    && ValidateWritePath(s.chain.value.write.path).Some?
    && var target := ValidateWritePath(s.chain.value.write.path).value;
    target in Repo(w, s.repo) && Repo(w, s.repo)[target] == s.chain.value.write.contents
  }

  /**
   * `mutation_end` is refused exactly for a bracket the session has not open.
   * Otherwise the bracket is gone and the answer, which the report will be held
   * to, is true if and only if the caller reported success, the bracket was
   * alone and unconflicted, the chain was fed under it with exactly the write
   * it declared, its fork has not failed, and the file reads back its contents.
   * Then that session keeps chain and cache; otherwise it is emptied like every
   * other session of the repository.
   */
  ghost predicate EndAnswer(w: World, v: World, sid: string, mid: MutationId, success: bool, s: Session, now: real)
    requires Speaks(w.d, sid, s)
  {
    var uid, active := w.d.sessions[sid], Active(w.d, s.repo);
    if mid !in active || active[mid].sid != sid then v == w
    else
      && OpenNow(w.d, v.d, s.repo, active - {mid}) && v.d.mids == w.d.mids && v.fs == w.fs && v.joins == w.joins
      && uid in v.d.store && EndedAs(s, v.d.store[uid], mid, Keeps(w, s, mid, success), now)
      && EmptiedAll(w.d, v.d.(store := v.d.store[uid := s]), s.repo, Some(uid), now)
  }

  /** What the end of its bracket does to a session: it keeps everything, or is emptied, and records which. */
  ghost predicate EndedAs(s: Session, t: Session, mid: MutationId, kept: bool, now: real) {
    && t.completed == s.completed[mid := kept] && t.chainMutation == None
    && (kept ==> t == s.(completed := t.completed, chainMutation := None))
    && (!kept ==> Emptied(s, t.(completed := s.completed, chainMutation := if s.chain.Some? then None else s.chainMutation), now))
  }

  lemma EndAnswers(exec: Option<Exec>, w: World, sid: string, mid: MutationId, success: bool, now: real, s: Session)
    requires Invariant(exec, w) && Speaks(w.d, sid, s)
    ensures EndAnswer(w, Next(w, End(sid, mid, success, now)), sid, mid, success, s, now)
  {
    hide Invariant, InvalidateRepo, EmptiedAll, ValidateWritePath, SessionInvariants.Valid, Keeps, OpenNow, Next,
      EndedAs, Preserves, Committed;
    var uid := w.d.sessions[sid];
    KnownIsCurrent(exec, w, sid);
    if Endable(w.d, sid, mid) {
      KeepsIsPreserves(exec, w, sid, mid, success, s);
      var kept := Keeps(w, s, mid, success);
      var e := Unbracket(w.d, s.repo, mid);
      var x := InvalidateRepo(e, s.repo, if kept then Some(uid) else None, now);
      RepoEmptied(exec, w, e, s.repo, if kept then Some(uid) else None, now);
      InvalidateFrame(e, s.repo, if kept then Some(uid) else None, now);
      EmptiedThrough(w.d, e, x, s.repo, if kept then Some(uid) else None, now);
      EndRebrackets(w.d, e, x, s.repo, mid);
      OthersEmptied(w.d, x, s.repo, if kept then Some(uid) else None, uid, now);
      EndedSession(s, x.store[uid], mid, kept, now);
      var t := x.store[uid].(completed := x.store[uid].completed[mid := kept], chainMutation := None);
      EndIs(w, sid, mid, success, now, s, kept);
      var y := Put(x, uid, t);
      SameBrackets(w.d, x, y, s.repo, Active(w.d, s.repo) - {mid});
      assert y.store[uid := s] == x.store[uid := s];
      SameStores(w.d, x.(store := x.store[uid := s]), y.(store := y.store[uid := s]), s.repo, Some(uid), now);
    } else {
      EndRefused(w, sid, mid, success, now, s);
    }
  }

  /** The daemon with the bracket gone and nothing swept yet. */
  function Unbracket(d: Daemon, repo: string, mid: MutationId): Daemon {
    var active := Active(d, repo) - {mid};
    d.(mutations := if active == map[] then d.mutations - {repo} else d.mutations[repo := active])
  }

  lemma EndIs(w: World, sid: string, mid: MutationId, success: bool, now: real, s: Session, kept: bool)
    requires Speaks(w.d, sid, s) && Endable(w.d, sid, mid)
    requires kept == Preserves(w.d, sid, mid, success, Committed(w, sid, mid))
    ensures var uid := w.d.sessions[sid];
            var x := InvalidateRepo(Unbracket(w.d, s.repo, mid), s.repo, if kept then Some(uid) else None, now);
            && uid in x.store
            && Next(w, End(sid, mid, success, now))
               == w.(d := Put(x, uid, x.store[uid].(completed := x.store[uid].completed[mid := kept], chainMutation := None)))
  {
    hide Invalidate, Preserves, Committed;
  }

  lemma EndRefused(w: World, sid: string, mid: MutationId, success: bool, now: real, s: Session)
    requires Speaks(w.d, sid, s) && !Endable(w.d, sid, mid)
    ensures Next(w, End(sid, mid, success, now)) == w
    ensures mid !in Active(w.d, s.repo) || Active(w.d, s.repo)[mid].sid != sid
  {
  }

  lemma EndRebrackets(d: Daemon, e: Daemon, x: Daemon, repo: string, mid: MutationId)
    requires var active := Active(d, repo) - {mid};
             e.mutations == if active == map[] then d.mutations - {repo} else d.mutations[repo := active]
    requires x.mutations == e.mutations && x.sessions == d.sessions && x.uids == d.uids
    ensures OpenNow(d, x, repo, Active(d, repo) - {mid})
  {
  }

  lemma SameBrackets(d: Daemon, x: Daemon, y: Daemon, repo: string, active: map<MutationId, Mutation>)
    requires OpenNow(d, x, repo, active) && y.mutations == x.mutations && y.sessions == x.sessions && y.uids == x.uids
    ensures OpenNow(d, y, repo, active)
  {
  }

  lemma SameStores(d: Daemon, x: Daemon, y: Daemon, repo: string, kept: Option<Uid>, now: real)
    requires EmptiedAll(d, x, repo, kept, now) && y.store == x.store
    ensures EmptiedAll(d, y, repo, kept, now)
  {
    hide Emptied;
  }

  lemma OthersEmptied(d: Daemon, x: Daemon, repo: string, kept: Option<Uid>, uid: Uid, now: real)
    requires EmptiedAll(d, x, repo, kept, now) && uid in d.store && kept in {None, Some(uid)}
    requires d.store[uid].sid in d.sessions && d.sessions[d.store[uid].sid] == uid && d.store[uid].repo == repo
    ensures uid in x.store && (if kept == None then Emptied(d.store[uid], x.store[uid], now) else x.store[uid] == d.store[uid])
    ensures EmptiedAll(d, x.(store := x.store[uid := d.store[uid]]), repo, Some(uid), now)
  {
    hide Emptied;
  }

  lemma EndedSession(s: Session, x: Session, mid: MutationId, kept: bool, now: real)
    requires if kept then x == s else Emptied(s, x, now)
    ensures EndedAs(s, x.(completed := x.completed[mid := kept], chainMutation := None), mid, kept, now)
  {
  }

  lemma KeepsIsPreserves(exec: Option<Exec>, w: World, sid: string, mid: MutationId, success: bool, s: Session)
    requires Invariant(exec, w) && Speaks(w.d, sid, s) && Endable(w.d, sid, mid)
    ensures Keeps(w, s, mid, success) <==> Preserves(w.d, sid, mid, success, Committed(w, sid, mid))
  {
    hide Invariant, ValidateWritePath;
    if s.chain.Some? {
      ChainFence(exec, w, sid, s);
    }
    AloneMeans(Active(w.d, s.repo), mid);
  }

  lemma AloneMeans(active: map<MutationId, Mutation>, mid: MutationId)
    requires mid in active
    ensures |active| == 1 <==> active.Keys == {mid}
  {
    assert |active.Keys| == |active|;
    if |active| == 1 {
      assert |active.Keys - {mid}| == 0;
    }
  }

  /** A chain inside an open bracket was fed under it. */
  lemma ChainFence(exec: Option<Exec>, w: World, sid: string, s: Session)
    requires Invariant(exec, w) && Speaks(w.d, sid, s) && s.chain.Some? && Active(w.d, s.repo) != map[]
    ensures s.chain.value.fed.Some? && Active(w.d, s.repo).Keys == {s.chain.value.fed.value}
  {
    hide Invariant, ValidateWritePath, SessionInvariants.Valid;
    KnownIsCurrent(exec, w, sid);
    SessionOf(exec, w, w.d.sessions[sid]);
  }

  /**
   * An end that reports no success leaves no chain and no job in any session
   * of the repository, whatever was written.
   */
  lemma FailedEndEmpties(fs: map<string, FS>, steps: seq<Step>, sid: string, mid: MutationId, now: real, s: Session, uid: Uid)
    requires var w := After(Start(fs), steps);
             Speaks(w.d, sid, s) && mid in Active(w.d, s.repo) && Active(w.d, s.repo)[mid].sid == sid
    requires var w := After(Start(fs), steps);
             uid in w.d.store && Current(w.d, uid) && w.d.store[uid].repo == s.repo
    ensures var v := Next(After(Start(fs), steps), End(sid, mid, false, now));
            && uid in v.d.store && v.d.store[uid].chain == None && v.d.store[uid].cache.jobs == map[]
            && (v.d.store[uid].sid == sid ==> mid in v.d.store[uid].completed && !v.d.store[uid].completed[mid])
  {
    hide Invariant, After, Next, OpenNow;
    AnyRunKeeps(fs, steps);
    EndAnswers(None, After(Start(fs), steps), sid, mid, false, now, s);
    KnownIsCurrent(None, After(Start(fs), steps), sid);
  }

  /* Reports */

  /** What a report leaves of a session: it consumes the completion it is about. */
  ghost predicate Told(s: Session, t: Session, mid: Option<MutationId>) {
    t == s.(streamedWrite := false, completed := if mid.Some? then s.completed - {mid.value} else s.completed)
  }

  /**
   * `call_executed` is refused exactly for a completion the session does not
   * have. A report of a completed mutation consumes it. Any other report of a
   * call that is not free counts as a change, unless it is of just the write
   * the session has streamed.
   */
  ghost predicate ReportAnswer(w: World, v: World, sid: string, policy: Policy, args: Args, mid: Option<MutationId>, s: Session, now: real)
    requires Speaks(w.d, sid, s)
  {
    var uid := w.d.sessions[sid];
    if mid.Some? && mid.value !in s.completed then v == w
    else if mid == None && policy == Free then v == w
    else
      && v.fs == w.fs && v.joins == w.joins && uid in v.d.store
      && if (mid.Some? || (s.streamedWrite && s.chain.Some?
             && args == map["path" := s.chain.value.write.path, "contents" := s.chain.value.write.contents])) then
           v.d == w.d.(store := w.d.store[uid := v.d.store[uid]]) && Told(s, v.d.store[uid], mid)
         else Disturbed(w.d, v.d, s.repo, now)
  }

  lemma ReportAnswers(exec: Option<Exec>, w: World, sid: string, policy: Policy, args: Args, mid: Option<MutationId>,
                      now: real, s: Session)
    requires Invariant(exec, w) && Speaks(w.d, sid, s)
    ensures ReportAnswer(w, Next(w, Reported(sid, policy, args, mid, now)), sid, policy, args, mid, s, now)
  {
    hide Invariant, OnFsChange, Disturbed;
    ChangeDisturbs(exec, w, s.repo, now);
    KnownIsCurrent(exec, w, sid);
    AlreadyQuiet(w.d, OnFsChange(w.d, s.repo, now), s.repo, w.d.sessions[sid], now);
  }

  /** An emptied session has no streamed write to forget. */
  lemma AlreadyQuiet(d: Daemon, e: Daemon, repo: string, uid: Uid, now: real)
    requires Disturbed(d, e, repo, now) && Current(d, uid) && d.store[uid].repo == repo
    ensures uid in e.store && Put(e, uid, e.store[uid].(streamedWrite := false)) == e
  {
    hide OpenNow;
    assert e.store[uid].(streamedWrite := false) == e.store[uid];
    assert e.store[uid := e.store[uid]] == e.store;
  }

  /* Speculated reads */

  /** The kinds of call that change nothing. */
  predicate Reads(kind: string) {
    kind in {"read", "grep", "search", "test", "lint", "typecheck", "build", "run", "sub-LLM"}
  }

  /** One more job, of `call` at `now`: the last in its slot's queue, and a pool thread on `lane` runs it. */
  ghost predicate Reserved(s: Session, t: Session, call: Call, now: real, lane: Lane, fs: FS) {
    var id := s.cache.n;
    && t.cache.n == id + 1 && t.cache.epoch == s.cache.epoch
    && t.tasks == s.tasks[id := Task(lane, {fs}, true)]
    && id in t.cache.objs && t.cache.objs[id].call == call && t.cache.objs[id].epoch == s.cache.epoch
    && t.cache.objs[id].launch == now && !t.cache.objs[id].done && !t.cache.objs[id].synchronous
    && t.cache.objs[id].result == None && t.cache.objs[id].duration == None
    && Q.Queue(t.cache, call) == Q.Queue(s.cache, call) + [id]
    && (forall other :: other != call ==> Q.Queue(t.cache, other) == Q.Queue(s.cache, other))
    && t.cache.ledger == s.cache.ledger.(records := s.cache.ledger.records + [L.Launch(id)])
  }

  lemma ReserveReserves(s: Session, call: Call, now: real, lane: Lane, fs: FS)
    requires SessionInvariants.Valid(s)
    ensures var t := s.(cache := Reserve(s.cache, call, now, false), tasks := s.tasks[s.cache.n := Task(lane, {fs}, true)]);
            Reserved(s, t, call, now, lane, fs)
  {
    hide Q.Queue, L.Valid;
    ValidTable(s.cache, s.dropped);
    forall other
      ensures Q.Queue(Reserve(s.cache, call, now, false), other)
              == if other == call then Q.Queue(s.cache, other) + [s.cache.n] else Q.Queue(s.cache, other)
    {
      Q.ReserveEnqueues(s.cache, call, now, false, other);
    }
  }

  /** A read is launched exactly outside every bracket, with speculation on, and never for a call that changes things. */
  ghost predicate LaunchAnswer(w: World, v: World, sid: string, call: Call, now: real, s: Session)
    requires Speaks(w.d, sid, s)
  {
    var uid := w.d.sessions[sid];
    if Active(w.d, s.repo) == map[] && !s.settings.specDisabled && Reads(call.kind) then
      && uid in v.d.store
      && var t := v.d.store[uid];
      && v == w.(d := w.d.(store := w.d.store[uid := t])) && t == s.(cache := t.cache, tasks := t.tasks)
      && Reserved(s, t, call, now, OnRepo, Repo(w, s.repo))
    else v == w
  }

  lemma LaunchAnswers(exec: Option<Exec>, w: World, sid: string, call: Call, now: real, s: Session)
    requires Invariant(exec, w) && Speaks(w.d, sid, s)
    ensures LaunchAnswer(w, Next(w, Launch(sid, call, now)), sid, call, now, s)
  {
    hide Invariant, Reserved, Reserve, SessionInvariants.Valid;
    SessionOf(exec, w, w.d.sessions[sid]);
    ReserveReserves(s, call, now, OnRepo, Repo(w, s.repo));
  }

  /* Streamed writes */

  /** The chain of a freshly streamed write, its one hop the job `hop` if there is one. */
  ghost predicate Chained(s: Session, t: Session, write: Write, mid: Option<MutationId>, pred: Option<Call>) {
    && t.chain.Some?
    && t.chain.value.id == s.chains && t.chains == s.chains + 1
    && t.chain.value.write == write && t.chain.value.fed == mid
    && t.cursor == 0 && t.realHops == []
    && match pred
       case None => t.chain.value.hops == [] && t.chain.value.future == None && t.chainSpecIds == []
       case Some(call) => t.chain.value.hops == [call] && t.chain.value.future == Some(Pending) && t.chainSpecIds == [s.cache.n]
  }

  /** The job of its predicted call, and the fork it runs in. */
  ghost predicate Forked(s: Session, t: Session, write: Write, mid: Option<MutationId>, call: Call, now: real, fs: FS) {
    var id := s.cache.n;
    && t.cache.n == id + 1 && t.tasks == s.tasks[id := Task(InFork(write, mid), {fs}, true)]
    && Resident(t.cache, id) && id !in t.cache.ledger.terminated && t.cache.objs[id].call == call
    && t.cache.objs[id].launch == now && t.cache.objs[id].epoch == t.cache.epoch && !t.cache.objs[id].done
  }

  /** What a streamed write leaves of its session, `fs` being the repository. */
  ghost predicate Streamed(s: Session, t: Session, write: Write, mid: Option<MutationId>, pred: Option<Call>,
                           substrate: bool, now: real, fs: FS) {
    && t.streamedWrite && t.chainMutation == mid && t.claim == None && t.completed == s.completed
    && t.cache.epoch == (if mid == None then s.cache.epoch + 1 else s.cache.epoch)
    && Over(s, t) && Booked(s.cache, t.cache, if s.chain.Some? then s.chainSpecIds else [], now)
    && (forall key :: key in t.cache.jobs ==> t.cache.jobs[key] == s.cache.n)
    && if ValidateWritePath(write.path).Some? && (pred.Some? ==> substrate) then
         && Chained(s, t, write, mid, pred)
         && (if pred.Some? then Forked(s, t, write, mid, pred.value, now, fs) else t.cache.n == s.cache.n && t.tasks == s.tasks)
       else t.chain == None && t.cache.n == s.cache.n && t.tasks == s.tasks
  }

  /**
   * `call_stream_delta` takes a write exactly if the session streams and
   * speculates and either the repository has no bracket and none is named, or
   * exactly the bracket named, unconflicted and of this session and this very
   * write. Outside a bracket it counts as a change first. Nothing else happens.
   */
  ghost predicate FeedAnswer(w: World, v: World, sid: string, write: Write, mid: Option<MutationId>, pred: Option<Call>,
                             substrate: bool, now: real, s: Session)
    requires Speaks(w.d, sid, s)
  {
    var uid := w.d.sessions[sid];
    var due := if mid.Some? then map[mid.value := Mutation(sid, Some(write), false)] else map[];
    if s.settings.streams && !s.settings.specDisabled && Active(w.d, s.repo) == due && (pred.Some? ==> Reads(pred.value.kind)) then
      && v.fs == w.fs && v.joins == w.joins && OpenNow(w.d, v.d, s.repo, due) && v.d.mids == w.d.mids
      && uid in v.d.store && Streamed(s, v.d.store[uid], write, mid, pred, substrate, now, Repo(w, s.repo))
      && EmptiedBut(w.d, v.d, s.repo, uid, mid == None, now)
    else v == w
  }

  /** Every session but `uid` is emptied, if a change is reported, and left alone otherwise. */
  ghost predicate EmptiedBut(d: Daemon, e: Daemon, repo: string, uid: Uid, changed: bool, now: real) {
    && e.store.Keys == d.store.Keys
    && forall u :: u in d.store && u != uid ==>
         if changed && d.store[u].sid in d.sessions && d.sessions[d.store[u].sid] == u && d.store[u].repo == repo
         then Emptied(d.store[u], e.store[u], now) else e.store[u] == d.store[u]
  }

  lemma FeedAnswers(exec: Option<Exec>, w: World, sid: string, write: Write, mid: Option<MutationId>, pred: Option<Call>,
                    substrate: bool, now: real, s: Session)
    requires Invariant(exec, w) && Speaks(w.d, sid, s)
    ensures FeedAnswer(w, Next(w, FeedWrite(sid, write, mid, pred, substrate, now)), sid, write, mid, pred, substrate, now, s)
  {
    hide Invariant, Streamed, EmptiedBut, Feed, OpenNow, Feedable, Active;
    KnownIsCurrent(exec, w, sid);
    FeedableIs(w.d, sid, write, mid, s);
    if Feedable(w.d, sid, write, mid) {
      if mid == None {
        FeedOutside(exec, w, sid, write, pred, substrate, now, s);
      } else {
        FeedInside(exec, w, sid, write, mid.value, pred, substrate, now, s);
      }
    }
  }

  lemma FeedableIs(d: Daemon, sid: string, write: Write, mid: Option<MutationId>, s: Session)
    requires Speaks(d, sid, s)
    ensures Feedable(d, sid, write, mid) <==>
              && s.settings.streams && !s.settings.specDisabled
              && Active(d, s.repo) == if mid.Some? then map[mid.value := Mutation(sid, Some(write), false)] else map[]
  {
    if mid.Some? && mid.value in Active(d, s.repo) {
      AloneMeans(Active(d, s.repo), mid.value);
    }
  }

  lemma FeedOutside(exec: Option<Exec>, w: World, sid: string, write: Write, pred: Option<Call>, substrate: bool,
                    now: real, s: Session)
    requires Invariant(exec, w) && Speaks(w.d, sid, s) && Feedable(w.d, sid, write, None) && Active(w.d, s.repo) == map[]
    ensures var uid := w.d.sessions[sid];
            var e := Feed(w.d, sid, write, None, pred, substrate, now, Repo(w, s.repo));
            && OpenNow(w.d, e, s.repo, map[]) && e.mids == w.d.mids && uid in e.store
            && Streamed(s, e.store[uid], write, None, pred, substrate, now, Repo(w, s.repo))
            && EmptiedBut(w.d, e, s.repo, uid, true, now)
  {
    hide Invariant, Streamed, EmptiedAll, EmptiedBut, Emptied, OnFsChange, StartChain, OpenNow, Cleared,
      SessionInvariants.Valid, Active;
    var uid := w.d.sessions[sid];
    var x := OnFsChange(w.d, s.repo, now);
    KnownIsCurrent(exec, w, sid);
    ChangeDisturbs(exec, w, s.repo, now);
    SweptSession(w.d, x, s.repo, uid, now);
    OnFsChangeKeeps(exec, w, s.repo, now);
    SessionOf(exec, w.(d := x), uid);
    ClearedOutside(s, x.store[uid], now);
    ChainStarts(s, x.store[uid], write, None, pred, substrate, now, Repo(w, s.repo));
    var t := StartChain(x.store[uid], write, None, pred, substrate, now, Repo(w, s.repo));
    NothingConflicts(w.d, x, s.repo);
    SameBrackets(w.d, x, Put(x, uid, t), s.repo, map[]);
    SweptBut(w.d, x, s.repo, uid, t, now);
  }

  lemma NothingConflicts(d: Daemon, x: Daemon, repo: string)
    requires OpenNow(d, x, repo, map m | m in Active(d, repo) :: Active(d, repo)[m].(conflicted := true))
    requires Active(d, repo) == map[]
    ensures OpenNow(d, x, repo, map[])
  {
    assert (map m | m in Active(d, repo) :: Active(d, repo)[m].(conflicted := true)) == map[];
  }

  lemma SweptSession(d: Daemon, x: Daemon, repo: string, uid: Uid, now: real)
    requires EmptiedAll(d, x, repo, None, now) && Current(d, uid) && d.store[uid].repo == repo
    ensures uid in x.store && Emptied(d.store[uid], x.store[uid], now)
  {
    hide Emptied;
  }

  lemma SweptBut(d: Daemon, x: Daemon, repo: string, uid: Uid, t: Session, now: real)
    requires EmptiedAll(d, x, repo, None, now) && uid in d.store
    ensures EmptiedBut(d, Put(x, uid, t), repo, uid, true, now)
  {
    hide Emptied;
  }

  lemma FeedInside(exec: Option<Exec>, w: World, sid: string, write: Write, mid: MutationId, pred: Option<Call>,
                   substrate: bool, now: real, s: Session)
    requires Invariant(exec, w) && Speaks(w.d, sid, s) && Feedable(w.d, sid, write, Some(mid))
    requires Active(w.d, s.repo) == map[mid := Mutation(sid, Some(write), false)]
    ensures var uid := w.d.sessions[sid];
            var e := Feed(w.d, sid, write, Some(mid), pred, substrate, now, Repo(w, s.repo));
            && OpenNow(w.d, e, s.repo, Active(w.d, s.repo)) && e.mids == w.d.mids && uid in e.store
            && Streamed(s, e.store[uid], write, Some(mid), pred, substrate, now, Repo(w, s.repo))
            && EmptiedBut(w.d, e, s.repo, uid, false, now)
  {
    hide Invariant, Streamed, Emptied, StartChain, Coherent, SessionInvariants.Valid, Cleared;
    var uid := w.d.sessions[sid];
    KnownIsCurrent(exec, w, sid);
    SessionOf(exec, w, uid);
    ClearedInside(exec, s, mid, Repo(w, s.repo), Active(w.d, s.repo), now);
    ChainStarts(s, s, write, Some(mid), pred, substrate, now, Repo(w, s.repo));
  }

  /** A session ready for the chain of a write streamed under `mid`. */
  ghost predicate Blank(s: Session, c: Session, mid: Option<MutationId>, now: real) {
    && c.chain == None && c.claim == None && c.streamedWrite && c.chainMutation == mid
    && c.cache.jobs == map[] && c.cache.n == s.cache.n && Over(s, c)
    && Booked(s.cache, c.cache, if s.chain.Some? then s.chainSpecIds else [], now)
    && c.cache.epoch == (if mid == None then s.cache.epoch + 1 else s.cache.epoch)
    && c.tasks == s.tasks && c.completed == s.completed && c.chains == s.chains
  }

  lemma ClearedOutside(s: Session, b: Session, now: real)
    requires SessionInvariants.Valid(b) && Emptied(s, b, now)
    ensures Blank(s, Cleared(b, None), None, now) && SessionInvariants.Valid(Cleared(b, None))
  {
    hide SessionInvariants.Valid;
    ClearedKeepsValid(b, None);
  }

  lemma ClearedInside(exec: Option<Exec>, s: Session, mid: MutationId, fs: FS, active: map<MutationId, Mutation>, now: real)
    requires SessionInvariants.Valid(s) && Coherent(exec, s, fs, active) && active != map[]
    ensures Blank(s, Cleared(s, Some(mid)), Some(mid), now) && SessionInvariants.Valid(Cleared(s, Some(mid)))
  {
    hide SessionInvariants.Valid, Coherent, Resident, KeyOf, DiscardIds, Cleared, Booked;
    var c := Cleared(s, Some(mid));
    ClearedCoherent(exec, s, Some(mid), fs, active);
    ClearedKeepsValid(s, Some(mid));
    NoneResident(s, c);
    InsideBooks(exec, s, mid, fs, active, now);
    EmptyTable(s, c) by {
      ClearedLeaves(s, mid);
    }
    ClearedLeaves(s, mid);
    ShapeHasClaim(c);
  }

  /** Inside a bracket only the chain's own job can be due. */
  lemma InsideBooks(exec: Option<Exec>, s: Session, mid: MutationId, fs: FS, active: map<MutationId, Mutation>, now: real)
    requires SessionInvariants.Valid(s) && Coherent(exec, s, fs, active) && active != map[]
    ensures Booked(s.cache, Cleared(s, Some(mid)).cache, if s.chain.Some? then s.chainSpecIds else [], now)
  {
    hide SessionInvariants.Valid, Coherent, Booked, Due, DiscardIds;
    var ids := if s.chain.Some? then s.chainSpecIds else [];
    forall id | Due(s.cache, id, ids)
      ensures id in ids
    {
      OnlyChainDue(exec, s, fs, active, id, ids);
    }
    if s.chain.Some? {
      ChainJob(s);
    }
    DiscardBooks(s.cache, ids, now);
    assert s.chain == None ==> DiscardIds(s.cache, From(ids, 0)) == s.cache by {
      NothingDiscarded(s.cache);
    }
  }

  lemma NothingDiscarded(c: Cache)
    ensures DiscardIds(c, From([], 0)) == c
  {
  }

  lemma OnlyChainDue(exec: Option<Exec>, s: Session, fs: FS, active: map<MutationId, Mutation>, id: SpecId, ids: seq<SpecId>)
    requires SessionInvariants.Valid(s) && Coherent(exec, s, fs, active) && active != map[] && Due(s.cache, id, ids)
    requires ids == if s.chain.Some? then s.chainSpecIds else []
    ensures id in ids
  {
    TaskKeys(s);
    hide SessionInvariants.Valid, Coherent;
    if id !in ids {
      ResidentInBracket(exec, s, id, fs, active);
    }
  }

  lemma ClearedLeaves(s: Session, mid: MutationId)
    ensures var c := Cleared(s, Some(mid));
            && c.streamedWrite && c.chainMutation == Some(mid) && c.dropped == s.dropped
            && c.cache.n == s.cache.n && c.cache.epoch == s.cache.epoch
            && c.tasks == s.tasks && c.completed == s.completed && c.chains == s.chains
  {
    hide DiscardIds;
    DiscardIdsCount(s.cache, From(s.chainSpecIds, 0));
  }

  lemma NoneResident(s: Session, c: Session)
    requires SessionInvariants.Valid(s) && SessionInvariants.Valid(c) && SameIdentities(s.cache, c.cache)
    requires forall id :: id in s.tasks ==> !Resident(c.cache, id)
    ensures c.cache.jobs == map[]
  {
    hide L.Valid, ChainShape, ChainTask, ForkOwned;
    assert forall key :: key in c.cache.jobs ==> Resident(c.cache, c.cache.jobs[key]);
  }

  lemma ChainStarts(s: Session, b: Session, write: Write, mid: Option<MutationId>, pred: Option<Call>, substrate: bool,
                    now: real, fs: FS)
    requires Blank(s, Cleared(b, mid), mid, now) && SessionInvariants.Valid(Cleared(b, mid))
    ensures Streamed(s, StartChain(b, write, mid, pred, substrate, now, fs), write, mid, pred, substrate, now, fs)
  {
    hide SessionInvariants.Valid, Cleared, ValidateWritePath, LaunchChain, Blank, Streamed;
    var c := Cleared(b, mid);
    BlankStreamed(s, c, write, mid, pred, substrate, now, fs);
    if pred.Some? && ValidateWritePath(write.path).Some? && substrate {
      LaunchStreamed(s, c, write, mid, pred.value, now, fs);
    } else {
      assert c.chain == None ==> c.(chain := None) == c;
    }
  }

  lemma BlankStreamed(s: Session, c: Session, write: Write, mid: Option<MutationId>, pred: Option<Call>, substrate: bool,
                      now: real, fs: FS)
    requires Blank(s, c, mid, now)
    ensures c.chain == None
    ensures ValidateWritePath(write.path) == None || (pred.Some? && !substrate) ==>
              Streamed(s, c, write, mid, pred, substrate, now, fs)
    ensures ValidateWritePath(write.path).Some? && pred == None ==>
              Streamed(s, EmptyChain(c, write, mid), write, mid, pred, substrate, now, fs)
  {
    hide ValidateWritePath;
  }

  lemma LaunchStreamed(s: Session, c: Session, write: Write, mid: Option<MutationId>, call: Call, now: real, fs: FS)
    requires Blank(s, c, mid, now) && SessionInvariants.Valid(c) && ValidateWritePath(write.path).Some?
    ensures Streamed(s, LaunchChain(c, write, mid, call, now, fs), write, mid, Some(call), true, now, fs)
  {
    hide SessionInvariants.Valid, ValidateWritePath, Resident, KeyOf, Reserve, Booked;
    LaunchFacts(c, write, mid, call, now, fs);
    JobReserved(c, call, now);
    LaunchBooks(s.cache, c.cache, Reserve(c.cache, call, now, false), if s.chain.Some? then s.chainSpecIds else [], now);
  }

  lemma JobReserved(c: Session, call: Call, now: real)
    requires SessionInvariants.Valid(c) && c.cache.jobs == map[]
    ensures var d := Reserve(c.cache, call, now, false);
            && Resident(d, c.cache.n) && d.n == c.cache.n + 1 && d.epoch == c.cache.epoch
            && d.ledger == L.RecordLaunch(c.cache.ledger, c.cache.n)
            && (forall key :: key in d.jobs ==> d.jobs[key] == c.cache.n)
            && (forall id :: id in c.cache.objs ==> id in d.objs && d.objs[id] == c.cache.objs[id])
  {
    hide SessionInvariants.Valid, Resident;
    ValidParts(c);
    hide Caches.Valid, ForkOwned, ChainTask, ChainShape, TasksMatch;
    ReserveKeepsValid(c.cache, c.dropped, call, now, false);
  }
}
