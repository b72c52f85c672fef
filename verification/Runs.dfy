/**
 * The daemon among its clients, its pool threads and whoever changes the
 * repositories: every interleaving of atomic steps, with `resolve` cut at its
 * unlocked wait.
 */
module Runs {
  import opened Common
  import opened Caches
  import opened WritePaths
  import opened Sessions
  import opened SessionInvariants
  import opened Daemons
  import opened Coherence
  import opened Evolution

  datatype World = World(d: Daemon, fs: map<string, FS>, joins: map<nat, Join>, tickets: nat)

  function Start(fs: map<string, FS>): World {
    World(Daemons.EMPTY, fs, map[], 0)
  }

  function Repo(w: World, repo: string): FS {
    GetOr(w.fs, repo, map[])
  }

  datatype Step =
    | StartSession(sid: string, repo: string, settings: Settings)
    | EndSession(sid: string, now: real)
    | StopDaemon(now: real)
    | Begin(sid: string, writeArgs: Option<Write>, now: real)
    | End(sid: string, mid: MutationId, success: bool, now: real)
    | Noticed(sid: string, now: real)
    | Reported(sid: string, policy: Policy, args: Args, under: Option<MutationId>, now: real)
    | Launch(sid: string, call: Call, now: real)
    | FeedWrite(sid: string, w: Write, under: Option<MutationId>, pred: Option<Call>, substrate: bool, now: real)
    | Ask(sid: string, call: Call, ask: real)
    | Deliver(ticket: nat, completed: bool)
    | Completes(uid: Uid, id: SpecId, result: Output, duration: real)
    | Fails(uid: Uid, id: SpecId)
    | Settles(uid: Uid, ok: bool)
    | Preempts(uid: Uid, id: SpecId, now: real)
    | Changes(repo: string, next: FS)

  /** A step whose guard fails raises or answers nothing and leaves the state as it was. */
  function Next(w: World, st: Step): World {
    match st
    case StartSession(sid, repo, settings) => w.(d := SessionStart(w.d, sid, repo, settings))
    case EndSession(sid, now) => if Removable(w.d, sid) then w.(d := SessionEnd(w.d, sid, now)) else w
    case StopDaemon(now) => w.(d := Shutdown(w.d, now))
    case Begin(sid, writeArgs, now) =>
      if Beginnable(w.d, sid, writeArgs) then w.(d := MutationBegin(w.d, sid, writeArgs, now)) else w
    case End(sid, mid, success, now) =>
      if Endable(w.d, sid, mid) then w.(d := MutationEnd(w.d, sid, mid, success, Committed(w, sid, mid), now)) else w
    case Noticed(sid, now) =>
      if Known(w.d, sid) then w.(d := OnFsChange(w.d, w.d.store[w.d.sessions[sid]].repo, now)) else w
    case Reported(sid, policy, args, mid, now) =>
      if Reportable(w.d, sid, mid) then w.(d := Report(w.d, sid, policy, args, mid, now)) else w
    case Launch(sid, call, now) =>
      if Speculable(w.d, sid, call)
      then w.(d := SpeculateCall(w.d, sid, call, now, Repo(w, w.d.store[w.d.sessions[sid]].repo))) else w
    case FeedWrite(sid, write, mid, pred, substrate, now) =>
      if Feedable(w.d, sid, write, mid) && (pred.Some? ==> KindPolicy(pred.value.kind) == Free)
      then w.(d := Feed(w.d, sid, write, mid, pred, substrate, now, Repo(w, w.d.store[w.d.sessions[sid]].repo))) else w
    case Ask(sid, call, ask) =>
      if Known(w.d, sid) then Asked(w, w.d.sessions[sid], call, ask) else w
    case Deliver(ticket, completed) =>
      if ticket in w.joins && w.joins[ticket].uid in w.d.store then
        var j := w.joins[ticket];
        w.(d := Put(w.d, j.uid, FinishResolve(w.d, j, completed).s), joins := w.joins - {ticket})
      else w
    case Completes(uid, id, result, duration) =>
      if HasTask(w, uid, id) then w.(d := Put(w.d, uid, WorkerCompletes(w.d.store[uid], id, result, duration))) else w
    case Fails(uid, id) =>
      if HasTask(w, uid, id) then w.(d := Put(w.d, uid, WorkerFails(w.d.store[uid], id))) else w
    case Settles(uid, ok) => if uid in w.d.store then w.(d := Put(w.d, uid, Settle(w.d.store[uid], ok))) else w
    case Preempts(uid, id, now) =>
      if uid in w.d.store then w.(d := Put(w.d, uid, Preempt(w.d.store[uid], id, now))) else w
    case Changes(repo, next) =>
      w.(fs := w.fs[repo := next],
         d := w.d.(store := map uid | uid in w.d.store ::
           if w.d.store[uid].repo == repo then Observe(w.d.store[uid], next) else w.d.store[uid]))
  }

  predicate HasTask(w: World, uid: Uid, id: SpecId) {
    uid in w.d.store && id in w.d.store[uid].tasks && w.d.store[uid].tasks[id].running
  }

  /** `_write_is_committed` on the repository as it is when the bracket ends. */
  predicate Committed(w: World, sid: string, mid: MutationId)
    requires Endable(w.d, sid, mid)
  {
    var repo := w.d.store[w.d.sessions[sid]].repo;
    var m := Active(w.d, repo)[mid];
    m.writeArgs.Some? && Landed(m.writeArgs.value, Repo(w, repo))
  }

  function Asked(w: World, uid: Uid, call: Call, ask: real): World
    requires uid in w.d.store
  {
    var s := w.d.store[uid];
    var r := ResolveStart(s, call, Open(w.d, s.repo));
    var v := w.(d := Put(w.d, uid, r.s));
    if r.Joining? then v.(joins := v.joins[w.tickets := Join(uid, call, r.job, r.claim, ask)], tickets := w.tickets + 1)
    else v
  }

  /**
   * The world plays fair: repositories change only inside a bracket, a
   * declared write touches only its path while nothing overlaps it, and pool
   * threads return what the states they saw allow. With no `exec` to judge
   * outputs by, anything goes.
   */
  ghost predicate Fair(exec: Option<Exec>, w: World, st: Step) {
    exec.Some? ==>
      match st
      case Changes(repo, next) => Disciplined(Active(w.d, repo), Repo(w, repo), next)
      case Completes(uid, id, result, _) =>
        HasTask(w, uid, id) && id in w.d.store[uid].cache.objs ==>
          Legal(exec.value, w.d.store[uid].tasks[id], w.d.store[uid].cache.objs[id].call, result)
      case _ => true
  }

  /** The world after `steps`. */
  function After(w: World, steps: seq<Step>): World {
    if steps == [] then w else Next(After(w, steps[..|steps| - 1]), steps[|steps| - 1])
  }

  ghost predicate FairRun(exec: Option<Exec>, w: World, steps: seq<Step>) {
    steps == []
    || (FairRun(exec, w, steps[..|steps| - 1]) && Fair(exec, After(w, steps[..|steps| - 1]), steps[|steps| - 1]))
  }

  /* Invariant */

  /** Unconflicted means alone: overlap marks both sides for good. */
  ghost predicate BracketsOk(active: map<MutationId, Mutation>, mids: MutationId) {
    && (forall m :: m in active ==> m < mids)
    && (forall m :: m in active && !active[m].conflicted ==> active.Keys == {m})
    && (forall m :: m in active && active[m].writeArgs.Some? ==>
          ValidateWritePath(active[m].writeArgs.value.path).Some?)
  }

  ghost predicate SessionsOk(d: Daemon) {
    && (forall uid :: uid in d.store ==> SessionInvariants.Valid(d.store[uid]) && uid < d.uids)
    && (forall sid :: sid in d.sessions ==> d.sessions[sid] in d.store && d.store[d.sessions[sid]].sid == sid)
  }

  ghost predicate AllBracketsOk(d: Daemon) {
    forall repo: string :: BracketsOk(Active(d, repo), d.mids)
  }

  ghost predicate AllCoherent(exec: Option<Exec>, d: Daemon, fs: map<string, FS>) {
    forall uid :: uid in d.store && Current(d, uid) ==>
      Coherent(exec, d.store[uid], GetOr(fs, d.store[uid].repo, map[]), Active(d, d.store[uid].repo))
  }

  ghost predicate JoinsOk(d: Daemon, joins: map<nat, Join>) {
    forall t :: t in joins ==>
      joins[t].uid in d.store && JoinOk(d.store[joins[t].uid], joins[t].call, joins[t].job, joins[t].claim)
  }

  ghost predicate Invariant(exec: Option<Exec>, w: World) {
    && SessionsOk(w.d)
    && AllBracketsOk(w.d)
    && AllCoherent(exec, w.d, w.fs)
    && JoinsOk(w.d, w.joins)
  }

  /** No session object forgets what `Evolves` protects. */
  ghost predicate WorldEvolves(d: Daemon, e: Daemon) {
    forall uid :: uid in d.store ==> uid in e.store && Evolves(d.store[uid], e.store[uid])
  }

  lemma JoinsEvolve(d: Daemon, e: Daemon, joins: map<nat, Join>)
    requires JoinsOk(d, joins) && WorldEvolves(d, e)
    ensures JoinsOk(e, joins)
  {
    hide JoinOk, Evolves;
    forall t | t in joins
      ensures joins[t].uid in e.store && JoinOk(e.store[joins[t].uid], joins[t].call, joins[t].job, joins[t].claim)
    {
      var j := joins[t];
      JoinEvolves(d.store[j.uid], e.store[j.uid], j.call, j.job, j.claim);
    }
  }

  /* One session stepping on its own */

  lemma PutKeeps(exec: Option<Exec>, w: World, uid: Uid, t: Session)
    requires Invariant(exec, w) && uid in w.d.store
    requires SessionInvariants.Valid(t) && Evolves(w.d.store[uid], t)
    requires Current(w.d, uid) ==> Coherent(exec, t, Repo(w, t.repo), Active(w.d, t.repo))
    ensures Invariant(exec, w.(d := Put(w.d, uid, t)))
    ensures WorldEvolves(w.d, Put(w.d, uid, t))
  {
    hide AllCoherent, SessionsOk, AllBracketsOk, JoinsOk, Evolves, SessionInvariants.Valid, Coherent, WorldEvolves;
    var e := Put(w.d, uid, t);
    EvolvesNames(w.d.store[uid], t);
    PutEvolves(w.d, uid, t);
    JoinsEvolve(w.d, e, w.joins);
    PutSessionsOk(w.d, uid, t);
    SameBracketsOk(w.d, e);
    PutCoherent(exec, w.d, w.fs, uid, t);
  }

  lemma PutEvolves(d: Daemon, uid: Uid, t: Session)
    requires uid in d.store && Evolves(d.store[uid], t)
    ensures WorldEvolves(d, Put(d, uid, t))
  {
    hide Evolves;
    forall u | u in d.store
      ensures Evolves(d.store[u], Put(d, uid, t).store[u])
    {
      EvolvesReflexive(d.store[u]);
    }
  }

  lemma PutSessionsOk(d: Daemon, uid: Uid, t: Session)
    requires SessionsOk(d) && uid in d.store && SessionInvariants.Valid(t) && t.sid == d.store[uid].sid
    ensures SessionsOk(Put(d, uid, t))
  {
    hide SessionInvariants.Valid;
  }

  lemma SameBracketsOk(d: Daemon, e: Daemon)
    requires AllBracketsOk(d) && e.mutations == d.mutations && d.mids <= e.mids
    ensures AllBracketsOk(e)
  {
    forall r: string
      ensures BracketsOk(Active(e, r), e.mids)
    {
      assert BracketsOk(Active(d, r), d.mids);
    }
  }

  lemma PutCoherent(exec: Option<Exec>, d: Daemon, fs: map<string, FS>, uid: Uid, t: Session)
    requires AllCoherent(exec, d, fs) && uid in d.store && t.sid == d.store[uid].sid
    requires Current(d, uid) ==> Coherent(exec, t, GetOr(fs, t.repo, map[]), Active(d, t.repo))
    ensures AllCoherent(exec, Put(d, uid, t), fs)
  {
    hide Coherent;
    var e := Put(d, uid, t);
    forall u | u in e.store && Current(e, u)
      ensures Coherent(exec, e.store[u], GetOr(fs, e.store[u].repo, map[]), Active(e, e.store[u].repo))
    {
      assert Current(d, u);
    }
  }

  /* Invalidation */

  /** `e` is `d` before an invalidation of `repo`, its brackets there already updated. */
  ghost predicate Rebracketed(d: Daemon, e: Daemon, repo: string) {
    && e.store == d.store && e.sessions == d.sessions && e.uids == d.uids && d.mids <= e.mids
    && (forall r :: r != repo ==> Active(e, r) == Active(d, r))
    && BracketsOk(Active(e, repo), e.mids)
  }

  lemma RebracketedOk(d: Daemon, e: Daemon, repo: string)
    requires AllBracketsOk(d) && Rebracketed(d, e, repo)
    ensures AllBracketsOk(e)
  {
    forall r: string
      ensures BracketsOk(Active(e, r), e.mids)
    {
      assert BracketsOk(Active(d, r), d.mids);
    }
  }

  lemma InvalidateKeeps(exec: Option<Exec>, w: World, e: Daemon, repo: string, preserve: Option<Uid>, now: real)
    requires Invariant(exec, w) && Rebracketed(w.d, e, repo)
    requires preserve.Some? && Current(w.d, preserve.value) ==>
               Coherent(exec, w.d.store[preserve.value], Repo(w, w.d.store[preserve.value].repo),
                        Active(e, w.d.store[preserve.value].repo))
    ensures Invariant(exec, w.(d := InvalidateRepo(e, repo, preserve, now)))
    ensures WorldEvolves(w.d, InvalidateRepo(e, repo, preserve, now))
  {
    hide AllCoherent, SessionsOk, AllBracketsOk, JoinsOk, InvalidateRepo, WorldEvolves, Coherent;
    var x := InvalidateRepo(e, repo, preserve, now);
    RebracketedOk(w.d, e, repo);
    InvalidateSessionsOk(e, repo, preserve, now) by {
      SameSessionsOk(w.d, e);
    }
    JoinsEvolve(w.d, x, w.joins);
    SameBracketsOk(e, x) by {
      InvalidateFrame(e, repo, preserve, now);
    }
    InvalidateCoherent(exec, w, e, repo, preserve, now);
  }

  lemma SameSessionsOk(d: Daemon, e: Daemon)
    requires SessionsOk(d) && e.store == d.store && e.sessions == d.sessions && e.uids == d.uids
    ensures SessionsOk(e)
  {
    hide SessionInvariants.Valid;
  }

  lemma InvalidateFrame(d: Daemon, repo: string, preserve: Option<Uid>, now: real)
    ensures var x := InvalidateRepo(d, repo, preserve, now);
            x.mutations == d.mutations && x.mids == d.mids && x.sessions == d.sessions && x.uids == d.uids
  {
  }

  lemma InvalidateSessionsOk(d: Daemon, repo: string, preserve: Option<Uid>, now: real)
    requires SessionsOk(d)
    ensures SessionsOk(InvalidateRepo(d, repo, preserve, now))
    ensures forall e: Daemon :: e.store == d.store ==> WorldEvolves(e, InvalidateRepo(d, repo, preserve, now))
  {
    hide SessionInvariants.Valid, Evolves, Invalidate;
    var x := InvalidateRepo(d, repo, preserve, now);
    forall uid | uid in x.store
      ensures SessionInvariants.Valid(x.store[uid]) && Evolves(d.store[uid], x.store[uid])
      ensures x.store[uid].sid == d.store[uid].sid
    {
      InvalidatedOk(d.store[uid], now);
      EvolvesReflexive(d.store[uid]);
    }
  }

  lemma InvalidateCoherent(exec: Option<Exec>, w: World, e: Daemon, repo: string, preserve: Option<Uid>, now: real)
    requires SessionsOk(w.d) && AllCoherent(exec, w.d, w.fs) && Rebracketed(w.d, e, repo)
    requires preserve.Some? && Current(w.d, preserve.value) ==>
               Coherent(exec, w.d.store[preserve.value], Repo(w, w.d.store[preserve.value].repo),
                        Active(e, w.d.store[preserve.value].repo))
    ensures AllCoherent(exec, InvalidateRepo(e, repo, preserve, now), w.fs)
  {
    hide Coherent, SessionInvariants.Valid, Invalidate, BracketsOk;
    var x := InvalidateRepo(e, repo, preserve, now);
    forall uid | uid in x.store && Current(x, uid)
      ensures Coherent(exec, x.store[uid], Repo(w, x.store[uid].repo), Active(x, x.store[uid].repo))
    {
      InvalidatedOk(w.d.store[uid], now);
      assert Current(w.d, uid) && x.store[uid].repo == w.d.store[uid].repo;
      assert Active(x, x.store[uid].repo) == Active(e, x.store[uid].repo);
      if Affected(e, uid, repo, preserve) {
        InvalidatedCoherent(exec, w.d.store[uid], now, Repo(w, x.store[uid].repo), Active(x, x.store[uid].repo));
      }
    }
  }

  lemma InvalidatedOk(s: Session, now: real)
    requires SessionInvariants.Valid(s)
    ensures SessionInvariants.Valid(Invalidate(s, now)) && Evolves(s, Invalidate(s, now))
    ensures Invalidate(s, now).sid == s.sid && Invalidate(s, now).repo == s.repo
  {
    hide SessionInvariants.Valid, Evolves, Invalidate;
    InvalidateKeepsValid(s, now);
    InvalidateEvolves(s, now);
    EvolvesNames(s, Invalidate(s, now));
  }

  lemma EvolvesNames(s: Session, t: Session)
    requires Evolves(s, t)
    ensures t.sid == s.sid && t.repo == s.repo
  {
  }

  lemma InvalidatedCoherent(exec: Option<Exec>, s: Session, now: real, fs: FS, active: map<MutationId, Mutation>)
    requires SessionInvariants.Valid(s)
    ensures Coherent(exec, Invalidate(s, now), fs, active)
  {
    hide SessionInvariants.Valid, Invalidate;
    InvalidateKeepsValid(s, now);
    EmptyIsCoherent(exec, Invalidate(s, now), fs, active);
  }
}
