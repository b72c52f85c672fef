/** The daemon of src/sfx/daemon.py as values: sessions, mutation brackets, invalidation. */
module Daemons {
  import opened Common
  import opened Caches
  import opened WritePaths
  import opened Sessions

  type Uid = nat

  datatype Mutation = Mutation(sid: string, writeArgs: Option<Write>, conflicted: bool)

  /**
   * `store` holds every session object ever created, `sessions` the one each
   * session id currently names.
   */
  datatype Daemon = Daemon(
    store: map<Uid, Session>,
    sessions: map<string, Uid>,
    mutations: map<string, map<MutationId, Mutation>>,
    uids: Uid,
    mids: MutationId)

  const EMPTY := Daemon(map[], map[], map[], 0, 0)

  function Active(d: Daemon, repo: string): map<MutationId, Mutation> {
    GetOr(d.mutations, repo, map[])
  }

  predicate Open(d: Daemon, repo: string) {
    Active(d, repo) != map[]
  }

  /** `self.sessions.get(s.sid) is s`. */
  predicate Current(d: Daemon, uid: Uid) {
    uid in d.store && d.store[uid].sid in d.sessions && d.sessions[d.store[uid].sid] == uid
  }

  predicate Known(d: Daemon, sid: string) {
    sid in d.sessions && d.sessions[sid] in d.store
  }

  function Put(d: Daemon, uid: Uid, s: Session): Daemon {
    d.(store := d.store[uid := s])
  }

  /* Invalidation */

  predicate Affected(d: Daemon, uid: Uid, repo: string, preserve: Option<Uid>) {
    Current(d, uid) && d.store[uid].repo == repo && preserve != Some(uid)
  }

  function InvalidateRepo(d: Daemon, repo: string, preserve: Option<Uid>, now: real): Daemon {
    d.(store := map uid | uid in d.store ::
         if Affected(d, uid, repo, preserve) then Invalidate(d.store[uid], now) else d.store[uid])
  }

  function Conflict(active: map<MutationId, Mutation>): map<MutationId, Mutation> {
    map m | m in active :: active[m].(conflicted := true)
  }

  function OnFsChange(d: Daemon, repo: string, now: real): Daemon {
    InvalidateRepo(if repo in d.mutations then d.(mutations := d.mutations[repo := Conflict(d.mutations[repo])]) else d,
                   repo, None, now)
  }

  /* Brackets */

  predicate Beginnable(d: Daemon, sid: string, writeArgs: Option<Write>) {
    Known(d, sid) && (writeArgs.Some? ==> ValidateWritePath(writeArgs.value.path).Some?)
  }

  /** Opens the bracket `d.mids`; overlapping brackets are conflicted on both sides. */
  function MutationBegin(d: Daemon, sid: string, writeArgs: Option<Write>, now: real): Daemon
    requires Beginnable(d, sid, writeArgs)
  {
    var repo := d.store[d.sessions[sid]].repo;
    var active := Active(d, repo);
    var mutation := Mutation(sid, writeArgs, active != map[]);
    InvalidateRepo(d.(mutations := d.mutations[repo := Conflict(active)[d.mids := mutation]], mids := d.mids + 1),
                   repo, None, now)
  }

  /** The caller owns this bracket; otherwise `mutation_end` raises. */
  predicate Endable(d: Daemon, sid: string, mid: MutationId) {
    && Known(d, sid)
    && var active := Active(d, d.store[d.sessions[sid]].repo);
    mid in active && active[mid].sid == sid
  }

  /** Whether the chain survives the end of its bracket; `committed` is what the repository reads back. */
  predicate Preserves(d: Daemon, sid: string, mid: MutationId, success: bool, committed: bool)
    requires Endable(d, sid, mid)
  {
    var s := d.store[d.sessions[sid]];
    var active := Active(d, s.repo);
    && success && !active[mid].conflicted && |active| == 1
    && s.chain.Some? && s.chainMutation == Some(mid)
    && active[mid].writeArgs == Some(s.chain.value.write)
    && s.chain.value.future != Some(Failed)
    && committed
  }

  function MutationEnd(d: Daemon, sid: string, mid: MutationId, success: bool, committed: bool, now: real): Daemon
    requires Endable(d, sid, mid)
  {
    var uid := d.sessions[sid];
    var repo := d.store[uid].repo;
    var preserve := Preserves(d, sid, mid, success, committed);
    var active := Active(d, repo) - {mid};
    var e := InvalidateRepo(
      d.(mutations := if active == map[] then d.mutations - {repo} else d.mutations[repo := active]),
      repo, if preserve then Some(uid) else None, now);
    var s := e.store[uid];
    Put(e, uid, s.(completed := s.completed[mid := preserve], chainMutation := None))
  }

  /* Reports */

  predicate Reportable(d: Daemon, sid: string, mid: Option<MutationId>) {
    Known(d, sid) && (mid.Some? ==> mid.value in d.store[d.sessions[sid]].completed)
  }

  /** The state part of `call_executed`: what a report invalidates. */
  function Report(d: Daemon, sid: string, policy: Policy, args: Args, mid: Option<MutationId>, now: real): Daemon
    requires Reportable(d, sid, mid)
  {
    var uid := d.sessions[sid];
    var s := d.store[uid];
    if mid.Some? then
      Put(d, uid, s.(completed := s.completed - {mid.value}, streamedWrite := false))
    else if policy == Free then d
    else
      var matches := s.streamedWrite && s.chain.Some? && args == WriteArgs(s.chain.value.write);
      var e := if matches then d else OnFsChange(d, s.repo, now);
      Put(e, uid, e.store[uid].(streamedWrite := false))
  }

  /** The reads launched after a report or from a token prefix; never inside a bracket. */
  predicate Speculable(d: Daemon, sid: string, call: Call) {
    && Known(d, sid)
    && var s := d.store[d.sessions[sid]];
    !Open(d, s.repo) && !s.settings.specDisabled && KindPolicy(call.kind) == Free
  }

  function SpeculateCall(d: Daemon, sid: string, call: Call, now: real, fs: FS): Daemon
    requires Speculable(d, sid, call)
  {
    var uid := d.sessions[sid];
    Put(d, uid, Speculate(d.store[uid], call, now, fs))
  }

  /* Streamed writes */

  /** The guard of `call_stream_delta` once a whole write has been parsed. */
  predicate Feedable(d: Daemon, sid: string, w: Write, mid: Option<MutationId>) {
    && Known(d, sid)
    && var s := d.store[d.sessions[sid]];
    var active := Active(d, s.repo);
    && s.settings.streams && !s.settings.specDisabled
    && (active != map[] || mid.Some? ==>
          && mid.Some? && mid.value in active
          && active[mid.value].sid == sid && |active| == 1
          && !active[mid.value].conflicted && active[mid.value].writeArgs == Some(w))
  }

  function Feed(d: Daemon, sid: string, w: Write, mid: Option<MutationId>, pred: Option<Call>,
                substrate: bool, now: real, fs: FS): Daemon
    requires Feedable(d, sid, w, mid)
  {
    var uid := d.sessions[sid];
    var e := if mid == None then OnFsChange(d, d.store[uid].repo, now) else d;
    Put(e, uid, StartChain(e.store[uid], w, mid, pred, substrate, now, fs))
  }

  /* Resolving */

  /** A resolve between its two locked halves; it keeps its session object, not the id. */
  datatype Join = Join(uid: Uid, call: Call, job: Option<SpecId>, claim: Option<ChainClaim>, ask: real)

  function StartResolve(d: Daemon, sid: string, call: Call): Started
    requires Known(d, sid)
  {
    var s := d.store[d.sessions[sid]];
    ResolveStart(s, call, Open(d, s.repo))
  }

  function FinishResolve(d: Daemon, j: Join, completed: bool): Finished
    requires j.uid in d.store
  {
    var s := d.store[j.uid];
    if j.claim.Some? then
      FinishChainClaim(s, j.claim.value, completed, Current(d, j.uid), Open(d, s.repo), j.ask)
    else
      FinishPlain(s, j.job, Current(d, j.uid), Open(d, s.repo), j.ask)
  }

  /* Sessions */

  /** A new object takes over the id, whatever it named before. */
  function SessionStart(d: Daemon, sid: string, repo: string, settings: Settings): Daemon {
    d.(store := d.store[d.uids := NewSession(sid, repo, settings)], sessions := d.sessions[sid := d.uids],
       uids := d.uids + 1)
  }

  /** `session_end` raises while the session owns an open bracket. */
  predicate Removable(d: Daemon, sid: string) {
    && Known(d, sid)
    && var active := Active(d, d.store[d.sessions[sid]].repo);
    forall m :: m in active ==> active[m].sid != sid
  }

  function Retire(s: Session, now: real): Session {
    s.(cache := BumpEpoch(s.cache, now))
  }

  function SessionEnd(d: Daemon, sid: string, now: real): Daemon
    requires Removable(d, sid)
  {
    var uid := d.sessions[sid];
    Put(d, uid, Retire(d.store[uid], now)).(sessions := d.sessions - {sid})
  }

  function Shutdown(d: Daemon, now: real): Daemon {
    d.(store := map uid | uid in d.store :: if Current(d, uid) then Retire(d.store[uid], now) else d.store[uid],
       sessions := map[], mutations := map[])
  }
}
