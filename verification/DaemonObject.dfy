/**
 * The mutable daemon of src/sfx/daemon.py, proved against the functions of
 * `Daemons`. A session is a row of `store` under the identity of its object;
 * `SessionObjects` has what one of them does to its own fields.
 */
module DaemonObjects {
  import opened Common
  import opened Caches
  import opened WritePaths
  import opened Sessions
  import opened Daemons

  ghost predicate IdsResolve(d: Daemon) {
    && (forall sid :: sid in d.sessions ==> d.sessions[sid] in d.store && d.store[d.sessions[sid]].sid == sid)
    && (forall uid :: uid in d.store ==> uid < d.uids)
  }

  lemma IdsStay(d: Daemon, uid: Uid, t: Session)
    requires IdsResolve(d) && uid in d.store && t.sid == d.store[uid].sid
    ensures IdsResolve(Put(d, uid, t))
  {
  }

  lemma Resolved(d: Daemon, sid: string)
    requires IdsResolve(d) && sid in d.sessions
    ensures d.sessions[sid] in d.store
  {
  }

  lemma BracketsAside(d: Daemon, mutations: map<string, map<MutationId, Mutation>>)
    requires IdsResolve(d)
    ensures IdsResolve(d.(mutations := mutations))
  {
  }

  /** The store of `d` when every id but those in `todo` has been invalidated. */
  ghost predicate Swept(d: Daemon, store: map<Uid, Session>, todo: set<string>, repo: string,
                        preserve: Option<Uid>, now: real)
  {
    && store.Keys == d.store.Keys
    && forall uid :: uid in store ==>
         store[uid] == if Affected(d, uid, repo, preserve) && d.store[uid].sid !in todo
                       then Invalidate(d.store[uid], now) else d.store[uid]
  }

  lemma SweepStarts(d: Daemon, repo: string, preserve: Option<Uid>, now: real)
    ensures Swept(d, d.store, d.sessions.Keys, repo, preserve, now)
  {
  }

  lemma SweepNext(d: Daemon, store: map<Uid, Session>, todo: set<string>, repo: string,
                  preserve: Option<Uid>, now: real, sid: string)
    requires IdsResolve(d) && Swept(d, store, todo, repo, preserve, now) && sid in todo && sid in d.sessions
    ensures d.sessions[sid] in store
    ensures var uid := d.sessions[sid];
            Swept(d, if store[uid].repo == repo && preserve != Some(uid)
                     then store[uid := Invalidate(store[uid], now)] else store,
                  todo - {sid}, repo, preserve, now)
  {
    hide Invalidate;
  }

  lemma SweepEnds(d: Daemon, store: map<Uid, Session>, repo: string, preserve: Option<Uid>, now: real)
    requires IdsResolve(d) && Swept(d, store, {}, repo, preserve, now)
    ensures d.(store := store) == InvalidateRepo(d, repo, preserve, now)
    ensures IdsResolve(d.(store := store)) && store.Keys == d.store.Keys
  {
    hide Invalidate;
    forall uid | uid in store
      ensures store[uid].sid == d.store[uid].sid
    {
      InvalidateNames(d.store[uid], now);
    }
  }

  /** The store of `d` when every session but those in `todo` has been shut down. */
  ghost predicate Retired(d: Daemon, store: map<Uid, Session>, todo: set<string>, now: real) {
    && store.Keys == d.store.Keys
    && forall uid :: uid in store ==>
         store[uid] == if Current(d, uid) && d.store[uid].sid !in todo then Retire(d.store[uid], now) else d.store[uid]
  }

  lemma RetireStarts(d: Daemon, now: real)
    ensures Retired(d, d.store, d.sessions.Keys, now)
  {
  }

  lemma RetireNext(d: Daemon, store: map<Uid, Session>, todo: set<string>, now: real, sid: string)
    requires IdsResolve(d) && Retired(d, store, todo, now) && sid in todo && sid in d.sessions
    ensures d.sessions[sid] in store
    ensures Retired(d, store[d.sessions[sid] := Retire(store[d.sessions[sid]], now)], todo - {sid}, now)
  {
    hide Retire;
  }

  lemma RetireEnds(d: Daemon, store: map<Uid, Session>, now: real)
    requires IdsResolve(d) && Retired(d, store, {}, now)
    ensures d.(store := store, sessions := map[], mutations := map[]) == Shutdown(d, now)
    ensures IdsResolve(Shutdown(d, now))
  {
    hide Retire;
  }

  class DaemonObject {
    var store: map<Uid, Session>
    var sessions: map<string, Uid>
    var mutations: map<string, map<MutationId, Mutation>>
    var uids: Uid
    var mids: MutationId

    function View(): Daemon
      reads this
    {
      Daemon(store, sessions, mutations, uids, mids)
    }

    /** Every id names a session object that goes by that id. */
    ghost predicate Valid()
      reads this
    {
      IdsResolve(View())
    }

    constructor ()
      ensures Valid() && View() == Daemons.EMPTY
    {
      store, sessions, mutations, uids, mids := map[], map[], map[], 0, 0;
    }

    method SessionStart(sid: string, repo: string, settings: Settings) returns (uid: Uid)
      requires Valid()
      modifies this
      ensures Valid()
      ensures View() == Daemons.SessionStart(old(View()), sid, repo, settings) && uid == old(uids)
    {
      uid := uids;
      store := store[uid := NewSession(sid, repo, settings)];
      sessions := sessions[sid := uid];
      uids := uids + 1;
    }

    /** The loop of `_invalidate_repo` over the sessions that have an id. */
    method InvalidateRepo(repo: string, preserve: Option<Uid>, now: real)
      requires Valid()
      modifies this`store
      ensures Valid()
      ensures View() == Daemons.InvalidateRepo(old(View()), repo, preserve, now)
      ensures store.Keys == old(store.Keys)
    {
      hide Invalidate, Swept, IdsResolve;
      ghost var before := View();
      var todo := sessions.Keys;
      SweepStarts(before, repo, preserve, now);
      while todo != {}
        invariant todo <= sessions.Keys
        invariant Swept(before, store, todo, repo, preserve, now)
        decreases |todo|
      {
        var sid :| sid in todo;
        var uid := sessions[sid];
        SweepNext(before, store, todo, repo, preserve, now, sid);
        if store[uid].repo == repo && preserve != Some(uid) {
          store := store[uid := Invalidate(store[uid], now)];
        }
        todo := todo - {sid};
      }
      SweepEnds(before, store, repo, preserve, now);
    }

    /** Marks every open bracket of the repository; the loops of `on_fs_change` and `mutation_begin`. */
    method MarkConflicted(active: map<MutationId, Mutation>) returns (marked: map<MutationId, Mutation>)
      ensures marked == Conflict(active)
    {
      marked := active;
      var todo := active.Keys;
      while todo != {}
        invariant todo <= active.Keys && marked.Keys == active.Keys
        invariant forall m :: m in active ==>
                    marked[m] == if m in todo then active[m] else active[m].(conflicted := true)
        decreases |todo|
      {
        var m :| m in todo;
        marked := marked[m := marked[m].(conflicted := true)];
        todo := todo - {m};
      }
    }

    method OnFsChange(repo: string, now: real)
      requires Valid()
      modifies this
      ensures Valid()
      ensures View() == Daemons.OnFsChange(old(View()), repo, now)
      ensures store.Keys == old(store.Keys)
    {
      hide Daemons.InvalidateRepo, Conflict;
      if repo in mutations {
        var marked := MarkConflicted(mutations[repo]);
        mutations := mutations[repo := marked];
      }
      InvalidateRepo(repo, None, now);
    }

    /** None when `mutation_begin` raises. */
    method MutationBegin(sid: string, writeArgs: Option<Write>, now: real) returns (mid: Option<MutationId>)
      requires Valid()
      modifies this
      ensures Valid()
      ensures mid == if old(Beginnable(View(), sid, writeArgs)) then Some(old(mids)) else None
      ensures View() == if old(Beginnable(View(), sid, writeArgs))
                        then Daemons.MutationBegin(old(View()), sid, writeArgs, now) else old(View())
    {
      hide Daemons.InvalidateRepo, Conflict, ValidateWritePath;
      if sid !in sessions || (writeArgs.Some? && ValidateWritePath(writeArgs.value.path) == None) {
        return None;
      }
      var repo := store[sessions[sid]].repo;
      var active: map<MutationId, Mutation> := GetOr(mutations, repo, map[]);
      var marked := MarkConflicted(active);
      mid := Some(mids);
      mutations := mutations[repo := marked[mids := Mutation(sid, writeArgs, active != map[])]];
      mids := mids + 1;
      InvalidateRepo(repo, None, now);
    }

    /** The decision of `mutation_end`, before it changes anything. */
    method DecidePreserve(sid: string, mid: MutationId, success: bool, committed: bool) returns (preserve: bool)
      requires Valid() && Endable(View(), sid, mid)
      ensures preserve == Preserves(View(), sid, mid, success, committed)
    {
      var s := store[sessions[sid]];
      var active := mutations[s.repo];
      preserve := success && !active[mid].conflicted && |active| == 1
                  && s.chain.Some? && s.chainMutation == Some(mid)
                  && active[mid].writeArgs == Some(s.chain.value.write);
      if preserve && s.chain.value.future == Some(Failed) {
        preserve := false;
      }
      preserve := preserve && committed;
    }

    /** None when `mutation_end` raises, otherwise whether the chain was kept. */
    method MutationEnd(sid: string, mid: MutationId, success: bool, committed: bool, now: real)
        returns (kept: Option<bool>)
      requires Valid()
      modifies this
      ensures Valid()
      ensures kept == if old(Endable(View(), sid, mid))
                      then Some(old(Preserves(View(), sid, mid, success, committed))) else None
      ensures View() == if old(Endable(View(), sid, mid))
                        then Daemons.MutationEnd(old(View()), sid, mid, success, committed, now) else old(View())
    {
      hide Daemons.InvalidateRepo, Preserves, IdsResolve;
      if sid !in sessions {
        return None;
      }
      Resolved(View(), sid);
      var uid := sessions[sid];
      var repo := store[uid].repo;
      var active: map<MutationId, Mutation> := GetOr(mutations, repo, map[]);
      if mid !in active || active[mid].sid != sid {
        return None;
      }
      var preserve := DecidePreserve(sid, mid, success, committed);
      active := active - {mid};
      BracketsAside(View(), if active == map[] then mutations - {repo} else mutations[repo := active]);
      mutations := if active == map[] then mutations - {repo} else mutations[repo := active];
      InvalidateRepo(repo, if preserve then Some(uid) else None, now);
      IdsStay(View(), uid, store[uid].(completed := store[uid].completed[mid := preserve], chainMutation := None));
      store := store[uid := store[uid].(completed := store[uid].completed[mid := preserve], chainMutation := None)];
      kept := Some(preserve);
    }

    /** The state `call_executed` changes; false when it raises. */
    method CallExecuted(sid: string, policy: Policy, args: Args, mid: Option<MutationId>, now: real)
        returns (accepted: bool)
      requires Valid() && sid in sessions
      modifies this
      ensures Valid()
      ensures accepted == old(Reportable(View(), sid, mid))
      ensures View() == if accepted then Report(old(View()), sid, policy, args, mid, now) else old(View())
    {
      hide Daemons.OnFsChange;
      var uid := sessions[sid];
      var s := store[uid];
      if mid.Some? {
        if mid.value !in s.completed {
          return false;
        }
        store := store[uid := s.(completed := s.completed - {mid.value}, streamedWrite := false)];
      } else if policy != Free {
        var matches := s.streamedWrite && s.chain.Some? && args == WriteArgs(s.chain.value.write);
        if !matches {
          OnFsChange(s.repo, now);
        }
        store := store[uid := store[uid].(streamedWrite := false)];
      }
      accepted := true;
    }

    /** `call_stream_delta` once a whole write has been parsed; false when the guard refuses it. */
    method CallStreamDelta(sid: string, w: Write, mid: Option<MutationId>, pred: Option<Call>, substrate: bool,
                           now: real, fs: FS) returns (accepted: bool)
      requires Valid() && sid in sessions
      modifies this
      ensures Valid()
      ensures accepted == old(Feedable(View(), sid, w, mid))
      ensures View() == if accepted then Feed(old(View()), sid, w, mid, pred, substrate, now, fs) else old(View())
    {
      hide Daemons.OnFsChange, StartChain;
      var uid := sessions[sid];
      var s := store[uid];
      if !s.settings.streams || s.settings.specDisabled {
        return false;
      }
      var active: map<MutationId, Mutation> := GetOr(mutations, s.repo, map[]);
      if active != map[] || mid.Some? {
        if mid == None || mid.value !in active || active[mid.value].sid != sid || |active| != 1
           || active[mid.value].conflicted || active[mid.value].writeArgs != Some(w) {
          return false;
        }
      }
      if mid == None {
        OnFsChange(s.repo, now);
      }
      StartChainNames(store[uid], w, mid, pred, substrate, now, fs);
      store := store[uid := StartChain(store[uid], w, mid, pred, substrate, now, fs)];
      accepted := true;
    }

    /** False when `session_end` raises. */
    method SessionEnd(sid: string, now: real) returns (ended: bool)
      requires Valid() && sid in sessions
      modifies this
      ensures Valid()
      ensures ended == old(Removable(View(), sid))
      ensures View() == if ended then Daemons.SessionEnd(old(View()), sid, now) else old(View())
    {
      hide BumpEpoch;
      var uid := sessions[sid];
      var active := GetOr(mutations, store[uid].repo, map[]);
      if exists m :: m in active && active[m].sid == sid {
        assert !Removable(View(), sid) by {
          var m :| m in active && active[m].sid == sid;
          assert m in Active(View(), store[uid].repo);
        }
        return false;
      }
      store := store[uid := Retire(store[uid], now)];
      sessions := sessions - {sid};
      ended := true;
    }

    method Shutdown(now: real)
      requires Valid()
      modifies this
      ensures Valid()
      ensures View() == Daemons.Shutdown(old(View()), now)
    {
      hide Retire, IdsResolve, Retired;
      ghost var before := View();
      var todo := sessions.Keys;
      RetireStarts(before, now);
      while todo != {}
        invariant todo <= sessions.Keys
        invariant Retired(before, store, todo, now)
        invariant sessions == before.sessions && uids == before.uids && mids == before.mids
        decreases |todo|
      {
        var sid :| sid in todo;
        RetireNext(before, store, todo, now, sid);
        store := store[sessions[sid] := Retire(store[sessions[sid]], now)];
        todo := todo - {sid};
      }
      RetireEnds(before, store, now);
      sessions := map[];
      mutations := map[];
    }
  }

  lemma InvalidateNames(s: Session, now: real)
    ensures Invalidate(s, now).sid == s.sid && Invalidate(s, now).repo == s.repo
  {
  }

  lemma StartChainNames(s: Session, w: Write, fed: Option<MutationId>, pred: Option<Call>, substrate: bool,
                        now: real, fs: FS)
    ensures StartChain(s, w, fed, pred, substrate, now, fs).sid == s.sid
  {
    hide DiscardIds, Reserve;
  }
}
