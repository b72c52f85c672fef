/** Every step of `Runs.Next` keeps the invariant, and so does every fair run. */
module RunSteps {
  import opened Common
  import opened Caches
  import opened WritePaths
  import opened Sessions
  import opened SessionInvariants
  import opened Daemons
  import opened Coherence
  import opened Evolution
  import opened Runs

  /* Facts read off the invariant */

  lemma SessionOf(exec: Option<Exec>, w: World, uid: Uid)
    requires Invariant(exec, w) && uid in w.d.store
    ensures SessionInvariants.Valid(w.d.store[uid]) && uid < w.d.uids
    ensures var s := w.d.store[uid];
            Current(w.d, uid) ==> Coherent(exec, s, Repo(w, s.repo), Active(w.d, s.repo))
  {
    hide SessionInvariants.Valid, Coherent;
  }

  lemma BracketsOf(exec: Option<Exec>, w: World, repo: string)
    requires Invariant(exec, w)
    ensures BracketsOk(Active(w.d, repo), w.d.mids)
  {
  }

  lemma KnownIsCurrent(exec: Option<Exec>, w: World, sid: string)
    requires Invariant(exec, w) && Known(w.d, sid)
    ensures w.d.store[w.d.sessions[sid]].sid == sid && Current(w.d, w.d.sessions[sid])
  {
    hide SessionInvariants.Valid, Coherent;
  }

  /** A session may change its bookkeeping without touching cache, tasks or chain. */
  lemma RelabelKeeps(exec: Option<Exec>, w: World, uid: Uid, completed: map<MutationId, bool>,
                     under: Option<MutationId>, streamed: bool)
    requires Invariant(exec, w) && uid in w.d.store
    ensures var t := w.d.store[uid].(completed := completed, chainMutation := under, streamedWrite := streamed);
            Invariant(exec, w.(d := Put(w.d, uid, t))) && WorldEvolves(w.d, Put(w.d, uid, t))
  {
    hide Invariant, WorldEvolves;
    var s := w.d.store[uid];
    var t := s.(completed := completed, chainMutation := under, streamedWrite := streamed);
    SessionOf(exec, w, uid);
    RelabelOk(exec, s, t, Repo(w, s.repo), Active(w.d, s.repo));
    PutKeeps(exec, w, uid, t);
  }

  lemma RelabelOk(exec: Option<Exec>, s: Session, t: Session, fs: FS, active: map<MutationId, Mutation>)
    requires t == s.(completed := t.completed, chainMutation := t.chainMutation, streamedWrite := t.streamedWrite)
    requires SessionInvariants.Valid(s)
    ensures SessionInvariants.Valid(t) && Evolves(s, t)
    ensures Coherent(exec, s, fs, active) ==> Coherent(exec, t, fs, active)
  {
    hide SessionInvariants.Valid, Evolves, Coherent;
    RelabelValid(s, t);
    if Coherent(exec, s, fs, active) {
      RelabelCoherent(exec, s, t, fs, active);
    }
  }

  lemma RelabelValid(s: Session, t: Session)
    requires t == s.(completed := t.completed, chainMutation := t.chainMutation, streamedWrite := t.streamedWrite)
    requires SessionInvariants.Valid(s)
    ensures SessionInvariants.Valid(t) && Evolves(s, t)
  {
    hide Caches.Valid, Resident;
  }

  lemma RelabelCoherent(exec: Option<Exec>, s: Session, t: Session, fs: FS, active: map<MutationId, Mutation>)
    requires t == s.(completed := t.completed, chainMutation := t.chainMutation, streamedWrite := t.streamedWrite)
    requires Coherent(exec, s, fs, active)
    ensures Coherent(exec, t, fs, active)
  {
    hide Resident, Landed, Applied;
    forall id | id in t.tasks && Resident(t.cache, id)
      ensures JobOk(exec, t, id, fs, active)
    {
      assert JobOk(exec, s, id, fs, active);
    }
  }

  /* Sessions come and go */

  lemma StartSessionKeeps(exec: Option<Exec>, w: World, sid: string, repo: string, settings: Settings)
    requires Invariant(exec, w)
    ensures var e := SessionStart(w.d, sid, repo, settings);
            Invariant(exec, w.(d := e)) && WorldEvolves(w.d, e)
  {
    hide SessionsOk, AllBracketsOk, AllCoherent, JoinsOk, Evolves;
    var e := SessionStart(w.d, sid, repo, settings);
    StartSessionOk(exec, w, sid, repo, settings);
    forall uid | uid in w.d.store
      ensures Evolves(w.d.store[uid], e.store[uid])
    {
      EvolvesReflexive(w.d.store[uid]);
    }
    JoinsEvolve(w.d, e, w.joins);
    SameBracketsOk(w.d, e);
  }

  lemma StartSessionOk(exec: Option<Exec>, w: World, sid: string, repo: string, settings: Settings)
    requires SessionsOk(w.d) && AllCoherent(exec, w.d, w.fs)
    ensures w.d.uids !in w.d.store
    ensures var e := SessionStart(w.d, sid, repo, settings);
            SessionsOk(e) && AllCoherent(exec, e, w.fs)
  {
    hide SessionInvariants.Valid, Coherent;
    var e := SessionStart(w.d, sid, repo, settings);
    NewSessionOk(exec, sid, repo, settings, Repo(w, repo), Active(w.d, repo));
    forall uid | uid in e.store && Current(e, uid) && uid != w.d.uids
      ensures Coherent(exec, e.store[uid], Repo(w, e.store[uid].repo), Active(e, e.store[uid].repo))
    {
      assert Current(w.d, uid);
    }
  }

  lemma NewSessionOk(exec: Option<Exec>, sid: string, repo: string, settings: Settings, fs: FS,
                     active: map<MutationId, Mutation>)
    ensures SessionInvariants.Valid(NewSession(sid, repo, settings))
    ensures Coherent(exec, NewSession(sid, repo, settings), fs, active)
  {
  }

  lemma RetireOk(s: Session, now: real)
    requires SessionInvariants.Valid(s)
    ensures SessionInvariants.Valid(Retire(s, now)) && Evolves(s, Retire(s, now)) && Retire(s, now).sid == s.sid
  {
    hide SessionInvariants.Valid, Evolves;
    BumpSessionKeepsValid(s, now);
    RetireEvolves(s, now);
  }

  lemma EndSessionKeeps(exec: Option<Exec>, w: World, sid: string, now: real)
    requires Invariant(exec, w) && Removable(w.d, sid)
    ensures var e := SessionEnd(w.d, sid, now);
            Invariant(exec, w.(d := e)) && WorldEvolves(w.d, e)
  {
    hide SessionInvariants.Valid, Coherent, Evolves, BracketsOk, JoinsOk, Retire;
    var e, uid := SessionEnd(w.d, sid, now), w.d.sessions[sid];
    var s := w.d.store[uid];
    RetireOk(s, now);
    PutEvolves(w.d, uid, Retire(s, now));
    JoinsEvolve(w.d, e, w.joins);
    PutSessionsOk(w.d, uid, Retire(s, now));
    SameBracketsOk(w.d, e);
    forall u | u in e.store && Current(e, u)
      ensures Coherent(exec, e.store[u], Repo(w, e.store[u].repo), Active(e, e.store[u].repo))
    {
      assert u != uid && Current(w.d, u);
    }
  }

  lemma ShutdownKeeps(exec: Option<Exec>, w: World, now: real)
    requires Invariant(exec, w)
    ensures var e := Shutdown(w.d, now);
            Invariant(exec, w.(d := e)) && WorldEvolves(w.d, e)
  {
    hide SessionInvariants.Valid, Coherent, Evolves, JoinsOk, Retire;
    var e := Shutdown(w.d, now);
    forall uid | uid in w.d.store
      ensures Evolves(w.d.store[uid], e.store[uid]) && SessionInvariants.Valid(e.store[uid])
    {
      RetireOk(w.d.store[uid], now);
      EvolvesReflexive(w.d.store[uid]);
    }
    JoinsEvolve(w.d, e, w.joins);
    assert forall r: string :: Active(e, r) == map[];
  }

  /* Brackets */

  lemma ConflictOk(active: map<MutationId, Mutation>, mids: MutationId)
    requires BracketsOk(active, mids)
    ensures BracketsOk(Conflict(active), mids)
  {
  }

  lemma BeginOk(active: map<MutationId, Mutation>, mids: MutationId, sid: string, writeArgs: Option<Write>)
    requires BracketsOk(active, mids)
    requires writeArgs.Some? ==> ValidateWritePath(writeArgs.value.path).Some?
    ensures BracketsOk(Conflict(active)[mids := Mutation(sid, writeArgs, active != map[])], mids + 1)
  {
    var next := Conflict(active)[mids := Mutation(sid, writeArgs, active != map[])];
    if active == map[] {
      assert next.Keys == {mids};
    }
  }

  lemma EndOk(active: map<MutationId, Mutation>, mids: MutationId, mid: MutationId)
    requires BracketsOk(active, mids) && mid in active
    ensures BracketsOk(active - {mid}, mids)
    ensures !active[mid].conflicted ==> active.Keys == {mid} && active - {mid} == map[]
  {
  }

  lemma OnFsChangeKeeps(exec: Option<Exec>, w: World, repo: string, now: real)
    requires Invariant(exec, w)
    ensures Invariant(exec, w.(d := OnFsChange(w.d, repo, now)))
    ensures WorldEvolves(w.d, OnFsChange(w.d, repo, now))
  {
    hide Invariant, WorldEvolves, BracketsOk, InvalidateRepo;
    var e := if repo in w.d.mutations
             then w.d.(mutations := w.d.mutations[repo := Conflict(w.d.mutations[repo])]) else w.d;
    BracketsOf(exec, w, repo);
    ConflictOk(Active(w.d, repo), w.d.mids);
    InvalidateKeeps(exec, w, e, repo, None, now);
  }

  lemma BeginKeeps(exec: Option<Exec>, w: World, sid: string, writeArgs: Option<Write>, now: real)
    requires Invariant(exec, w) && Beginnable(w.d, sid, writeArgs)
    ensures var e := MutationBegin(w.d, sid, writeArgs, now);
            Invariant(exec, w.(d := e)) && WorldEvolves(w.d, e)
  {
    hide Invariant, WorldEvolves, BracketsOk, InvalidateRepo, Conflict, Rebracketed, ValidateWritePath;
    var repo := w.d.store[w.d.sessions[sid]].repo;
    var active := Active(w.d, repo);
    var next := Conflict(active)[w.d.mids := Mutation(sid, writeArgs, active != map[])];
    BracketsOf(exec, w, repo);
    BeginOk(active, w.d.mids, sid, writeArgs);
    RebracketWith(w.d, repo, next, w.d.mids + 1);
    InvalidateKeeps(exec, w, w.d.(mutations := w.d.mutations[repo := next], mids := w.d.mids + 1), repo, None, now);
  }

  lemma RebracketWith(d: Daemon, repo: string, next: map<MutationId, Mutation>, mids: MutationId)
    requires BracketsOk(next, mids) && d.mids <= mids
    ensures Rebracketed(d, d.(mutations := d.mutations[repo := next], mids := mids), repo)
  {
    hide BracketsOk;
  }

  lemma EndKeeps(exec: Option<Exec>, w: World, sid: string, mid: MutationId, success: bool, now: real)
    requires Invariant(exec, w) && Endable(w.d, sid, mid)
    ensures var e := MutationEnd(w.d, sid, mid, success, Committed(w, sid, mid), now);
            Invariant(exec, w.(d := e)) && WorldEvolves(w.d, e)
  {
    hide Invariant, WorldEvolves, BracketsOk, InvalidateRepo, Coherent, SessionInvariants.Valid;
    var uid := w.d.sessions[sid];
    var s := w.d.store[uid];
    var active := Active(w.d, s.repo);
    var rest := active - {mid};
    var preserve := Preserves(w.d, sid, mid, success, Committed(w, sid, mid));
    var e := w.d.(mutations := if rest == map[] then w.d.mutations - {s.repo} else w.d.mutations[s.repo := rest]);
    var kept := if preserve then Some(uid) else None;
    BracketsOf(exec, w, s.repo);
    EndOk(active, w.d.mids, mid);
    assert Active(e, s.repo) == rest;
    if preserve {
      SessionOf(exec, w, uid);
      KnownIsCurrent(exec, w, sid);
      PreservedCoherent(exec, s, s, mid, Repo(w, s.repo), active);
    }
    InvalidateKeeps(exec, w, e, s.repo, kept, now);
    var x := InvalidateRepo(e, s.repo, kept, now);
    InvalidateHolds(e, s.repo, kept, now, uid);
    var v := w.(d := x);
    RelabelKeeps(exec, v, uid, x.store[uid].completed[mid := preserve], None, x.store[uid].streamedWrite);
    WorldEvolvesTransitive(w.d, x, MutationEnd(w.d, sid, mid, success, Committed(w, sid, mid), now));
  }

  lemma InvalidateHolds(d: Daemon, repo: string, preserve: Option<Uid>, now: real, uid: Uid)
    requires uid in d.store
    ensures uid in InvalidateRepo(d, repo, preserve, now).store
    ensures InvalidateRepo(d, repo, preserve, now).store[uid].repo == d.store[uid].repo
    ensures InvalidateRepo(d, repo, preserve, now).store[uid].sid == d.store[uid].sid
  {
  }

  lemma WorldEvolvesTransitive(d: Daemon, e: Daemon, f: Daemon)
    requires WorldEvolves(d, e) && WorldEvolves(e, f)
    ensures WorldEvolves(d, f)
  {
    hide Evolves;
    forall uid | uid in d.store
      ensures uid in f.store && Evolves(d.store[uid], f.store[uid])
    {
      EvolvesTransitive(d.store[uid], e.store[uid], f.store[uid]);
    }
  }

  lemma ReportKeeps(exec: Option<Exec>, w: World, sid: string, policy: Policy, args: Args, mid: Option<MutationId>, now: real)
    requires Invariant(exec, w) && Reportable(w.d, sid, mid)
    ensures var e := Report(w.d, sid, policy, args, mid, now);
            Invariant(exec, w.(d := e)) && WorldEvolves(w.d, e)
  {
    hide Invariant, WorldEvolves, OnFsChange, Evolves;
    var uid := w.d.sessions[sid];
    var s := w.d.store[uid];
    WorldReflexive(w.d);
    if mid.Some? {
      RelabelKeeps(exec, w, uid, s.completed - {mid.value}, s.chainMutation, false);
      assert s.(completed := s.completed - {mid.value}, streamedWrite := false)
          == s.(completed := s.completed - {mid.value}, chainMutation := s.chainMutation, streamedWrite := false);
    } else if policy != Free {
      var matches := s.streamedWrite && s.chain.Some? && args == WriteArgs(s.chain.value.write);
      var e := if matches then w.d else OnFsChange(w.d, s.repo, now);
      OnFsChangeKeeps(exec, w, s.repo, now);
      OnFsChangeHolds(w.d, s.repo, now, uid);
      var t := e.store[uid];
      RelabelKeeps(exec, w.(d := e), uid, t.completed, t.chainMutation, false);
      assert t.(streamedWrite := false)
          == t.(completed := t.completed, chainMutation := t.chainMutation, streamedWrite := false);
      WorldEvolvesTransitive(w.d, e, Report(w.d, sid, policy, args, mid, now));
    }
  }

  lemma OnFsChangeHolds(d: Daemon, repo: string, now: real, uid: Uid)
    requires uid in d.store
    ensures uid in OnFsChange(d, repo, now).store
    ensures Current(d, uid) && d.store[uid].repo == repo ==> OnFsChange(d, repo, now).store[uid].chain == None
    ensures OnFsChange(d, repo, now).store[uid].repo == d.store[uid].repo
    ensures OnFsChange(d, repo, now).store[uid].sid == d.store[uid].sid
    ensures OnFsChange(d, repo, now).sessions == d.sessions
    ensures Active(d, repo) == map[] ==> Active(OnFsChange(d, repo, now), repo) == map[]
  {
    hide DiscardIds, BumpEpoch;
  }

  lemma WorldReflexive(d: Daemon)
    ensures WorldEvolves(d, d)
  {
    hide Evolves;
    forall uid | uid in d.store
      ensures Evolves(d.store[uid], d.store[uid])
    {
      EvolvesReflexive(d.store[uid]);
    }
  }

  /* Launches */

  lemma LaunchKeeps(exec: Option<Exec>, w: World, sid: string, call: Call, now: real)
    requires Invariant(exec, w) && Speculable(w.d, sid, call)
    ensures var e := SpeculateCall(w.d, sid, call, now, Repo(w, w.d.store[w.d.sessions[sid]].repo));
            Invariant(exec, w.(d := e)) && WorldEvolves(w.d, e)
  {
    hide Invariant, WorldEvolves, Coherent, SessionInvariants.Valid, Evolves, Speculate;
    var uid := w.d.sessions[sid];
    var s := w.d.store[uid];
    var fs := Repo(w, s.repo);
    SessionOf(exec, w, uid);
    KnownIsCurrent(exec, w, sid);
    SpeculateKeepsValid(s, call, now, fs);
    SpeculateEvolves(s, call, now, fs);
    SpeculateCoherent(exec, s, call, now, fs);
    EvolvesNames(s, Speculate(s, call, now, fs));
    PutKeeps(exec, w, uid, Speculate(s, call, now, fs));
  }

  lemma FeedKeeps(exec: Option<Exec>, w: World, sid: string, write: Write, mid: Option<MutationId>,
                  pred: Option<Call>, substrate: bool, now: real)
    requires Invariant(exec, w) && Feedable(w.d, sid, write, mid)
    ensures var e := Feed(w.d, sid, write, mid, pred, substrate, now, Repo(w, w.d.store[w.d.sessions[sid]].repo));
            Invariant(exec, w.(d := e)) && WorldEvolves(w.d, e)
  {
    hide Invariant, WorldEvolves, Coherent, SessionInvariants.Valid, Evolves, StartChain, OnFsChange, BracketsOk;
    var uid := w.d.sessions[sid];
    var repo := w.d.store[uid].repo;
    KnownIsCurrent(exec, w, sid);
    WorldReflexive(w.d);
    OnFsChangeKeeps(exec, w, repo, now);
    OnFsChangeHolds(w.d, repo, now, uid);
    var v := if mid == None then w.(d := OnFsChange(w.d, repo, now)) else w;
    BracketsOf(exec, w, repo);
    if mid.Some? {
      FeedFenced(Active(w.d, repo), w.d.mids, mid.value, sid, write);
    }
    StartChainKeeps(exec, v, uid, write, mid, pred, substrate, now);
    WorldEvolvesTransitive(w.d, v.d,
      Feed(w.d, sid, write, mid, pred, substrate, now, Repo(w, repo)));
  }

  lemma FeedFenced(active: map<MutationId, Mutation>, mids: MutationId, mid: MutationId, sid: string, write: Write)
    requires BracketsOk(active, mids) && mid in active
    requires active[mid].sid == sid && !active[mid].conflicted && active[mid].writeArgs == Some(write)
    ensures Fenced(active, mid, sid, write)
  {
  }

  lemma StartChainKeeps(exec: Option<Exec>, w: World, uid: Uid, write: Write, fed: Option<MutationId>,
                        pred: Option<Call>, substrate: bool, now: real)
    requires Invariant(exec, w) && uid in w.d.store && Current(w.d, uid)
    requires fed.Some? ==> Fenced(Active(w.d, w.d.store[uid].repo), fed.value, w.d.store[uid].sid, write)
    requires fed == None ==> w.d.store[uid].chain == None && Active(w.d, w.d.store[uid].repo) == map[]
    ensures var t := StartChain(w.d.store[uid], write, fed, pred, substrate, now, Repo(w, w.d.store[uid].repo));
            Invariant(exec, w.(d := Put(w.d, uid, t))) && WorldEvolves(w.d, Put(w.d, uid, t))
  {
    hide Invariant, WorldEvolves, Coherent, SessionInvariants.Valid, Evolves, StartChain;
    var s := w.d.store[uid];
    var fs := Repo(w, s.repo);
    SessionOf(exec, w, uid);
    StartChainKeepsValid(s, write, fed, pred, substrate, now, fs);
    StartChainEvolves(s, write, fed, pred, substrate, now, fs);
    StartChainCoherent(exec, s, write, fed, pred, substrate, now, fs, Active(w.d, s.repo));
    var t := StartChain(s, write, fed, pred, substrate, now, fs);
    EvolvesNames(s, t);
    PutKeeps(exec, w, uid, t);
  }

  /* Resolving */

  lemma AskKeeps(exec: Option<Exec>, w: World, uid: Uid, call: Call, ask: real)
    requires Invariant(exec, w) && uid in w.d.store && Current(w.d, uid)
    ensures Invariant(exec, Asked(w, uid, call, ask)) && WorldEvolves(w.d, Asked(w, uid, call, ask).d)
  {
    hide Invariant, WorldEvolves, Coherent, SessionInvariants.Valid, Evolves, ResolveStart, JoinOk, Thinned;
    var s := w.d.store[uid];
    var r := ResolveStart(s, call, Open(w.d, s.repo));
    SessionOf(exec, w, uid);
    ResolveStartKeepsValid(s, call, Open(w.d, s.repo));
    ResolveStartCoherent(exec, s, call, Repo(w, s.repo), Active(w.d, s.repo));
    ResolveStartNames(s, call, Open(w.d, s.repo));
    ThinnedEvolves(s, r.s);
    PutKeeps(exec, w, uid, r.s);
    if r.Joining? {
      JoinKeeps(exec, w.(d := Put(w.d, uid, r.s)), w.tickets, Join(uid, call, r.job, r.claim, ask));
    }
  }

  lemma ResolveStartNames(s: Session, call: Call, open: bool)
    ensures ResolveStart(s, call, open).s.sid == s.sid && ResolveStart(s, call, open).s.repo == s.repo
  {
  }

  lemma JoinKeeps(exec: Option<Exec>, w: World, ticket: nat, j: Join)
    requires Invariant(exec, w) && j.uid in w.d.store && JoinOk(w.d.store[j.uid], j.call, j.job, j.claim)
    ensures Invariant(exec, w.(joins := w.joins[ticket := j], tickets := ticket + 1))
  {
    hide SessionsOk, AllBracketsOk, AllCoherent, JoinOk;
  }

  lemma DeliverKeeps(exec: Option<Exec>, w: World, ticket: nat, completed: bool)
    requires Invariant(exec, w) && ticket in w.joins && w.joins[ticket].uid in w.d.store
    ensures var j := w.joins[ticket];
            var e := Put(w.d, j.uid, FinishResolve(w.d, j, completed).s);
            Invariant(exec, w.(d := e, joins := w.joins - {ticket})) && WorldEvolves(w.d, e)
  {
    hide Invariant, WorldEvolves, Coherent, SessionInvariants.Valid, Evolves, FinishResolve, Thinned, Invariant;
    var j := w.joins[ticket];
    var s := w.d.store[j.uid];
    var t := FinishResolve(w.d, j, completed).s;
    SessionOf(exec, w, j.uid);
    JoinOf(exec, w, ticket);
    FinishOk(exec, w.d, j, completed, Repo(w, s.repo));
    PutKeeps(exec, w, j.uid, t);
    LeaveKeeps(exec, w.(d := Put(w.d, j.uid, t)), ticket);
  }

  lemma JoinOf(exec: Option<Exec>, w: World, ticket: nat)
    requires Invariant(exec, w) && ticket in w.joins
    ensures var j := w.joins[ticket];
            j.uid in w.d.store && JoinOk(w.d.store[j.uid], j.call, j.job, j.claim)
  {
    hide JoinOk;
  }

  lemma LeaveKeeps(exec: Option<Exec>, w: World, ticket: nat)
    requires Invariant(exec, w)
    ensures Invariant(exec, w.(joins := w.joins - {ticket}))
  {
    hide SessionsOk, AllBracketsOk, AllCoherent, JoinOk;
  }

  lemma FinishOk(exec: Option<Exec>, d: Daemon, j: Join, completed: bool, fs: FS)
    requires j.uid in d.store && SessionInvariants.Valid(d.store[j.uid])
    requires JoinOk(d.store[j.uid], j.call, j.job, j.claim)
    ensures var s, t := d.store[j.uid], FinishResolve(d, j, completed).s;
            && SessionInvariants.Valid(t) && Evolves(s, t)
            && t.repo == s.repo && t.sid == s.sid
            && (Coherent(exec, s, fs, Active(d, s.repo)) ==> Coherent(exec, t, fs, Active(d, s.repo)))
  {
    hide Coherent, SessionInvariants.Valid, Evolves, Thinned, FinishPlain, FinishChainClaim, Resident;
    var s, t := d.store[j.uid], FinishResolve(d, j, completed).s;
    var open, current := Open(d, s.repo), Current(d, j.uid);
    if j.claim.Some? {
      FinishChainKeepsValid(s, j.claim.value, completed, current, open, j.ask);
    } else {
      FinishPlainKeepsValid(s, j.job, current, open, j.ask);
    }
    FinishNames(s, j, completed, current, open);
    ThinnedEvolves(s, t);
    if Coherent(exec, s, fs, Active(d, s.repo)) {
      FinishCoherent(exec, s, j, completed, current, fs, Active(d, s.repo));
    }
  }

  lemma FinishNames(s: Session, j: Join, completed: bool, current: bool, open: bool)
    ensures var t := FinishPlain(s, j.job, current, open, j.ask).s;
            t.sid == s.sid && t.repo == s.repo && t.tasks == s.tasks
    ensures j.claim.Some? ==>
              var t := FinishChainClaim(s, j.claim.value, completed, current, open, j.ask).s;
              t.sid == s.sid && t.repo == s.repo && t.tasks == s.tasks
  {
  }

  /* Workers */

  lemma CompletesKeeps(exec: Option<Exec>, w: World, uid: Uid, id: SpecId, result: Output, duration: real)
    requires Invariant(exec, w) && HasTask(w, uid, id)
    requires Fair(exec, w, Completes(uid, id, result, duration))
    ensures var e := Put(w.d, uid, WorkerCompletes(w.d.store[uid], id, result, duration));
            Invariant(exec, w.(d := e)) && WorldEvolves(w.d, e)
  {
    hide Invariant, WorldEvolves, Coherent, SessionInvariants.Valid, Evolves, WorkerCompletes, Legal;
    var s := w.d.store[uid];
    SessionOf(exec, w, uid);
    TaskKeys(s);
    WorkerCompletesKeepsValid(s, id, result, duration);
    WorkerCompletesEvolves(s, id, result, duration);
    EvolvesNames(s, WorkerCompletes(s, id, result, duration));
    if Current(w.d, uid) {
      WorkerCompletesCoherent(exec, s, id, result, duration, Repo(w, s.repo), Active(w.d, s.repo));
    }
    PutKeeps(exec, w, uid, WorkerCompletes(s, id, result, duration));
  }

  lemma FailsKeeps(exec: Option<Exec>, w: World, uid: Uid, id: SpecId)
    requires Invariant(exec, w) && HasTask(w, uid, id)
    ensures var e := Put(w.d, uid, WorkerFails(w.d.store[uid], id));
            Invariant(exec, w.(d := e)) && WorldEvolves(w.d, e)
  {
    hide Invariant, WorldEvolves, Coherent, SessionInvariants.Valid, Evolves, Thinned, DiscardSpec;
    var s := w.d.store[uid];
    var t := WorkerFails(s, id);
    SessionOf(exec, w, uid);
    TaskKeys(s);
    WorkerFailsKeepsValid(s, id);
    DiscardEndsNothing(s.cache, id);
    ThinnedEvolves(s, t);
    if Current(w.d, uid) {
      QuietThinned(exec, s, t, Repo(w, s.repo), Active(w.d, s.repo));
    }
    PutKeeps(exec, w, uid, t);
  }

  lemma DiscardEndsNothing(c: Cache, id: SpecId)
    ensures DiscardSpec(c, id).ledger == c.ledger
  {
  }

  /** Thinning that neither ends nor unchains anything is harmless inside a bracket too. */
  lemma QuietThinned(exec: Option<Exec>, s: Session, t: Session, fs: FS, active: map<MutationId, Mutation>)
    requires Coherent(exec, s, fs, active) && Thinned(s.cache, t.cache)
    requires SessionInvariants.Valid(s)
    requires t.tasks.Keys == s.tasks.Keys && t.sid == s.sid && t.chain == s.chain && t.chainSpecIds == s.chainSpecIds
    requires forall id :: id in s.tasks ==> t.tasks[id].lane == s.tasks[id].lane && t.tasks[id].seen == s.tasks[id].seen
    requires forall id :: id in s.tasks && s.tasks[id].lane.InFork? && id in t.cache.ledger.terminated ==>
               id in s.cache.ledger.terminated
    ensures Coherent(exec, t, fs, active)
  {
    hide SessionInvariants.Valid, Coherent, Thinned, Resident;
    TaskKeys(s);
    forall id | id in s.tasks && Resident(t.cache, id) && active != map[]
      ensures t.chain.Some? && t.chainSpecIds == s.chainSpecIds && id !in t.cache.ledger.terminated
    {
      ThinnedResident(s.cache, t.cache, id);
      ResidentInBracket(exec, s, id, fs, active);
    }
    ThinnedCoherent(exec, s, t, fs, active);
  }

  lemma SettlesKeeps(exec: Option<Exec>, w: World, uid: Uid, ok: bool)
    requires Invariant(exec, w) && uid in w.d.store
    ensures var e := Put(w.d, uid, Settle(w.d.store[uid], ok));
            Invariant(exec, w.(d := e)) && WorldEvolves(w.d, e)
  {
    hide Invariant, WorldEvolves, SessionInvariants.Valid, Evolves, Coherent;
    var s := w.d.store[uid];
    SessionOf(exec, w, uid);
    SettleOk(exec, s, ok, Repo(w, s.repo), Active(w.d, s.repo));
    SettleKeepsValid(s, ok);
    PutKeeps(exec, w, uid, Settle(s, ok));
  }

  lemma SettleOk(exec: Option<Exec>, s: Session, ok: bool, fs: FS, active: map<MutationId, Mutation>)
    ensures Evolves(s, Settle(s, ok))
    ensures Coherent(exec, s, fs, active) ==> Coherent(exec, Settle(s, ok), fs, active)
  {
    hide Resident, Landed, Applied;
    if Coherent(exec, s, fs, active) {
      var t := Settle(s, ok);
      forall id | id in t.tasks && Resident(t.cache, id)
        ensures JobOk(exec, t, id, fs, active)
      {
        assert JobOk(exec, s, id, fs, active);
      }
    }
  }

  lemma PreemptsKeeps(exec: Option<Exec>, w: World, uid: Uid, id: SpecId, now: real)
    requires Invariant(exec, w) && uid in w.d.store
    ensures var e := Put(w.d, uid, Preempt(w.d.store[uid], id, now));
            Invariant(exec, w.(d := e)) && WorldEvolves(w.d, e)
  {
    hide Invariant, WorldEvolves, Coherent, SessionInvariants.Valid, Evolves, Thinned;
    var s := w.d.store[uid];
    var t := Preempt(s, id, now);
    SessionOf(exec, w, uid);
    PreemptKeepsValid(s, id, now);
    ThinnedEvolves(s, t);
    if Current(w.d, uid) {
      QuietThinned(exec, s, t, Repo(w, s.repo), Active(w.d, s.repo));
    }
    PutKeeps(exec, w, uid, t);
  }

  /* The repository */

  lemma ChangesKeeps(exec: Option<Exec>, w: World, repo: string, next: FS)
    requires Invariant(exec, w) && (exec.Some? ==> Disciplined(Active(w.d, repo), Repo(w, repo), next))
    ensures Invariant(exec, Next(w, Changes(repo, next))) && WorldEvolves(w.d, Next(w, Changes(repo, next)).d)
  {
    hide AllBracketsOk, AllCoherent, JoinsOk, SessionInvariants.Valid, Evolves, Disciplined, Observe;
    var v := Next(w, Changes(repo, next));
    forall uid | uid in v.d.store
      ensures SessionInvariants.Valid(v.d.store[uid]) && Evolves(w.d.store[uid], v.d.store[uid])
      ensures v.d.store[uid].sid == w.d.store[uid].sid && v.d.store[uid].repo == w.d.store[uid].repo
    {
      ObserveOk(w.d.store[uid], next);
      EvolvesReflexive(w.d.store[uid]);
    }
    JoinsEvolve(w.d, v.d, w.joins);
    SameBracketsOk(w.d, v.d);
    ChangesCoherent(exec, w, repo, next);
  }

  lemma ChangesCoherent(exec: Option<Exec>, w: World, repo: string, next: FS)
    requires SessionsOk(w.d) && AllCoherent(exec, w.d, w.fs)
    requires exec.Some? ==> Disciplined(Active(w.d, repo), Repo(w, repo), next)
    ensures AllCoherent(exec, Next(w, Changes(repo, next)).d, Next(w, Changes(repo, next)).fs)
  {
    hide Coherent, SessionInvariants.Valid, Disciplined, Observe;
    var v := Next(w, Changes(repo, next));
    forall uid | uid in v.d.store && Current(v.d, uid)
      ensures Coherent(exec, v.d.store[uid], Repo(v, v.d.store[uid].repo), Active(v.d, v.d.store[uid].repo))
    {
      ObserveOk(w.d.store[uid], next);
      assert Current(w.d, uid);
      if w.d.store[uid].repo == repo {
        ObserveCoherent(exec, w.d.store[uid], Repo(w, repo), next, Active(w.d, repo));
      }
    }
  }

  lemma ObserveOk(s: Session, fs: FS)
    requires SessionInvariants.Valid(s)
    ensures SessionInvariants.Valid(Observe(s, fs)) && Evolves(s, Observe(s, fs))
    ensures Observe(s, fs).sid == s.sid && Observe(s, fs).repo == s.repo
  {
    ObserveKeepsValid(s, fs);
  }

  /* Every step, every run */

  lemma StepKeeps(exec: Option<Exec>, w: World, st: Step)
    requires Invariant(exec, w) && Fair(exec, w, st)
    ensures Invariant(exec, Next(w, st)) && WorldEvolves(w.d, Next(w, st).d)
  {
    hide Invariant, WorldEvolves, SessionStart, SessionEnd, Shutdown, MutationBegin, MutationEnd, OnFsChange,
      Report, SpeculateCall, Feed, Asked, FinishResolve, WorkerCompletes, WorkerFails, Settle, Preempt, Observe,
      Put, Speculable, Feedable, Reportable, Removable, Beginnable, Endable;
    WorldReflexive(w.d);
    match st
    case StartSession(sid, repo, settings) => StartSessionKeeps(exec, w, sid, repo, settings);
    case EndSession(sid, now) => if Removable(w.d, sid) { EndSessionKeeps(exec, w, sid, now); }
    case StopDaemon(now) => ShutdownKeeps(exec, w, now);
    case Begin(sid, writeArgs, now) =>
      if Beginnable(w.d, sid, writeArgs) { BeginKeeps(exec, w, sid, writeArgs, now); }
    case End(sid, mid, success, now) => if Endable(w.d, sid, mid) { EndKeeps(exec, w, sid, mid, success, now); }
    case Noticed(sid, now) =>
      if Known(w.d, sid) { OnFsChangeKeeps(exec, w, w.d.store[w.d.sessions[sid]].repo, now); }
    case Reported(sid, policy, args, mid, now) =>
      if Reportable(w.d, sid, mid) { ReportKeeps(exec, w, sid, policy, args, mid, now); }
    case Launch(sid, call, now) => if Speculable(w.d, sid, call) { LaunchKeeps(exec, w, sid, call, now); }
    case FeedWrite(sid, write, mid, pred, substrate, now) =>
      if Feedable(w.d, sid, write, mid) { FeedKeeps(exec, w, sid, write, mid, pred, substrate, now); }
    case Ask(sid, call, ask) =>
      if Known(w.d, sid) {
        KnownIsCurrent(exec, w, sid);
        AskKeeps(exec, w, w.d.sessions[sid], call, ask);
      }
    case Deliver(ticket, completed) =>
      if ticket in w.joins && w.joins[ticket].uid in w.d.store { DeliverKeeps(exec, w, ticket, completed); }
    case Completes(uid, id, result, duration) =>
      if HasTask(w, uid, id) { CompletesKeeps(exec, w, uid, id, result, duration); }
    case Fails(uid, id) => if HasTask(w, uid, id) { FailsKeeps(exec, w, uid, id); }
    case Settles(uid, ok) => if uid in w.d.store { SettlesKeeps(exec, w, uid, ok); }
    case Preempts(uid, id, now) => if uid in w.d.store { PreemptsKeeps(exec, w, uid, id, now); }
    case Changes(repo, next) => ChangesKeeps(exec, w, repo, next);
  }

  lemma StartOk(exec: Option<Exec>, fs: map<string, FS>)
    ensures Invariant(exec, Start(fs))
  {
  }

  lemma {:induction false} RunKeeps(exec: Option<Exec>, w: World, steps: seq<Step>)
    requires Invariant(exec, w) && FairRun(exec, w, steps)
    ensures Invariant(exec, After(w, steps)) && WorldEvolves(w.d, After(w, steps).d)
    decreases |steps|
  {
    hide Invariant, WorldEvolves, Next, Fair;
    WorldReflexive(w.d);
    if steps != [] {
      var before := steps[..|steps| - 1];
      RunKeeps(exec, w, before);
      StepKeeps(exec, After(w, before), steps[|steps| - 1]);
      WorldEvolvesTransitive(w.d, After(w, before).d, After(w, steps).d);
    }
  }
}
