/**
 * Who owns what across the unlocked wait (src/sfx/daemon.py:615-680): the
 * identity of a claim decides ownership, no claim is orphaned, no waiter is
 * left behind and every launched speculation is accounted for. All of it holds
 * in every run, whatever workers answer and however repositories change.
 */
module Ownership {
  import opened Common
  import opened Caches
  import opened Sessions
  import opened SessionInvariants
  import opened Daemons
  import opened Evolution
  import opened Runs
  import opened RunSteps
  import opened StepFrames
  import opened Lossless
  import opened Fences
  import L = Ledgers

  /* Claims */

  /** `j` carries a claim some time in the past of session `s`. */
  predicate Past(s: Session, claim: ChainClaim) {
    && claim.chain < s.chains
    && (s.chain.Some? && s.chain.value.id == claim.chain ==> claim.hop + 2 <= s.cursor)
  }

  predicate Carries(w: World, t: nat, uid: Uid) {
    t in w.joins && w.joins[t].uid == uid && w.joins[t].claim.Some?
  }

  ghost predicate Claims(w: World) {
    && (forall t :: t in w.joins ==> t < w.tickets && w.joins[t].uid in w.d.store)
    && (forall t :: t in w.joins && w.joins[t].claim.Some? ==> Past(w.d.store[w.joins[t].uid], w.joins[t].claim.value))
    && (forall t, u, uid :: Carries(w, t, uid) && Carries(w, u, uid) && t != u ==> w.joins[t].claim != w.joins[u].claim)
    && (forall uid :: uid in w.d.store && w.d.store[uid].claim.Some? ==>
          exists t :: Carries(w, t, uid) && w.joins[t].claim == w.d.store[uid].claim)
  }

  lemma PastMoves(s: Session, t: Session, claim: ChainClaim, fed: set<Option<MutationId>>, hit: bool)
    requires Moves(s, t, fed, hit) && Past(s, claim)
    ensures Past(t, claim)
  {
  }

  /** A step that leaves the joins alone. */
  lemma ClaimsMove(w: World, v: World, st: Step)
    requires Claims(w) && Framed(w.d, v.d, st) && v.joins == w.joins && v.tickets == w.tickets
    requires forall uid :: uid in w.d.store ==> KeepsClaim(w.d.store[uid], v.d.store[uid])
    ensures Claims(v)
  {
    hide Moves, Past;
    PastsMove(w, v, st);
    forall uid | uid in v.d.store && v.d.store[uid].claim.Some?
      ensures exists t :: Carries(v, t, uid) && v.joins[t].claim == v.d.store[uid].claim
    {
      var t :| Carries(w, t, uid) && w.joins[t].claim == w.d.store[uid].claim;
      assert Carries(v, t, uid);
    }
    forall t, u, uid | Carries(v, t, uid) && Carries(v, u, uid) && t != u
      ensures v.joins[t].claim != v.joins[u].claim
    {
      assert Carries(w, t, uid) && Carries(w, u, uid);
    }
  }

  lemma PastsMove(w: World, v: World, st: Step)
    requires Claims(w) && Framed(w.d, v.d, st)
    ensures forall t :: t in w.joins ==> w.joins[t].uid in v.d.store
    ensures forall t :: t in w.joins && w.joins[t].claim.Some? ==> Past(v.d.store[w.joins[t].uid], w.joins[t].claim.value)
  {
    hide Past, Moves;
    forall t | t in w.joins && w.joins[t].claim.Some?
      ensures Past(v.d.store[w.joins[t].uid], w.joins[t].claim.value)
    {
      var uid := w.joins[t].uid;
      PastMoves(w.d.store[uid], v.d.store[uid], w.joins[t].claim.value, FedBy(st), st.Deliver?);
    }
  }

  /** What a delivery takes away: `t` is the session the second half leaves. */
  ghost predicate Drops(w: World, v: World, ticket: nat, t: Session) {
    && ticket in w.joins && w.joins[ticket].uid in w.d.store
    && v.d == Put(w.d, w.joins[ticket].uid, t) && v.joins == w.joins - {ticket} && v.tickets == w.tickets
  }

  lemma DeliverDrops(w: World, ticket: nat, completed: bool)
    requires ticket in w.joins && w.joins[ticket].uid in w.d.store
    ensures Drops(w, Next(w, Deliver(ticket, completed)), ticket, FinishResolve(w.d, w.joins[ticket], completed).s)
  {
    hide FinishResolve;
  }

  lemma HeldAfterDelivery(w: World, v: World, ticket: nat, t: Session)
    requires Claims(w) && Drops(w, v, ticket, t) && KeepsClaim(w.d.store[w.joins[ticket].uid], t)
    requires w.joins[ticket].claim.Some? ==> t.claim != w.joins[ticket].claim
    ensures forall uid :: uid in v.d.store && v.d.store[uid].claim.Some? ==>
              exists t :: Carries(v, t, uid) && v.joins[t].claim == v.d.store[uid].claim
  {
    hide Past;
    forall uid | uid in v.d.store && v.d.store[uid].claim.Some?
      ensures exists t :: Carries(v, t, uid) && v.joins[t].claim == v.d.store[uid].claim
    {
      var t :| Carries(w, t, uid) && w.joins[t].claim == w.d.store[uid].claim;
      assert t != ticket;
      assert Carries(v, t, uid);
    }
  }

  lemma DistinctAfterDelivery(w: World, v: World, ticket: nat, t: Session)
    requires Claims(w) && Drops(w, v, ticket, t)
    ensures forall t, u, uid :: Carries(v, t, uid) && Carries(v, u, uid) && t != u ==> v.joins[t].claim != v.joins[u].claim
  {
    hide Past;
    forall t, u, uid | Carries(v, t, uid) && Carries(v, u, uid) && t != u
      ensures v.joins[t].claim != v.joins[u].claim
    {
      assert Carries(w, t, uid) && Carries(w, u, uid);
    }
  }

  lemma DeliverClaims(w: World, ticket: nat, completed: bool)
    requires Claims(w) && ticket in w.joins && w.joins[ticket].uid in w.d.store
    ensures Claims(Next(w, Deliver(ticket, completed)))
  {
    hide FinishResolve, Past, Moves, KeepsClaim, Framed, Next;
    var st := Deliver(ticket, completed);
    var v := Next(w, st);
    var j := w.joins[ticket];
    DeliverDrops(w, ticket, completed);
    DeliverFramed(w.d, j, completed, st);
    FinishMoves(w.d, j, completed);
    PastsMove(w, v, st);
    HeldAfterDelivery(w, v, ticket, FinishResolve(w.d, j, completed).s);
    DistinctAfterDelivery(w, v, ticket, FinishResolve(w.d, j, completed).s);
  }

  /** What an ask adds: `r` is the first half's answer for the session under `uid`. */
  ghost predicate Joins(w: World, v: World, uid: Uid, r: Started) {
    && uid in w.d.store && v.d == Put(w.d, uid, r.s)
    && (r.Answered? ==> v.joins == w.joins && v.tickets == w.tickets)
    && (r.Joining? ==>
          && v.tickets == w.tickets + 1
          && w.tickets in v.joins && v.joins == w.joins[w.tickets := v.joins[w.tickets]]
          && v.joins[w.tickets].uid == uid && v.joins[w.tickets].claim == r.claim)
  }

  lemma AskJoins(w: World, sid: string, call: Call, ask: real)
    requires Known(w.d, sid)
    ensures var uid := w.d.sessions[sid];
            Joins(w, Next(w, Ask(sid, call, ask)), uid,
                  ResolveStart(w.d.store[uid], call, Open(w.d, w.d.store[uid].repo)))
  {
    hide ResolveStart;
  }

  /** A claim the first half has just taken: newer than any other of its chain. */
  predicate Taken(s: Session, r: Started) {
    && r.Joining? && s.claim == None && s.chain.Some? && r.claim.Some? && r.s.claim == r.claim && r.s.chain == s.chain
    && r.claim.value.chain == s.chain.value.id && r.s.chains == s.chains && s.chain.value.id < s.chains
    && s.cursor == r.claim.value.hop + 1 && r.s.cursor == r.claim.value.hop + 2
  }

  lemma HeldAfterAsk(w: World, v: World, uid: Uid, r: Started)
    requires Claims(w) && Joins(w, v, uid, r)
    requires Taken(w.d.store[uid], r) || KeepsClaim(w.d.store[uid], r.s)
    ensures forall u :: u in v.d.store && v.d.store[u].claim.Some? ==>
              exists t :: Carries(v, t, u) && v.joins[t].claim == v.d.store[u].claim
  {
    hide Past;
    forall u | u in v.d.store && v.d.store[u].claim.Some?
      ensures exists t :: Carries(v, t, u) && v.joins[t].claim == v.d.store[u].claim
    {
      if u == uid && r.s.claim != w.d.store[uid].claim {
        assert Carries(v, w.tickets, u);
      } else {
        var t :| Carries(w, t, u) && w.joins[t].claim == w.d.store[u].claim;
        assert Carries(v, t, u);
      }
    }
  }

  lemma DistinctAfterAsk(w: World, v: World, uid: Uid, r: Started)
    requires Claims(w) && Joins(w, v, uid, r)
    requires Taken(w.d.store[uid], r) || (r.Joining? ==> r.claim == None)
    ensures forall t, u, owner :: Carries(v, t, owner) && Carries(v, u, owner) && t != u ==>
              v.joins[t].claim != v.joins[u].claim
  {
    forall t, u, owner | Carries(v, t, owner) && Carries(v, u, owner) && t != u
      ensures v.joins[t].claim != v.joins[u].claim
    {
      assert t in w.joins ==> Carries(w, t, owner);
      assert u in w.joins ==> Carries(w, u, owner);
    }
  }

  /** A claim just taken is on the hop before the cursor. */
  lemma TakenIsPast(s: Session, r: Started)
    requires Taken(s, r)
    ensures Past(r.s, r.claim.value)
  {
  }

  lemma AskClaims(w: World, sid: string, call: Call, ask: real)
    requires Claims(w) && Known(w.d, sid) && SessionInvariants.Valid(w.d.store[w.d.sessions[sid]])
    ensures Claims(Next(w, Ask(sid, call, ask)))
  {
    hide ResolveStart, Moves, SessionInvariants.Valid, Next, Framed, Past;
    var st := Ask(sid, call, ask);
    var v := Next(w, st);
    var uid := w.d.sessions[sid];
    var s := w.d.store[uid];
    var r := ResolveStart(s, call, Open(w.d, s.repo));
    AskFramed(w, st);
    AskJoins(w, sid, call, ask);
    ResolveStartMoves(s, call, Open(w.d, s.repo));
    ChainNumbered(s);
    if Taken(s, r) {
      TakenIsPast(s, r);
    }
    PastsMove(w, v, st);
    HeldAfterAsk(w, v, uid, r);
    DistinctAfterAsk(w, v, uid, r);
  }

  lemma ChainNumbered(s: Session)
    requires SessionInvariants.Valid(s)
    ensures s.chain.Some? ==> s.chain.value.id < s.chains
  {
  }

  lemma NextClaims(w: World, st: Step)
    requires Claims(w) && Invariant(None, w)
    ensures Claims(Next(w, st))
  {
    hide Claims, Invariant, Framed, Moves;
    InvariantFreshIds(None, w);
    if st.Ask? && Known(w.d, st.sid) {
      SessionOf(None, w, w.d.sessions[st.sid]);
      AskClaims(w, st.sid, st.call, st.ask);
    } else if st.Deliver? && st.ticket in w.joins && w.joins[st.ticket].uid in w.d.store {
      DeliverClaims(w, st.ticket, st.completed);
    } else {
      NextFramed(w, st);
      JoinsStay(w, st);
      if st.Ask? {
        assert Next(w, st) == w;
      } else {
        FramedKeepsClaims(w.d, Next(w, st).d, st);
        ClaimsMove(w, Next(w, st), st);
      }
    }
  }

  lemma FramedKeepsClaims(d: Daemon, e: Daemon, st: Step)
    requires Framed(d, e, st) && !st.Ask?
    ensures forall uid :: uid in d.store ==> uid in e.store && KeepsClaim(d.store[uid], e.store[uid])
  {
    hide Moves, KeepsClaim;
  }

  lemma JoinsStay(w: World, st: Step)
    requires !(st.Ask? && Known(w.d, st.sid))
    requires !(st.Deliver? && st.ticket in w.joins && w.joins[st.ticket].uid in w.d.store)
    ensures Next(w, st).joins == w.joins && Next(w, st).tickets == w.tickets
  {
    hide SessionStart, SessionEnd, Shutdown, MutationBegin, MutationEnd, OnFsChange, Report, SpeculateCall,
      Feed, WorkerCompletes, WorkerFails, Settle, Preempt, Observe, Committed;
  }

  lemma {:induction false} RunClaims(fs: map<string, FS>, steps: seq<Step>)
    ensures Claims(After(Start(fs), steps)) && Invariant(None, After(Start(fs), steps))
    decreases |steps|
  {
    hide Claims, Invariant, Next, Fair, WorldEvolves;
    AnyRunKeeps(fs, steps);
    if steps == [] {
      NoClaims(fs);
    } else {
      var before := steps[..|steps| - 1];
      RunClaims(fs, before);
      NextClaims(After(Start(fs), before), steps[|steps| - 1]);
    }
  }

  lemma NoClaims(fs: map<string, FS>)
    ensures Claims(Start(fs))
  {
  }

  /**
   * At most one waiter of a session owns its chain, and a session that has a
   * claim set always has the one waiter that will clear it: the claim's
   * identity decides ownership, and no chain is stuck behind a lost claim.
   */
  lemma OneOwner(fs: map<string, FS>, steps: seq<Step>, uid: Uid)
    requires uid in After(Start(fs), steps).d.store
    ensures var w := After(Start(fs), steps);
            forall t, u | Carries(w, t, uid) && Carries(w, u, uid)
                          && Owned(w.d.store[uid], w.joins[t].claim.value)
                          && Owned(w.d.store[uid], w.joins[u].claim.value) :: t == u
    ensures var w := After(Start(fs), steps);
            var s := w.d.store[uid];
            s.claim.Some? <==> exists t :: Carries(w, t, uid) && Owned(s, w.joins[t].claim.value)
    ensures ChainShape(After(Start(fs), steps).d.store[uid])
  {
    hide Invariant, Past, After;
    RunClaims(fs, steps);
    var w := After(Start(fs), steps);
    var s := w.d.store[uid];
    SessionOf(None, w, uid);
    ShapeOf(s);
    if s.claim.Some? {
      var t :| Carries(w, t, uid) && w.joins[t].claim == s.claim;
      assert Owned(s, w.joins[t].claim.value);
    }
  }

  lemma ShapeOf(s: Session)
    requires SessionInvariants.Valid(s)
    ensures ChainShape(s)
    ensures s.claim.Some? ==> s.chain.Some? && s.claim.value.chain == s.chain.value.id
  {
  }

  /* Waiters */

  /** Whoever waits for a job waits for one that is still in the table or has been signalled. */
  lemma NoLostWaiter(fs: map<string, FS>, steps: seq<Step>, ticket: nat)
    requires ticket in After(Start(fs), steps).joins
    ensures var w := After(Start(fs), steps);
            var j := w.joins[ticket];
            && j.uid in w.d.store
            && (j.job.Some? ==>
                  var c := w.d.store[j.uid].cache;
                  && j.job.value in c.objs && c.objs[j.job.value].call == j.call
                  && (Resident(c, j.job.value) || c.objs[j.job.value].done))
  {
    hide Invariant, After, SessionInvariants.Valid;
    AnyRunKeeps(fs, steps);
    var w := After(Start(fs), steps);
    JoinOf(None, w, ticket);
    SessionOf(None, w, w.joins[ticket].uid);
    SignalledOf(w.d.store[w.joins[ticket].uid]);
  }

  lemma SignalledOf(s: Session)
    requires SessionInvariants.Valid(s)
    ensures Signalled(s.cache)
  {
  }

  /* No resurrection */

  /** A job that has left the table at some point of a run can never be served after it. */
  lemma NoResurrection(fs: map<string, FS>, steps: seq<Step>, i: nat, uid: Uid, id: SpecId, ask: real)
    requires i <= |steps|
    requires var v := After(Start(fs), steps[..i]);
             uid in v.d.store && id in v.d.store[uid].cache.objs && !Resident(v.d.store[uid].cache, id)
    ensures var w := After(Start(fs), steps);
            && uid in w.d.store && !Resident(w.d.store[uid].cache, id)
            && FinishOutcome(w.d.store[uid].cache, Some(id), ask) == Miss
  {
    hide Invariant, After, Evolves, WorldEvolves, Resident;
    var v := After(Start(fs), steps[..i]);
    AnyRunKeeps(fs, steps[..i]);
    AnyRunEvolves(v, steps[i..]);
    CutAt(Start(fs), steps, i);
    EvolvesHolds(v.d, After(Start(fs), steps).d, uid);
    StaysGone(v.d.store[uid], After(Start(fs), steps).d.store[uid], id);
  }

  lemma StaysGone(s: Session, t: Session, id: SpecId)
    requires Evolves(s, t) && id in s.cache.objs && !Resident(s.cache, id)
    ensures !Resident(t.cache, id)
  {
  }

  /* Conservation */

  /**
   * Every launched speculation has exactly one launch record; it has exactly
   * one end record, or is still in the table, or was dropped by its failing
   * worker. `terminal` never raised, and the totals are the records' sums.
   */
  lemma Conservation(fs: map<string, FS>, steps: seq<Step>, uid: Uid, id: SpecId)
    requires uid in After(Start(fs), steps).d.store
    ensures var s := After(Start(fs), steps).d.store[uid];
            var l := s.cache.ledger;
            && !l.raised
            && l.saved == L.SumSaved(l.records) && l.wasted == L.SumWasted(l.records)
            && L.Launches(l.records, id) == (if id < s.cache.n then 1 else 0)
            && L.Ends(l.records, id) == (if id in l.terminated then 1 else 0)
            && (id in l.terminated ==> id < s.cache.n)
            && (id < s.cache.n ==> id in l.terminated || Resident(s.cache, id) || id in s.dropped)
            && (id in s.dropped ==> id < s.cache.n && !Resident(s.cache, id))
  {
    hide Invariant, After, SessionInvariants.Valid, Caches.Valid;
    AnyRunKeeps(fs, steps);
    var s := After(Start(fs), steps).d.store[uid];
    SessionOf(None, After(Start(fs), steps), uid);
    ValidParts(s);
    ConservedHere(s.cache, s.dropped, id);
    if id in s.dropped {
      DroppedBelow(s, id);
    }
  }

  /** Launched, and neither ended nor lost: still in the table. */
  ghost function Held(s: Session): set<SpecId> {
    set id | id in s.cache.objs && Resident(s.cache, id) && id !in s.cache.ledger.terminated
  }

  /** Taken out of the table by a failing worker before anything ended it. */
  ghost function Lost(s: Session): set<SpecId> {
    s.dropped - s.cache.ledger.terminated
  }

  /**
   * The same as an account that balances: the launched speculations are the
   * disjoint union of the ended, the held and the lost.
   */
  lemma Partition(fs: map<string, FS>, steps: seq<Step>, uid: Uid)
    requires uid in After(Start(fs), steps).d.store
    ensures var s := After(Start(fs), steps).d.store[uid];
            var ended := s.cache.ledger.terminated;
            && (forall id: SpecId :: id in ended + Held(s) + Lost(s) <==> id < s.cache.n)
            && ended !! Held(s) && ended !! Lost(s) && Held(s) !! Lost(s)
            && |ended| + |Held(s)| + |Lost(s)| == s.cache.n
  {
    hide After, Resident;
    var s := After(Start(fs), steps).d.store[uid];
    forall id: SpecId
      ensures id in s.cache.ledger.terminated + Held(s) + Lost(s) <==> id < s.cache.n
      ensures id in s.dropped ==> !Resident(s.cache, id)
    {
      Conservation(fs, steps, uid, id);
      JobsBelow(fs, steps, uid, id);
    }
    CountBelow(s.cache.ledger.terminated + Held(s) + Lost(s), s.cache.n);
  }

  lemma JobsBelow(fs: map<string, FS>, steps: seq<Step>, uid: Uid, id: SpecId)
    requires uid in After(Start(fs), steps).d.store
    ensures var c := After(Start(fs), steps).d.store[uid].cache; id in c.objs <==> id < c.n
  {
    hide Invariant, After, SessionInvariants.Valid;
    AnyRunKeeps(fs, steps);
    var s := After(Start(fs), steps).d.store[uid];
    SessionOf(None, After(Start(fs), steps), uid);
    ValidParts(s);
    ValidTable(s.cache, s.dropped);
  }

  lemma {:induction false} CountBelow(ids: set<SpecId>, n: nat)
    requires forall id: SpecId :: id in ids <==> id < n
    ensures |ids| == n
    decreases n
  {
    if n == 0 {
      assert ids == {};
    } else {
      CountBelow(ids - {n - 1}, n - 1);
    }
  }

  lemma DroppedBelow(s: Session, id: SpecId)
    requires SessionInvariants.Valid(s) && id in s.dropped
    ensures id < s.cache.n
  {
  }

  lemma ConservedHere(c: Cache, dropped: set<SpecId>, id: SpecId)
    requires Caches.Valid(c, dropped)
    ensures L.Valid(c.ledger, c.n)
    ensures L.Launches(c.ledger.records, id) == if id < c.n then 1 else 0
    ensures L.Ends(c.ledger.records, id) == if id in c.ledger.terminated then 1 else 0
    ensures id in c.ledger.terminated ==> id < c.n
    ensures id < c.n ==> id in c.ledger.terminated || Resident(c, id) || id in dropped
  {
    L.HistoryCounts(c.ledger.records, c.n, c.ledger.terminated, id);
  }
}
