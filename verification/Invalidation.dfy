/**
 * What an invalidation does to a session, and what it books, read off the
 * fields (src/sfx/daemon.py:230-239, 672-680, src/sfx/cache.py:129-140).
 */
module Invalidations {
  import opened Common
  import opened Caches
  import opened Sessions
  import opened SessionInvariants
  import opened Daemons
  import opened Coherence
  import opened Runs
  import opened RunSteps
  import L = Ledgers

  /** What `s` held is over in `t`: signalled and ended. */
  ghost predicate Over(s: Session, t: Session) {
    forall key :: key in s.cache.jobs ==>
      var id := s.cache.jobs[key];
      id in t.cache.objs && t.cache.objs[id].done && id in t.cache.ledger.terminated
  }

  /* What is booked */

  /** The jobs that an end of `discarded`, and then of whatever the table holds, still has to book. */
  predicate Due(c: Cache, id: SpecId, discarded: seq<SpecId>) {
    && id in c.objs && id !in c.ledger.terminated
    && var key := Key(Slot(c.objs[id].call, c.objs[id].epoch), c.objs[id].occurrence);
    id in discarded || (key in c.jobs && c.jobs[key] == id)
  }

  /** The processor time a job that expires has wasted: its run, or what has passed of it. */
  function Wasted(j: Job, now: real): real {
    if j.duration.Some? && j.duration.value <= now - j.launch then j.duration.value else now - j.launch
  }

  function Last(c: Cache, id: SpecId, discarded: seq<SpecId>, now: real): L.Record
    requires id in c.objs
  {
    if id in discarded then L.End(id, L.Discarded, 0.0, 0.0)
    else L.End(id, L.EpochExpired, 0.0, Wasted(c.objs[id], now))
  }

  /**
   * Between `c` and `d` the ledger gained an end record for each job that was
   * due and for no other: discarded if it is one of `discarded`, and expired
   * otherwise. Nothing was saved.
   */
  ghost predicate Booked(c: Cache, d: Cache, discarded: seq<SpecId>, now: real) {
    var before, after := c.ledger, d.ledger;
    && before.records <= after.records && after.saved == before.saved
    && (forall id :: Due(c, id, discarded) ==> Last(c, id, discarded, now) in after.records[|before.records|..])
    && (forall i :: |before.records| <= i < |after.records| && after.records[i].End? ==>
          Due(c, after.records[i].id, discarded) && after.records[i] == Last(c, after.records[i].id, discarded, now))
  }

  /** `ExpireBelow` has booked the jobs below `i`. */
  ghost predicate BookedBelow(c: Cache, l: L.State, i: nat, now: real) {
    var before := c.ledger;
    && before.records <= l.records && l.saved == before.saved
    && (forall id: SpecId :: id < i && Due(c, id, []) ==> Last(c, id, [], now) in l.records[|before.records|..])
    && (forall k :: |before.records| <= k < |l.records| && l.records[k].End? ==>
          Due(c, l.records[k].id, []) && l.records[k] == Last(c, l.records[k].id, [], now))
    && (forall id :: id in l.terminated ==> id in before.terminated || id < i)
    && before.terminated <= l.terminated
  }

  lemma DueIs(c: Cache, id: SpecId)
    ensures Due(c, id, []) <==> Resident(c, id) && id !in c.ledger.terminated
  {
  }

  lemma {:induction false} ExpiryBooks(c: Cache, i: nat, now: real)
    requires forall id :: id in c.objs ==> c.objs[id].epoch <= c.epoch
    ensures BookedBelow(c, ExpireBelow(c, i, now), i, now)
  {
    if i > 0 {
      ExpiryBooks(c, i - 1, now);
      DueIs(c, i - 1);
      ExpiryStep(c, ExpireBelow(c, i - 1, now), i, now);
    }
  }

  lemma ExpiryStep(c: Cache, l: L.State, i: nat, now: real)
    requires 0 < i && BookedBelow(c, l, i - 1, now)
    ensures !Due(c, i - 1, []) ==> BookedBelow(c, l, i, now)
    ensures Due(c, i - 1, []) ==>
              && i - 1 !in l.terminated
              && BookedBelow(c, L.Terminate(l, i - 1, L.EpochExpired, 0.0, Wasted(c.objs[i - 1], now)), i, now)
  {
    hide Due;
    if Due(c, i - 1, []) {
      assert i - 1 in c.objs && i - 1 !in c.ledger.terminated by {
        DueIs(c, i - 1);
      }
      var m := L.Terminate(l, i - 1, L.EpochExpired, 0.0, Wasted(c.objs[i - 1], now));
      var tail := l.records[|c.ledger.records|..];
      assert m.records[|c.ledger.records|..] == tail + [Last(c, i - 1, [], now)];
    }
  }

  /** A new epoch books everything the table still held, and nothing else. */
  lemma BumpBooks(c: Cache, now: real)
    requires Table(c)
    ensures Booked(c, BumpEpoch(c, now), [], now)
  {
    hide Due, Last, ExpireBelow, Resident, KeyOf;
    ExpiryBooks(c, c.n, now);
    assert forall id: SpecId :: Due(c, id, []) ==> id < c.n by {
      DueBelow(c);
    }
  }

  lemma DueBelow(c: Cache)
    requires Table(c)
    ensures forall id: SpecId, ids :: Due(c, id, ids) ==> id < c.n
  {
  }

  /** Discarding one job that is due leaves the others due. */
  lemma DiscardLeavesDue(c: Cache, id: SpecId)
    requires Table(c) && id in c.objs && id !in c.ledger.terminated
    ensures var d := DiscardOne(c, id);
            && d.ledger == L.Terminate(c.ledger, id, L.Discarded, 0.0, 0.0)
            && (forall x :: Due(c, x, [id]) <==> x == id || Due(d, x, []))
            && (forall x, now :: Due(d, x, []) ==> x in d.objs && x in c.objs && Last(d, x, [], now) == Last(c, x, [id], now))
  {
  }

  lemma DiscardThenBooks(c: Cache, id: SpecId, e: Cache, now: real)
    requires Table(c) && id in c.objs && id !in c.ledger.terminated && Booked(DiscardOne(c, id), e, [], now)
    ensures Booked(c, e, [id], now)
  {
    var d := DiscardOne(c, id);
    DiscardLeavesDue(c, id);
    hide Due, Last, DiscardOne;
    var n := |c.ledger.records|;
    var tail := e.ledger.records[n..];
    assert d.ledger.records == c.ledger.records + [L.End(id, L.Discarded, 0.0, 0.0)];
    assert e.ledger.records[n] == d.ledger.records[n];
    assert tail == [L.End(id, L.Discarded, 0.0, 0.0)] + e.ledger.records[n + 1..];
    assert Last(c, id, [id], now) == L.End(id, L.Discarded, 0.0, 0.0) by {
      DiscardedLast(c, id, now);
    }
    assert e.ledger.records[|d.ledger.records|..] == tail[1..];
  }

  lemma DiscardedLast(c: Cache, id: SpecId, now: real)
    requires id in c.objs
    ensures Last(c, id, [id], now) == L.End(id, L.Discarded, 0.0, 0.0)
  {
  }

  /** A job that is over already has nothing to book as discarded. */
  lemma EndedBooks(c: Cache, id: SpecId, e: Cache, now: real)
    requires id in c.ledger.terminated && Booked(c, e, [], now)
    ensures Booked(c, e, [id], now)
  {
    assert forall x :: Due(c, x, [id]) <==> Due(c, x, []);
    assert forall x :: Due(c, x, [id]) ==> Last(c, x, [id], now) == Last(c, x, [], now);
    hide Due, Last;
  }

  lemma InvalidateBooks(s: Session, now: real)
    requires SessionInvariants.Valid(s)
    ensures Booked(s.cache, Invalidate(s, now).cache, if s.chain.Some? then s.chainSpecIds else [], now)
  {
    ValidTable(s.cache, s.dropped);
    if s.chain.Some? {
      ChainJob(s);
    }
    hide SessionInvariants.Valid, Booked, Table, BumpEpoch, Resident, KeyOf;
    var ids := s.chainSpecIds;
    if s.chain.Some? && ids != [] {
      assert From(ids, 0) == [ids[0]] && ids[1..] == [];
      var d := DiscardOne(s.cache, ids[0]);
      assert DiscardIds(s.cache, From(ids, 0)) == DiscardIds(d, []) == d;
      assert Table(d) by {
        OneKeepsTable(s.cache, ids[0]);
      }
      BumpBooks(d, now);
      if ids[0] in s.cache.ledger.terminated {
        EndedBooks(s.cache, ids[0], BumpEpoch(d, now), now);
      } else {
        DiscardThenBooks(s.cache, ids[0], BumpEpoch(d, now), now);
      }
    } else {
      assert DiscardIds(s.cache, From([], 0)) == s.cache;
      BumpBooks(s.cache, now);
    }
  }

  /** Discarding every job that is due books them all. */
  lemma DiscardBooks(c: Cache, ids: seq<SpecId>, now: real)
    requires |ids| <= 1 && (forall id :: id in ids ==> id in c.objs) && (forall id :: Due(c, id, ids) ==> id in ids)
    ensures Booked(c, DiscardIds(c, From(ids, 0)), ids, now)
  {
    hide DiscardSpec;
    if ids == [] {
      assert DiscardIds(c, From(ids, 0)) == c;
    } else {
      assert From(ids, 0) == [ids[0]] && ids[1..] == [];
      assert DiscardIds(c, From(ids, 0)) == DiscardIds(DiscardOne(c, ids[0]), []);
      assert ids[0] !in c.ledger.terminated ==> Due(c, ids[0], ids);
      SameEndedLedger(c, ids[0]);
    }
  }

  lemma SameEndedLedger(c: Cache, id: SpecId)
    ensures DiscardOne(c, id).ledger
            == if id in c.ledger.terminated then c.ledger else L.Terminate(c.ledger, id, L.Discarded, 0.0, 0.0)
  {
  }

  /** A launch is not an end. */
  lemma LaunchBooks(c: Cache, d: Cache, e: Cache, ids: seq<SpecId>, now: real)
    requires Booked(c, d, ids, now) && e.ledger == L.RecordLaunch(d.ledger, d.n)
    ensures Booked(c, e, ids, now)
  {
    hide Due, Last;
    assert e.ledger.records[|c.ledger.records|..] == d.ledger.records[|c.ledger.records|..] + [L.Launch(d.n)];
  }

  /** A chain has at most one job, and the session knows it. */
  lemma ChainJob(s: Session)
    requires SessionInvariants.Valid(s) && s.chain.Some?
    ensures |s.chainSpecIds| <= 1 && forall id :: id in s.chainSpecIds ==> id in s.cache.objs
  {
    hide Caches.Valid;
  }

  lemma OneKeepsTable(c: Cache, id: SpecId)
    requires Table(c)
    ensures Table(DiscardOne(c, id))
  {
    if id !in c.ledger.terminated {
      var l := L.Terminate(c.ledger, id, L.Discarded, 0.0, 0.0);
      RelabelKeepsTable(c, l);
      DiscardKeepsTable(c.(ledger := l), id);
    }
  }

  /**
   * `t` is session `s` after an invalidation: a new epoch with an empty table,
   * every job that was in it signalled, ended and booked, and no chain.
   */
  ghost predicate Emptied(s: Session, t: Session, now: real) {
    && t.chain == None && t.claim == None && !t.streamedWrite
    && t.cache.epoch == s.cache.epoch + 1 && t.cache.jobs == map[] && t.cache.n == s.cache.n
    && t.cache.objs.Keys == s.cache.objs.Keys
    && Over(s, t)
    && t.sid == s.sid && t.repo == s.repo && t.settings == s.settings && t.tasks == s.tasks
    && t.completed == s.completed && t.chains == s.chains
    && t.chainMutation == (if s.chain.Some? then None else s.chainMutation)
    && Booked(s.cache, t.cache, if s.chain.Some? then s.chainSpecIds else [], now)
  }

  /** Every session a current id names on `repo` is emptied, but for `kept`; all others stay as they are. */
  ghost predicate EmptiedAll(d: Daemon, e: Daemon, repo: string, kept: Option<Uid>, now: real) {
    && e.store.Keys == d.store.Keys
    && forall uid :: uid in d.store ==>
         if (d.store[uid].sid in d.sessions && d.sessions[d.store[uid].sid] == uid
             && d.store[uid].repo == repo && kept != Some(uid))
         then Emptied(d.store[uid], e.store[uid], now) else e.store[uid] == d.store[uid]
  }

  lemma InvalidateEmpties(s: Session, now: real)
    requires SessionInvariants.Valid(s)
    ensures Emptied(s, Invalidate(s, now), now)
  {
    hide SessionInvariants.Valid, DiscardIds, BumpEpoch, Booked;
    InvalidateKeepsValid(s, now);
    EmptyTable(s, Invalidate(s, now));
    ShapeHasClaim(s);
    InvalidateLeaves(s, now);
    InvalidateBooks(s, now);
  }

  lemma InvalidateLeaves(s: Session, now: real)
    ensures var t := Invalidate(s, now);
            && t.dropped == s.dropped && t.cache.n == s.cache.n && !t.streamedWrite
            && (s.claim == None || s.chain.Some? ==> t.claim == None)
            && t.sid == s.sid && t.repo == s.repo && t.settings == s.settings && t.tasks == s.tasks
            && t.completed == s.completed && t.chains == s.chains
            && t.chainMutation == (if s.chain.Some? then None else s.chainMutation)
  {
    hide DiscardIds;
    DiscardIdsCount(s.cache, From(s.chainSpecIds, 0));
  }

  lemma {:induction false} DiscardIdsCount(c: Cache, ids: seq<SpecId>)
    ensures DiscardIds(c, ids).n == c.n && DiscardIds(c, ids).epoch == c.epoch
    decreases |ids|
  {
    if ids != [] {
      DiscardIdsCount(DiscardOne(c, ids[0]), ids[1..]);
    }
  }

  lemma EmptyTable(s: Session, t: Session)
    requires SessionInvariants.Valid(s) && SessionInvariants.Valid(t) && SameIdentities(s.cache, t.cache)
    requires t.cache.jobs == map[] && t.dropped == s.dropped
    ensures Over(s, t)
    ensures t.cache.objs.Keys == s.cache.objs.Keys
  {
    hide L.Valid, ChainShape, ChainTask, ForkOwned;
    forall key | key in s.cache.jobs
      ensures var id := s.cache.jobs[key];
              id in t.cache.objs && t.cache.objs[id].done && id in t.cache.ledger.terminated
    {
      assert Resident(s.cache, s.cache.jobs[key]) && !Resident(t.cache, s.cache.jobs[key]);
    }
  }

  lemma ShapeHasClaim(s: Session)
    requires SessionInvariants.Valid(s)
    ensures s.chain == None ==> s.claim == None
  {
  }

  lemma RepoEmptied(exec: Option<Exec>, w: World, d: Daemon, repo: string, preserve: Option<Uid>, now: real)
    requires Invariant(exec, w) && d.store == w.d.store && d.sessions == w.d.sessions
    ensures EmptiedAll(d, InvalidateRepo(d, repo, preserve, now), repo, preserve, now)
  {
    hide Invariant, Invalidate, Emptied, SessionInvariants.Valid;
    forall uid | uid in d.store
      ensures Emptied(d.store[uid], Invalidate(d.store[uid], now), now)
    {
      SessionOf(exec, w, uid);
      InvalidateEmpties(d.store[uid], now);
    }
  }
}
