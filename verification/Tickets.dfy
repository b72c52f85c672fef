/**
 * What each waiting ask of a run got: no speculation is handed to two of them,
 * ever, and time is saved by delivered hits alone.
 */
module Tickets {
  import opened Common
  import opened Caches
  import opened Sessions
  import opened SessionInvariants
  import opened Daemons
  import opened Runs
  import opened RunSteps
  import opened StepFrames
  import opened Lossless
  import opened Fences
  import opened Ownership
  import Q = CacheQueues

  /* No job twice */

  /** The serve counter of its slot has passed the job. */
  predicate Taken(c: Cache, id: SpecId) {
    id in c.objs && c.objs[id].occurrence < Serves(c, SlotOf(c.objs[id]))
  }

  lemma TakenStays(c: Cache, d: Cache, id: SpecId)
    requires Q.Later(c, d) && Taken(c, id)
    ensures Taken(d, id)
  {
    assert KeyOf(d.objs[id]) == KeyOf(c.objs[id]);
    assert Serves(c, SlotOf(c.objs[id])) <= Serves(d, SlotOf(c.objs[id]));
  }

  /** A claim takes a job no claim has taken before. */
  lemma ClaimTakes(c: Cache, call: Call)
    requires Table(c) && ClaimedId(c, call).Some?
    ensures var id := ClaimedId(c, call).value;
            id in c.objs && !Taken(c, id) && Taken(Claim(c, call), id)
  {
    var s := Slot(call, c.epoch);
    assert KeyOf(c.objs[ClaimedId(c, call).value]) == Key(s, Stop(c, s));
  }

  lemma AskTakes(s: Session, call: Call, open: bool)
    requires SessionInvariants.Valid(s)
    ensures var r := ResolveStart(s, call, open);
            r.Joining? && r.job.Some? ==> !Taken(s.cache, r.job.value) && Taken(r.s.cache, r.job.value)
  {
    hide Caches.Valid, Claim, ClaimedId, Taken, DiscardChain, LongestPrefix, Table;
    ValidParts(s);
    ValidTable(s.cache, s.dropped);
    if ClaimedId(s.cache, call).Some? {
      ClaimTakes(s.cache, call);
    }
  }

  /** Every join of a run so far, delivered or still waiting. */
  ghost function Issued(fs: map<string, FS>, steps: seq<Step>): map<nat, Join> {
    if steps == [] then map[]
    else Issued(fs, steps[..|steps| - 1]) + After(Start(fs), steps).joins
  }

  ghost predicate Distinct(issued: map<nat, Join>, w: World) {
    && (forall t :: t in issued ==> t < w.tickets && issued[t].uid in w.d.store)
    && (forall t :: t in issued && issued[t].job.Some? ==> Taken(w.d.store[issued[t].uid].cache, issued[t].job.value))
    && (forall t, u :: t in issued && u in issued && t != u && issued[t].uid == issued[u].uid && issued[t].job.Some? ==>
          issued[t].job != issued[u].job)
    && (forall t :: t in w.joins ==> t in issued && issued[t] == w.joins[t])
  }

  lemma MovedLater(d: Daemon, e: Daemon, st: Step, uid: Uid)
    requires Framed(d, e, st) && uid in d.store
    ensures uid in e.store && Q.Later(d.store[uid].cache, e.store[uid].cache)
  {
    hide Q.Later, KeepsClaim;
  }

  /** A step that issues no ticket. */
  lemma DistinctStays(issued: map<nat, Join>, w: World, v: World, st: Step)
    requires Distinct(issued, w) && Framed(w.d, v.d, st)
    requires v.tickets == w.tickets && forall t :: t in v.joins ==> t in w.joins && v.joins[t] == w.joins[t]
    ensures Distinct(issued, v) && issued + v.joins == issued
  {
    hide Framed, Taken, Q.Later;
    forall t | t in issued
      ensures issued[t].uid in v.d.store
      ensures issued[t].job.Some? ==> Taken(v.d.store[issued[t].uid].cache, issued[t].job.value)
    {
      var uid := issued[t].uid;
      MovedLater(w.d, v.d, st, uid);
      if issued[t].job.Some? {
        TakenStays(w.d.store[uid].cache, v.d.store[uid].cache, issued[t].job.value);
      }
    }
  }

  /** Every job issued so far is taken, in a session the daemon knows. */
  ghost predicate AllTaken(issued: map<nat, Join>, d: Daemon) {
    forall t :: t in issued ==>
      && issued[t].uid in d.store
      && (issued[t].job.Some? ==> Taken(d.store[issued[t].uid].cache, issued[t].job.value))
  }

  lemma TakenAfterAsk(issued: map<nat, Join>, w: World, v: World, st: Step, uid: Uid, r: Started)
    requires Distinct(issued, w) && Framed(w.d, v.d, st) && Joins(w, v, uid, r) && r.Joining?
    requires v.joins[w.tickets].job == r.job
    requires r.job.Some? ==> Taken(r.s.cache, r.job.value)
    ensures AllTaken(issued + v.joins, v.d)
  {
    hide Framed, Taken, Q.Later;
    var more := issued + v.joins;
    assert more == issued[w.tickets := v.joins[w.tickets]];
    forall t | t in more
      ensures more[t].uid in v.d.store
      ensures more[t].job.Some? ==> Taken(v.d.store[more[t].uid].cache, more[t].job.value)
    {
      if t != w.tickets {
        MovedLater(w.d, v.d, st, more[t].uid);
        if more[t].job.Some? {
          TakenStays(w.d.store[more[t].uid].cache, v.d.store[more[t].uid].cache, more[t].job.value);
        }
      }
    }
  }

  lemma DistinctAsk(issued: map<nat, Join>, w: World, v: World, st: Step, uid: Uid, r: Started)
    requires Distinct(issued, w) && Framed(w.d, v.d, st) && Joins(w, v, uid, r) && r.Joining?
    requires v.joins[w.tickets].job == r.job
    requires r.job.Some? ==> !Taken(w.d.store[uid].cache, r.job.value) && Taken(r.s.cache, r.job.value)
    ensures Distinct(issued + v.joins, v)
  {
    hide Framed, Taken;
    TakenAfterAsk(issued, w, v, st, uid, r);
    NotIssuedYet(issued, w, uid, r.job);
    hide Distinct, AllTaken;
    JoinsAmong(issued, w, v, uid, r);
  }

  /** A job nobody took has not been issued. */
  lemma NotIssuedYet(issued: map<nat, Join>, w: World, uid: Uid, job: Option<SpecId>)
    requires Distinct(issued, w) && uid in w.d.store && (job.Some? ==> !Taken(w.d.store[uid].cache, job.value))
    ensures w.tickets !in issued
    ensures forall t :: t in issued && issued[t].uid == uid && issued[t].job.Some? ==> issued[t].job != job
  {
    hide Taken;
  }

  lemma JoinsAmong(issued: map<nat, Join>, w: World, v: World, uid: Uid, r: Started)
    requires Distinct(issued, w) && Joins(w, v, uid, r) && r.Joining? && v.joins[w.tickets].job == r.job
    requires w.tickets !in issued
    requires forall t :: t in issued && issued[t].uid == uid && issued[t].job.Some? ==> issued[t].job != r.job
    requires AllTaken(issued + v.joins, v.d)
    ensures Distinct(issued + v.joins, v)
  {
    hide Taken, Put;
    assert issued + v.joins == issued[w.tickets := v.joins[w.tickets]];
  }

  lemma AskedJob(w: World, sid: string, call: Call, ask: real)
    requires Known(w.d, sid)
    ensures var uid := w.d.sessions[sid];
            var r := ResolveStart(w.d.store[uid], call, Open(w.d, w.d.store[uid].repo));
            var v := Next(w, Ask(sid, call, ask));
            r.Joining? ==> w.tickets in v.joins && v.joins[w.tickets].job == r.job
  {
    hide ResolveStart;
  }

  lemma NextDistinct(issued: map<nat, Join>, w: World, st: Step)
    requires Distinct(issued, w) && Invariant(None, w)
    ensures Distinct(issued + Next(w, st).joins, Next(w, st))
  {
    hide Distinct, Invariant, Framed, Next, ResolveStart, Taken, Joins, SessionInvariants.Valid;
    var v := Next(w, st);
    InvariantFreshIds(None, w);
    NextFramed(w, st);
    if st.Ask? && Known(w.d, st.sid) {
      var uid := w.d.sessions[st.sid];
      var s := w.d.store[uid];
      var r := ResolveStart(s, st.call, Open(w.d, s.repo));
      SessionOf(None, w, uid);
      AskJoins(w, st.sid, st.call, st.ask);
      AskedJob(w, st.sid, st.call, st.ask);
      AskTakes(s, st.call, Open(w.d, s.repo));
      if r.Joining? {
        DistinctAsk(issued, w, v, st, uid, r);
      } else {
        AnsweredJoins(w, v, uid, r);
        DistinctStays(issued, w, v, st);
      }
    } else {
      NothingIssued(w, st);
      DistinctStays(issued, w, v, st);
    }
  }

  lemma AnsweredJoins(w: World, v: World, uid: Uid, r: Started)
    requires Joins(w, v, uid, r) && r.Answered?
    ensures v.joins == w.joins && v.tickets == w.tickets
  {
  }

  lemma NothingIssued(w: World, st: Step)
    requires !(st.Ask? && Known(w.d, st.sid))
    ensures Next(w, st).tickets == w.tickets
    ensures forall t :: t in Next(w, st).joins ==> t in w.joins && Next(w, st).joins[t] == w.joins[t]
  {
    hide FinishResolve;
    if !(st.Deliver? && st.ticket in w.joins && w.joins[st.ticket].uid in w.d.store) {
      JoinsStay(w, st);
    }
  }

  lemma {:induction false} RunDistinct(fs: map<string, FS>, steps: seq<Step>)
    ensures Distinct(Issued(fs, steps), After(Start(fs), steps))
    decreases |steps|
  {
    hide Distinct, Invariant, Next, Fair, WorldEvolves;
    if steps == [] {
      NobodyAsked(fs);
    } else {
      var before := steps[..|steps| - 1];
      RunDistinct(fs, before);
      AnyRunKeeps(fs, before);
      NextDistinct(Issued(fs, before), After(Start(fs), before), steps[|steps| - 1]);
    }
  }

  lemma NobodyAsked(fs: map<string, FS>)
    ensures Distinct(map[], Start(fs))
  {
  }

  /** In no run do two asks of a session, at whatever times, get the same job to wait for. */
  lemma NoJobTwice(fs: map<string, FS>, steps: seq<Step>, t: nat, u: nat)
    requires t in Issued(fs, steps) && u in Issued(fs, steps) && t != u
    requires Issued(fs, steps)[t].uid == Issued(fs, steps)[u].uid && Issued(fs, steps)[t].job.Some?
    ensures Issued(fs, steps)[t].job != Issued(fs, steps)[u].job
  {
    hide After, Issued, Taken;
    RunDistinct(fs, steps);
  }

  /* Savings */

  lemma SavedBetween(j: Job, ask: real)
    requires j.duration.Some?
    ensures 0.0 <= SavedMs(j, ask)
    ensures j.launch <= ask && 0.0 <= j.duration.value ==> SavedMs(j, ask) <= Min(j.duration.value, ask - j.launch)
  {
  }

  lemma FinishSaves(d: Daemon, j: Join, completed: bool)
    requires j.uid in d.store && SessionInvariants.Valid(d.store[j.uid])
    requires JoinOk(d.store[j.uid], j.call, j.job, j.claim)
    ensures var s, f := d.store[j.uid], FinishResolve(d, j, completed);
            if f.reply.Served? then
              && j.job.Some? && j.job.value in s.cache.objs && s.cache.objs[j.job.value].duration.Some?
              && f.s.cache.ledger.saved == s.cache.ledger.saved + SavedMs(s.cache.objs[j.job.value], j.ask)
            else f.s.cache.ledger.saved == s.cache.ledger.saved
  {
    hide SessionInvariants.Valid, DiscardIds, SavedMs;
    var s := d.store[j.uid];
    DiscardIdsMove(s.cache, From(s.chainSpecIds, if j.claim.Some? then j.claim.value.hop else 0));
  }

  /**
   * In every run a session's savings change only when a waiting join is
   * served, and then by an amount between nothing and, for a job launched
   * before the ask, the shorter of the run and the head start.
   */
  lemma SavedOnlyByHits(fs: map<string, FS>, steps: seq<Step>, st: Step, uid: Uid)
    requires uid in After(Start(fs), steps).d.store
    ensures var w := After(Start(fs), steps);
            var v := Next(w, st);
            && uid in v.d.store
            && var gain := v.d.store[uid].cache.ledger.saved - w.d.store[uid].cache.ledger.saved;
            if st.Deliver? && st.ticket in w.joins && w.joins[st.ticket].uid == uid
               && Delivered(w, st.ticket, st.completed).Served? then
              var j := w.joins[st.ticket];
              var c := w.d.store[uid].cache;
              && j.job.Some? && j.job.value in c.objs && c.objs[j.job.value].duration.Some?
              && 0.0 <= gain
              && (c.objs[j.job.value].launch <= j.ask && 0.0 <= c.objs[j.job.value].duration.value ==>
                    gain <= Min(c.objs[j.job.value].duration.value, j.ask - c.objs[j.job.value].launch))
            else gain == 0.0
  {
    hide After, Invariant, Framed, FinishResolve, SessionInvariants.Valid, SavedMs;
    var w := After(Start(fs), steps);
    AnyRunKeeps(fs, steps);
    if st.Deliver? {
      if st.ticket in w.joins && w.joins[st.ticket].uid in w.d.store {
        var j := w.joins[st.ticket];
        SessionOf(None, w, j.uid);
        JoinOf(None, w, st.ticket);
        FinishSaves(w.d, j, st.completed);
        if Delivered(w, st.ticket, st.completed).Served? {
          SavedBetween(w.d.store[j.uid].cache.objs[j.job.value], j.ask);
        }
      }
    } else {
      InvariantFreshIds(None, w);
      NextFramed(w, st);
      MovedSaves(w.d, Next(w, st).d, st, uid);
    }
  }

  lemma MovedSaves(d: Daemon, e: Daemon, st: Step, uid: Uid)
    requires Framed(d, e, st) && uid in d.store && !st.Deliver?
    ensures uid in e.store && e.store[uid].cache.ledger.saved == d.store[uid].cache.ledger.saved
  {
    hide Q.Later, KeepsClaim;
  }
}
