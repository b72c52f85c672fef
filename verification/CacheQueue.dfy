/**
 * The two counters and the table of one slot behave as a first-in first-out
 * queue with deletions (src/sfx/cache.py:49-96, 121-140).
 */
module CacheQueues {
  import opened Common
  import opened Caches
  import L = Ledgers

  /** Ids still in the table at occurrences [lo, hi) of a slot, oldest first. */
  function Live(c: Cache, s: Slot, lo: nat, hi: nat): seq<SpecId>
    decreases hi - lo
  {
    if lo >= hi then []
    else (if Key(s, lo) in c.jobs then [c.jobs[Key(s, lo)]] else []) + Live(c, s, lo + 1, hi)
  }

  /** What a caller asking for `call` has in front of it. */
  function Queue(c: Cache, call: Call): seq<SpecId> {
    var s := Slot(call, c.epoch);
    Live(c, s, Serves(c, s), Puts(c, s))
  }

  function Without(q: seq<SpecId>, id: SpecId): seq<SpecId> {
    if q == [] then [] else (if q[0] == id then [] else [q[0]]) + Without(q[1..], id)
  }

  lemma {:induction false} LiveAgree(c: Cache, d: Cache, s: Slot, lo: nat, hi: nat)
    requires forall k :: lo <= k < hi ==>
               (Key(s, k) in c.jobs) == (Key(s, k) in d.jobs)
               && (Key(s, k) in c.jobs ==> c.jobs[Key(s, k)] == d.jobs[Key(s, k)])
    ensures Live(c, s, lo, hi) == Live(d, s, lo, hi)
    decreases hi - lo
  {
    if lo < hi {
      LiveAgree(c, d, s, lo + 1, hi);
    }
  }

  lemma {:induction false} LiveSnoc(c: Cache, s: Slot, lo: nat, hi: nat)
    requires lo <= hi
    ensures Live(c, s, lo, hi + 1)
            == Live(c, s, lo, hi) + if Key(s, hi) in c.jobs then [c.jobs[Key(s, hi)]] else []
    decreases hi - lo
  {
    if lo < hi {
      LiveSnoc(c, s, lo + 1, hi);
    } else {
      assert Live(c, s, lo + 1, hi + 1) == [];
    }
  }

  lemma {:induction false} LiveSkip(c: Cache, s: Slot, lo: nat, mid: nat, hi: nat)
    requires lo <= mid <= hi
    requires forall k :: lo <= k < mid ==> Key(s, k) !in c.jobs
    ensures Live(c, s, lo, hi) == Live(c, s, mid, hi)
    decreases mid - lo
  {
    if lo < mid {
      LiveSkip(c, s, lo + 1, mid, hi);
    }
  }

  /** A reservation joins the end of its own queue and no other. */
  lemma ReserveEnqueues(c: Cache, call: Call, launch: real, sync: bool, other: Call)
    requires Table(c)
    ensures Queue(Reserve(c, call, launch, sync), call) == Queue(c, call) + [c.n]
    ensures other != call ==> Queue(Reserve(c, call, launch, sync), other) == Queue(c, other)
  {
    var d := Reserve(c, call, launch, sync);
    var s, t := Slot(call, c.epoch), Slot(other, c.epoch);
    assert Serves(c, s) <= Puts(c, s);
    LiveSnoc(d, s, Serves(d, s), Puts(c, s));
    LiveAgree(c, d, s, Serves(c, s), Puts(c, s));
    if other != call {
      LiveAgree(c, d, t, Serves(c, t), Puts(c, t));
    }
  }

  /**
   * `claim` pops the oldest live reservation. On an empty queue it answers
   * nothing and leaves the serve counter at the put counter, so the next
   * reservation can still be served.
   */
  lemma ClaimDequeues(c: Cache, call: Call, other: Call)
    requires Table(c)
    ensures ClaimedId(c, call) == if Queue(c, call) == [] then None else Some(Queue(c, call)[0])
    ensures Queue(Claim(c, call), call) == if Queue(c, call) == [] then [] else Queue(c, call)[1..]
    ensures Queue(c, call) == [] ==>
              Serves(Claim(c, call), Slot(call, c.epoch)) == Puts(c, Slot(call, c.epoch))
    ensures other != call ==> Queue(Claim(c, call), other) == Queue(c, other)
  {
    var d := Claim(c, call);
    var s, t := Slot(call, c.epoch), Slot(other, c.epoch);
    var occ := Stop(c, s);
    assert Serves(c, s) <= Puts(c, s);
    LiveSkip(c, s, Serves(c, s), occ, Puts(c, s));
    LiveAgree(c, d, s, occ, Puts(c, s));
    LiveAgree(c, d, t, Serves(c, t), Puts(c, t));
  }

  lemma {:induction false} LiveDiscard(c: Cache, s: Slot, lo: nat, hi: nat, id: SpecId)
    requires Table(c)
    ensures Live(DiscardSpec(c, id), s, lo, hi) == Without(Live(c, s, lo, hi), id)
    decreases hi - lo
  {
    if lo < hi {
      LiveDiscard(c, s, lo + 1, hi, id);
      var d, q := DiscardSpec(c, id), Live(c, s, lo, hi);
      if Key(s, lo) in c.jobs {
        assert q[1..] == Live(c, s, lo + 1, hi) && q[0] == c.jobs[Key(s, lo)];
        assert q[0] == id ==> Resident(c, id);
        assert Key(s, lo) in d.jobs <==> q[0] != id;
      } else {
        assert q == Live(c, s, lo + 1, hi) && Live(d, s, lo, hi) == Live(d, s, lo + 1, hi);
      }
    }
  }

  /** A discarded job leaves a hole; everyone else keeps their place. */
  lemma DiscardDeletes(c: Cache, id: SpecId, call: Call)
    requires Table(c)
    ensures Queue(DiscardSpec(c, id), call) == Without(Queue(c, call), id)
  {
    var s := Slot(call, c.epoch);
    LiveDiscard(c, s, Serves(c, s), Puts(c, s), id);
  }

  /** Completing and finishing move nothing; a new epoch empties every queue. */
  lemma QuietOperations(c: Cache, id: SpecId, r: Output, dur: real, ask: real, now: real, call: Call)
    requires Table(c)
    ensures Queue(Complete(c, id, r, dur), call) == Queue(c, call)
    ensures Queue(Finish(c, Some(id), ask), call) == Queue(c, call)
    ensures Queue(BumpEpoch(c, now), call) == []
  {
    var s := Slot(call, c.epoch);
    LiveAgree(c, Complete(c, id, r, dur), s, Serves(c, s), Puts(c, s));
    LiveAgree(c, Finish(c, Some(id), ask), s, Serves(c, s), Puts(c, s));
    var d := BumpEpoch(c, now);
    var t := Slot(call, d.epoch);
    assert t !in c.puts && Puts(d, t) == 0;
  }

  /* Whole runs of one cache */

  datatype Op =
    | DoReserve(call: Call, launch: real, synchronous: bool)
    | DoComplete(id: SpecId, result: Output, duration: real)
    | DoClaim(call: Call)
    | DoFinish(id: SpecId, ask: real)
    | DoDiscard(id: SpecId)
    | DoBump(now: real)

  function Apply(c: Cache, op: Op): Cache {
    match op
    case DoReserve(call, launch, sync) => Reserve(c, call, launch, sync)
    case DoComplete(id, r, dur) => Complete(c, id, r, dur)
    case DoClaim(call) => Claim(c, call)
    case DoFinish(id, ask) => Finish(c, Some(id), ask)
    case DoDiscard(id) => DiscardSpec(c, id)
    case DoBump(now) => BumpEpoch(c, now)
  }

  function Run(ops: seq<Op>): Cache {
    if ops == [] then EMPTY else Apply(Run(ops[..|ops| - 1]), ops[|ops| - 1])
  }

  function ClaimOf(c: Cache, op: Op): seq<SpecId> {
    if op.DoClaim? && ClaimedId(c, op.call).Some? then [ClaimedId(c, op.call).value] else []
  }

  /** Ids answered by `claim` over a run, in order. */
  function Claims(ops: seq<Op>): seq<SpecId> {
    if ops == [] then []
    else Claims(ops[..|ops| - 1]) + ClaimOf(Run(ops[..|ops| - 1]), ops[|ops| - 1])
  }

  lemma StepKeepsTable(c: Cache, op: Op)
    requires Table(c)
    ensures Table(Apply(c, op))
  {
    match op
    case DoReserve(call, launch, sync) =>
      ReserveKeepsTable(c, call, launch, sync);
    case DoComplete(id, r, dur) =>
      CompleteKeepsTable(c, id, r, dur);
    case DoClaim(call) =>
      ClaimKeepsTable(c, call);
    case DoFinish(id, ask) =>
      RelabelKeepsTable(c, Finish(c, Some(id), ask).ledger);
    case DoDiscard(id) =>
      DiscardKeepsTable(c, id);
    case DoBump(now) =>
      BumpKeepsTable(c, now);
  }

  /** Job identities never change and serve counters never go back. */
  ghost predicate Later(c: Cache, d: Cache) {
    && (forall id :: id in c.objs ==> id in d.objs && KeyOf(d.objs[id]) == KeyOf(c.objs[id]))
    && (forall s :: Serves(c, s) <= Serves(d, s))
  }

  lemma LaterTransitive(c: Cache, d: Cache, e: Cache)
    requires Later(c, d) && Later(d, e)
    ensures Later(c, e)
  {
  }

  lemma Unmoved(c: Cache, l: L.State)
    ensures Later(c, c) && Later(c, c.(ledger := l))
  {
  }

  lemma ReserveIsLater(c: Cache, call: Call, launch: real, sync: bool)
    requires c.n !in c.objs
    ensures Later(c, Reserve(c, call, launch, sync)) && Reserve(c, call, launch, sync).ledger.saved == c.ledger.saved
  {
  }

  lemma CompleteIsLater(c: Cache, id: SpecId, result: Output, duration: real)
    ensures Later(c, Complete(c, id, result, duration)) && Complete(c, id, result, duration).ledger == c.ledger
  {
  }

  lemma ClaimIsLater(c: Cache, call: Call)
    ensures Later(c, Claim(c, call)) && Claim(c, call).ledger == c.ledger
  {
    hide FirstLive;
  }

  lemma FinishIsLater(c: Cache, id: Option<SpecId>, ask: real)
    ensures Later(c, Finish(c, id, ask))
  {
  }

  lemma DiscardIsLater(c: Cache, id: SpecId)
    ensures Later(c, DiscardSpec(c, id)) && DiscardSpec(c, id).ledger == c.ledger
  {
  }

  lemma {:induction false} ExpiringSavesNothing(c: Cache, i: nat, now: real)
    ensures ExpireBelow(c, i, now).saved == c.ledger.saved
  {
    if i > 0 {
      ExpiringSavesNothing(c, i - 1, now);
    }
  }

  lemma BumpIsLater(c: Cache, now: real)
    ensures Later(c, BumpEpoch(c, now)) && BumpEpoch(c, now).ledger.saved == c.ledger.saved
  {
    hide ExpireBelow;
    ExpiringSavesNothing(c, c.n, now);
  }

  lemma StepIsLater(c: Cache, op: Op)
    requires Table(c)
    ensures Later(c, Apply(c, op))
  {
    hide Later, Reserve, Complete, Claim, Finish, DiscardSpec, BumpEpoch;
    match op
    case DoReserve(call, launch, sync) => ReserveIsLater(c, call, launch, sync);
    case DoComplete(id, r, dur) => CompleteIsLater(c, id, r, dur);
    case DoClaim(call) => ClaimIsLater(c, call);
    case DoFinish(id, ask) => FinishIsLater(c, Some(id), ask);
    case DoDiscard(id) => DiscardIsLater(c, id);
    case DoBump(now) => BumpIsLater(c, now);
  }

  /** Every claimed id lies below its slot's serve counter, in order of claim. */
  ghost predicate InOrder(c: Cache, claims: seq<SpecId>) {
    && (forall i :: 0 <= i < |claims| ==>
          claims[i] in c.objs && c.objs[claims[i]].occurrence < Serves(c, SlotOf(c.objs[claims[i]])))
    && (forall i, j :: 0 <= i < j < |claims| ==>
          (KeyOf(c.objs[claims[i]]).slot == KeyOf(c.objs[claims[j]]).slot ==>
             KeyOf(c.objs[claims[i]]).occurrence < KeyOf(c.objs[claims[j]]).occurrence))
  }

  lemma InOrderLater(c: Cache, d: Cache, claims: seq<SpecId>)
    requires InOrder(c, claims) && Later(c, d)
    ensures InOrder(d, claims)
  {
    forall i | 0 <= i < |claims|
      ensures claims[i] in d.objs && d.objs[claims[i]].occurrence < Serves(d, SlotOf(d.objs[claims[i]]))
    {
      assert KeyOf(d.objs[claims[i]]) == KeyOf(c.objs[claims[i]]);
      assert Serves(c, SlotOf(c.objs[claims[i]])) <= Serves(d, SlotOf(d.objs[claims[i]]));
    }
  }

  lemma InOrderClaim(c: Cache, call: Call, claims: seq<SpecId>)
    requires Table(c) && InOrder(c, claims) && ClaimedId(c, call).Some?
    ensures InOrder(Claim(c, call), claims + [ClaimedId(c, call).value])
  {
    var d, id := Claim(c, call), ClaimedId(c, call).value;
    var s := Slot(call, c.epoch);
    StepIsLater(c, DoClaim(call));
    InOrderLater(c, d, claims);
    assert KeyOf(c.objs[id]) == Key(s, Stop(c, s));
    forall i | 0 <= i < |claims| && KeyOf(d.objs[claims[i]]).slot == s
      ensures KeyOf(d.objs[claims[i]]).occurrence < Stop(c, s)
    {
      assert c.objs[claims[i]].occurrence < Serves(c, SlotOf(c.objs[claims[i]]));
    }
  }

  lemma NothingClaimed()
    ensures Table(EMPTY) && InOrder(EMPTY, [])
  {
  }

  lemma {:induction false} RunInOrder(ops: seq<Op>)
    ensures Table(Run(ops)) && InOrder(Run(ops), Claims(ops))
  {
    hide Table, InOrder, Later;
    NothingClaimed();
    if ops != [] {
      var before, op := ops[..|ops| - 1], ops[|ops| - 1];
      var c := Run(before);
      RunInOrder(before);
      StepKeepsTable(c, op);
      if ClaimOf(c, op) != [] {
        InOrderClaim(c, op.call, Claims(before));
      } else {
        StepIsLater(c, op);
        InOrderLater(c, Run(ops), Claims(before));
        assert Claims(ops) == Claims(before);
      }
    }
  }

  /**
   * In no run is a speculation claimed twice, and the claims of one slot come
   * in the order of their reservation.
   */
  lemma NoDoubleClaim(ops: seq<Op>, i: nat, j: nat)
    requires i < j < |Claims(ops)|
    ensures Claims(ops)[i] != Claims(ops)[j]
    ensures Claims(ops)[i] in Run(ops).objs && Claims(ops)[j] in Run(ops).objs
    ensures SlotOf(Run(ops).objs[Claims(ops)[i]]) == SlotOf(Run(ops).objs[Claims(ops)[j]]) ==>
              Run(ops).objs[Claims(ops)[i]].occurrence < Run(ops).objs[Claims(ops)[j]].occurrence
  {
    RunInOrder(ops);
  }
}
