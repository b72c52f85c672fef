/**
 * src/sfx/cache.py as values: the reservation table of one session, keyed by
 * call, occurrence and epoch. `CacheObject` proves the mutable class against
 * the functions below.
 */
module Caches {
  import opened Common
  import L = Ledgers

  type SpecId = L.SpecId
  type Args = map<string, string>

  datatype Call = Call(kind: string, args: Args)
  datatype Output = Output(stdout: string, stderr: string, code: int)

  datatype Job = Job(
    call: Call,
    occurrence: nat,
    epoch: nat,
    launch: real,
    duration: Option<real>,
    result: Option<Output>,
    synchronous: bool,
    done: bool)

  datatype Slot = Slot(call: Call, epoch: nat)
  datatype Key = Key(slot: Slot, occurrence: nat)

  /**
   * `objs` holds every job object ever allocated, so a claimant can still look
   * at one that left the table; `jobs` is the table itself.
   */
  datatype Cache = Cache(
    ledger: L.State,
    epoch: nat,
    jobs: map<Key, SpecId>,
    objs: map<SpecId, Job>,
    puts: map<Slot, nat>,
    serves: map<Slot, nat>,
    n: nat)

  const EMPTY := Cache(L.EMPTY, 0, map[], map[], map[], map[], 0)

  function SlotOf(j: Job): Slot {
    Slot(j.call, j.epoch)
  }

  function KeyOf(j: Job): Key {
    Key(SlotOf(j), j.occurrence)
  }

  /** The job object `id` is the one the table holds under its own key. */
  predicate Resident(c: Cache, id: SpecId) {
    id in c.objs && KeyOf(c.objs[id]) in c.jobs && c.jobs[KeyOf(c.objs[id])] == id
  }

  function Puts(c: Cache, s: Slot): nat {
    GetOr(c.puts, s, 0)
  }

  function Serves(c: Cache, s: Slot): nat {
    GetOr(c.serves, s, 0)
  }

  /* Operations */

  function Fresh(c: Cache, call: Call, launch: real, synchronous: bool): Job {
    Job(call, Puts(c, Slot(call, c.epoch)), c.epoch, launch, None, None, synchronous, false)
  }

  /** Allocates the next occurrence of `call` in this epoch; its id is `c.n`. */
  function Reserve(c: Cache, call: Call, launch: real, synchronous: bool): Cache {
    var slot := Slot(call, c.epoch);
    var job := Fresh(c, call, launch, synchronous);
    c.(puts := c.puts[slot := Puts(c, slot) + 1],
       n := c.n + 1,
       objs := c.objs[c.n := job],
       jobs := c.jobs[KeyOf(job) := c.n],
       ledger := L.RecordLaunch(c.ledger, c.n))
  }

  /** A worker's result reaches its job only while the table still holds it. */
  function Complete(c: Cache, id: SpecId, result: Output, duration: real): Cache {
    if Resident(c, id) then
      c.(objs := c.objs[id := c.objs[id].(result := Some(result), duration := Some(duration), done := true)])
    else
      c
  }

  /** First occurrence in [lo, hi) the table still holds; `hi` when there is none. */
  function FirstLive(c: Cache, s: Slot, lo: nat, hi: nat): (occ: nat)
    requires lo <= hi
    ensures lo <= occ <= hi
    ensures occ < hi ==> Key(s, occ) in c.jobs
    ensures forall k :: lo <= k < occ ==> Key(s, k) !in c.jobs
    decreases hi - lo
  {
    if lo == hi || Key(s, lo) in c.jobs then lo else FirstLive(c, s, lo + 1, hi)
  }

  /** Where the scan of `claim` stops. */
  function Stop(c: Cache, s: Slot): nat {
    if Serves(c, s) < Puts(c, s) then FirstLive(c, s, Serves(c, s), Puts(c, s)) else Serves(c, s)
  }

  function ClaimedId(c: Cache, call: Call): Option<SpecId> {
    var s := Slot(call, c.epoch);
    var occ := Stop(c, s);
    if occ < Puts(c, s) && Key(s, occ) in c.jobs then Some(c.jobs[Key(s, occ)]) else None
  }

  function Claim(c: Cache, call: Call): Cache {
    var s := Slot(call, c.epoch);
    var occ := Stop(c, s);
    c.(serves := c.serves[s := if ClaimedId(c, call).Some? then occ + 1 else occ])
  }

  datatype Outcome = Miss | Hit(completed: bool, output: Output)

  /** The checks of `finish`, all of which must pass to publish a result. */
  predicate Deliverable(c: Cache, id: SpecId) {
    && Resident(c, id)
    && c.objs[id].done
    && c.objs[id].duration.Some?
    && c.objs[id].result.Some?
    && c.objs[id].epoch == c.epoch
    && id !in c.ledger.terminated
  }

  function SavedMs(j: Job, ask: real): real
    requires j.duration.Some?
  {
    if j.synchronous then 0.0 else Max(0.0, Min(j.duration.value, ask - j.launch))
  }

  function FinishOutcome(c: Cache, id: Option<SpecId>, ask: real): Outcome {
    if id.Some? && Deliverable(c, id.value) then
      var j := c.objs[id.value];
      Hit(j.launch + j.duration.value <= ask, j.result.value)
    else
      Miss
  }

  function Finish(c: Cache, id: Option<SpecId>, ask: real): Cache {
    match FinishOutcome(c, id, ask)
    case Miss => c
    case Hit(completed, _) =>
      c.(ledger := L.Terminate(c.ledger, id.value,
                               if completed then L.HitCompleted else L.HitPromoted,
                               SavedMs(c.objs[id.value], ask), 0.0))
  }

  /** Removes the job and wakes whoever waits for it. */
  function DiscardSpec(c: Cache, id: SpecId): Cache {
    if Resident(c, id) then
      c.(jobs := c.jobs - {KeyOf(c.objs[id])}, objs := c.objs[id := c.objs[id].(done := true)])
    else
      c
  }

  function WastedMs(j: Job, now: real): real {
    Min(if j.duration.Some? then j.duration.value else now - j.launch, now - j.launch)
  }

  /** The ledger after expiring, in id order, the resident jobs below `i`. */
  function ExpireBelow(c: Cache, i: nat, now: real): L.State {
    if i == 0 then c.ledger
    else
      var l := ExpireBelow(c, i - 1, now);
      if Resident(c, i - 1) && c.objs[i - 1].epoch <= c.epoch && i - 1 !in l.terminated
      then L.Terminate(l, i - 1, L.EpochExpired, 0.0, WastedMs(c.objs[i - 1], now))
      else l
  }

  function BumpEpoch(c: Cache, now: real): Cache {
    c.(epoch := c.epoch + 1,
       ledger := ExpireBelow(c, c.n, now),
       objs := map id | id in c.objs ::
         if Resident(c, id) && c.objs[id].epoch <= c.epoch then c.objs[id].(done := true) else c.objs[id],
       jobs := map k | k in c.jobs && k.slot.epoch > c.epoch :: c.jobs[k])
  }

  /* Invariant */

  /** The part of the invariant that keeps occurrence numbers unambiguous. */
  ghost predicate Table(c: Cache) {
    && (forall id: SpecId :: id in c.objs <==> id < c.n)
    && (forall id :: id in c.objs ==> c.objs[id].epoch <= c.epoch)
    && (forall id :: id in c.objs ==> c.objs[id].occurrence < Puts(c, SlotOf(c.objs[id])))
    && (forall k :: k in c.jobs ==>
          k.slot.epoch == c.epoch && c.jobs[k] in c.objs && KeyOf(c.objs[c.jobs[k]]) == k)
    && (forall s :: s in c.serves ==> c.serves[s] <= Puts(c, s))
    && (forall s :: s in c.puts ==> s.epoch <= c.epoch)
  }

  /**
   * `dropped` are the jobs a failing worker took out of the table. Every
   * launched id is then terminated, resident or dropped.
   */
  ghost predicate Accounted(c: Cache, dropped: set<SpecId>) {
    forall id :: id in c.objs ==> Resident(c, id) || id in c.ledger.terminated || id in dropped
  }

  /** Whoever holds a job that left the table finds its done flag set. */
  ghost predicate Signalled(c: Cache) {
    && (forall id :: id in c.objs && !Resident(c, id) ==> c.objs[id].done)
    && (forall id :: id in c.objs && Resident(c, id) && c.objs[id].done ==>
          c.objs[id].result.Some? && c.objs[id].duration.Some?)
  }

  /** Kept as one fact, so that proofs about sessions carry it whole. */
  ghost predicate Valid(c: Cache, dropped: set<SpecId>) {
    var valid := Table(c) && Accounted(c, dropped) && Signalled(c) && L.Valid(c.ledger, c.n);
    valid
  }

  lemma ValidTable(c: Cache, dropped: set<SpecId>)
    requires Valid(c, dropped)
    ensures Table(c)
  {
  }

  /** `d` differs from `c` in no job's identity. */
  ghost predicate SameIdentities(c: Cache, d: Cache) {
    && c.objs.Keys == d.objs.Keys
    && forall i :: i in c.objs ==> KeyOf(c.objs[i]) == KeyOf(d.objs[i])
  }

  /* Preservation */

  lemma ReserveKeepsTable(c: Cache, call: Call, launch: real, sync: bool)
    requires Table(c)
    ensures Table(Reserve(c, call, launch, sync))
  {
    var d := Reserve(c, call, launch, sync);
    var job := Fresh(c, call, launch, sync);
    assert forall s :: Puts(c, s) <= Puts(d, s);
    assert d.objs[c.n] == job && d.jobs[KeyOf(job)] == c.n;
    forall k | k in d.jobs
      ensures k.slot.epoch == d.epoch && d.jobs[k] in d.objs && KeyOf(d.objs[d.jobs[k]]) == k
    {
      assert k != KeyOf(job) ==> k in c.jobs;
    }
  }

  lemma ReserveKeepsResidents(c: Cache, call: Call, launch: real, sync: bool)
    requires Table(c)
    ensures c.n !in c.objs && Resident(Reserve(c, call, launch, sync), c.n)
    ensures forall id :: id in c.objs ==> Resident(Reserve(c, call, launch, sync), id) == Resident(c, id)
  {
    var d := Reserve(c, call, launch, sync);
    forall id | id in c.objs
      ensures d.objs[id] == c.objs[id] && KeyOf(c.objs[id]) != KeyOf(Fresh(c, call, launch, sync))
    {
    }
  }

  lemma ReserveKeepsValid(c: Cache, dropped: set<SpecId>, call: Call, launch: real, sync: bool)
    requires Valid(c, dropped)
    ensures Valid(Reserve(c, call, launch, sync), dropped)
    ensures c.n !in c.objs && Reserve(c, call, launch, sync).objs == c.objs[c.n := Fresh(c, call, launch, sync)]
    ensures Reserve(c, call, launch, sync).ledger.terminated == c.ledger.terminated
    ensures Resident(Reserve(c, call, launch, sync), c.n)
    ensures forall id :: id in c.objs ==> Resident(Reserve(c, call, launch, sync), id) == Resident(c, id)
  {
    hide Table, Resident, KeyOf;
    ReserveKeepsTable(c, call, launch, sync);
    ReserveKeepsResidents(c, call, launch, sync);
    L.LaunchKeepsValid(c.ledger, c.n);
  }

  /** Losing table entries and changing what jobs hold, but not who they are, keeps the table sound. */
  lemma TableShrinks(c: Cache, d: Cache)
    requires Table(c) && SameIdentities(c, d)
    requires d.puts == c.puts && d.serves == c.serves && d.epoch == c.epoch && d.n == c.n
    requires forall k :: k in d.jobs ==> k in c.jobs && d.jobs[k] == c.jobs[k]
    ensures Table(d)
  {
    assert forall s :: Puts(d, s) == Puts(c, s);
    forall i | i in c.objs
      ensures SlotOf(d.objs[i]) == SlotOf(c.objs[i]) && KeyOf(d.objs[i]) == KeyOf(c.objs[i])
    {
    }
  }

  lemma CompleteKeepsTable(c: Cache, id: SpecId, result: Output, duration: real)
    requires Table(c)
    ensures Table(Complete(c, id, result, duration))
    ensures SameIdentities(c, Complete(c, id, result, duration))
    ensures forall i :: Resident(Complete(c, id, result, duration), i) == Resident(c, i)
  {
    hide Table;
    TableShrinks(c, Complete(c, id, result, duration));
  }

  lemma CompleteKeepsValid(c: Cache, dropped: set<SpecId>, id: SpecId, result: Output, duration: real)
    requires Valid(c, dropped)
    ensures Valid(Complete(c, id, result, duration), dropped)
    ensures SameIdentities(c, Complete(c, id, result, duration))
    ensures forall i :: Resident(Complete(c, id, result, duration), i) == Resident(c, i)
  {
    hide Table, KeyOf, SameIdentities, Resident;
    CompleteKeepsTable(c, id, result, duration);
  }

  /** A result reaches its job while the table holds it, and nothing after that. */
  lemma CompleteReachesResidents(c: Cache, dropped: set<SpecId>, id: SpecId, result: Output, duration: real, ask: real)
    requires Valid(c, dropped)
    ensures var d := Complete(c, id, result, duration);
            if Resident(c, id) then
              && d.objs[id].done && d.objs[id].result == Some(result) && d.objs[id].duration == Some(duration)
              && (id !in c.ledger.terminated ==> FinishOutcome(d, Some(id), ask).Hit?
                                                 && FinishOutcome(d, Some(id), ask).output == result)
              && forall i :: i in c.objs && i != id ==> d.objs[i] == c.objs[i]
            else d == c && FinishOutcome(d, Some(id), ask) == Miss
  {
    CompleteKeepsValid(c, dropped, id, result, duration);
    FinishDelivers(Complete(c, id, result, duration), dropped, id, ask);
  }

  lemma ClaimKeepsTable(c: Cache, call: Call)
    requires Table(c)
    ensures Table(Claim(c, call))
    ensures forall i :: Resident(Claim(c, call), i) == Resident(c, i)
  {
    assert forall s :: Puts(Claim(c, call), s) == Puts(c, s);
  }

  lemma ClaimKeepsValid(c: Cache, dropped: set<SpecId>, call: Call)
    requires Valid(c, dropped)
    ensures Valid(Claim(c, call), dropped)
    ensures forall i :: Resident(Claim(c, call), i) == Resident(c, i)
    ensures ClaimedId(c, call).Some? ==>
              Resident(c, ClaimedId(c, call).value) && c.objs[ClaimedId(c, call).value].call == call
  {
    ClaimKeepsTable(c, call);
  }

  lemma FinishKeepsValid(c: Cache, dropped: set<SpecId>, id: Option<SpecId>, ask: real)
    requires Valid(c, dropped)
    ensures Valid(Finish(c, id, ask), dropped)
    ensures forall i :: Resident(Finish(c, id, ask), i) == Resident(c, i)
  {
    var out := FinishOutcome(c, id, ask);
    if out.Hit? {
      TerminateKeepsCache(c, dropped, id.value, if out.completed then L.HitCompleted else L.HitPromoted,
                          SavedMs(c.objs[id.value], ask), 0.0);
    }
  }

  lemma TerminateKeepsCache(c: Cache, dropped: set<SpecId>, id: SpecId, t: L.Terminal, saved: real, wasted: real)
    requires Valid(c, dropped) && id in c.objs && id !in c.ledger.terminated
    ensures Valid(c.(ledger := L.Terminate(c.ledger, id, t, saved, wasted)), dropped)
    ensures forall i :: Resident(c.(ledger := L.Terminate(c.ledger, id, t, saved, wasted)), i) == Resident(c, i)
  {
    L.TerminateKeepsValid(c.ledger, c.n, id, t, saved, wasted);
    RelabelKeepsTable(c, L.Terminate(c.ledger, id, t, saved, wasted));
  }

  lemma RelabelKeepsTable(c: Cache, l: L.State)
    requires Table(c)
    ensures Table(c.(ledger := l))
    ensures forall i :: Resident(c.(ledger := l), i) == Resident(c, i)
  {
    hide Table;
    TableShrinks(c, c.(ledger := l));
  }

  lemma DiscardKeepsTable(c: Cache, id: SpecId)
    requires Table(c)
    ensures Table(DiscardSpec(c, id))
    ensures SameIdentities(c, DiscardSpec(c, id))
    ensures forall i :: i in c.objs ==> Resident(DiscardSpec(c, id), i) == (Resident(c, i) && i != id)
  {
    hide Table;
    TableShrinks(c, DiscardSpec(c, id));
  }

  /** Discarding keeps the invariant when the ledger already ended the job or its worker failed. */
  lemma DiscardKeepsValid(c: Cache, dropped: set<SpecId>, id: SpecId)
    requires Valid(c, dropped)
    requires id in c.ledger.terminated || id in dropped
    ensures Valid(DiscardSpec(c, id), dropped)
    ensures SameIdentities(c, DiscardSpec(c, id))
    ensures forall i :: i in c.objs ==> Resident(DiscardSpec(c, id), i) == (Resident(c, i) && i != id)
  {
    hide Table, Resident, KeyOf;
    DiscardKeepsTable(c, id);
  }

  lemma {:induction false} ExpireBelowIs(c: Cache, i: nat, now: real)
    requires L.Valid(c.ledger, c.n) && i <= c.n && Table(c)
    ensures L.Valid(ExpireBelow(c, i, now), c.n)
    ensures forall id: SpecId :: id in ExpireBelow(c, i, now).terminated
                         <==> id in c.ledger.terminated || (id < i && Resident(c, id))
  {
    if i > 0 {
      ExpireBelowIs(c, i - 1, now);
      var l := ExpireBelow(c, i - 1, now);
      if Resident(c, i - 1) && i - 1 !in l.terminated {
        L.TerminateKeepsValid(l, c.n, i - 1, L.EpochExpired, 0.0, WastedMs(c.objs[i - 1], now));
      }
    }
  }

  lemma BumpKeepsTable(c: Cache, now: real)
    requires Table(c)
    ensures Table(BumpEpoch(c, now))
    ensures BumpEpoch(c, now).jobs == map[]
    ensures SameIdentities(c, BumpEpoch(c, now))
  {
    var d := BumpEpoch(c, now);
    assert forall s :: Puts(d, s) == Puts(c, s);
    assert d.jobs == map[];
    forall i | i in c.objs
      ensures SlotOf(d.objs[i]) == SlotOf(c.objs[i]) && KeyOf(d.objs[i]) == KeyOf(c.objs[i])
    {
    }
  }

  /** A new epoch starts with an empty table, and nothing that left it is unaccounted for. */
  lemma BumpKeepsValid(c: Cache, dropped: set<SpecId>, now: real)
    requires Valid(c, dropped)
    ensures Valid(BumpEpoch(c, now), dropped)
    ensures BumpEpoch(c, now).jobs == map[]
    ensures SameIdentities(c, BumpEpoch(c, now))
    ensures c.ledger.terminated <= BumpEpoch(c, now).ledger.terminated
  {
    hide ExpireBelow, Table;
    ValidTable(c, dropped);
    ExpireBelowIs(c, c.n, now);
    BumpKeepsTable(c, now);
  }

  lemma MoreDroppedKeepsValid(c: Cache, dropped: set<SpecId>, more: set<SpecId>)
    requires Valid(c, dropped) && dropped <= more
    ensures Valid(c, more)
  {
  }

  /* What a delivered result is */

  /** `finish` answers exactly for completed, current, unended table entries, and never twice. */
  lemma FinishDelivers(c: Cache, dropped: set<SpecId>, id: SpecId, ask: real)
    requires Valid(c, dropped)
    ensures FinishOutcome(c, Some(id), ask).Hit? <==>
              Resident(c, id) && c.objs[id].done && id !in c.ledger.terminated
    ensures FinishOutcome(c, Some(id), ask).Hit? ==>
              FinishOutcome(Finish(c, Some(id), ask), Some(id), ask) == Miss
  {
  }

  /** A hit saves between nothing and the shorter of the run and the head start. */
  lemma SavingBounds(c: Cache, dropped: set<SpecId>, id: SpecId, ask: real)
    requires Valid(c, dropped)
    requires FinishOutcome(c, Some(id), ask).Hit?
    requires c.objs[id].launch <= ask && c.objs[id].duration.value >= 0.0
    ensures var rs := Finish(c, Some(id), ask).ledger.records;
            var last := rs[|rs| - 1];
            && last.End? && last.id == id
            && 0.0 <= last.saved <= Min(c.objs[id].duration.value, ask - c.objs[id].launch)
            && (!c.objs[id].synchronous ==>
                  last.saved == Min(c.objs[id].duration.value, ask - c.objs[id].launch))
  {
  }
}
