/**
 * The mutable cache of src/sfx/cache.py, proved against the functions of
 * `Caches`. A job object is a row of `objs` under its spec id.
 */
module CacheObjects {
  import opened Common
  import opened Caches
  import L = Ledgers

  class CacheObject {
    const ledger: L.Ledger
    var epoch: nat
    var jobs: map<Key, SpecId>
    var order: seq<SpecId>  // the dictionary's values in insertion order
    var objs: map<SpecId, Job>
    var puts: map<Slot, nat>
    var serves: map<Slot, nat>
    var n: nat

    function View(): Cache
      reads this, ledger
    {
      Cache(ledger.View(), epoch, jobs, objs, puts, serves, n)
    }

    ghost predicate Valid()
      reads this, ledger
    {
      Lists(order, View()) && Numbered(View())
    }

    constructor (ledger: L.Ledger)
      requires ledger.View() == L.EMPTY
      ensures Valid() && View() == EMPTY && this.ledger == ledger
    {
      this.ledger := ledger;
      epoch, jobs, order, objs, puts, serves, n := 0, map[], [], map[], map[], map[], 0;
    }

    method Reserve(call: Call, launch: real, synchronous: bool) returns (id: SpecId)
      requires Valid()
      modifies this, ledger
      ensures Valid() && id == old(n)
      ensures View() == Caches.Reserve(old(View()), call, launch, synchronous)
    {
      hide Lists, Numbered;
      ghost var before := View();
      ReserveNumbered(before, call, launch, synchronous);
      var slot := Slot(call, epoch);
      var occ := GetOr(puts, slot, 0);
      id := n;
      puts := puts[slot := occ + 1];
      var job := Job(call, occ, epoch, launch, None, None, synchronous, false);
      objs := objs[id := job];
      jobs := jobs[KeyOf(job) := id];
      order := order + [id];
      ledger.Record(id);
      n := n + 1;
      assert View() == Caches.Reserve(before, call, launch, synchronous);
      ListsAppend(before, View(), old(order), id);
    }

    /** The search of `complete` and `discard_spec` through the dictionary's values. */
    method Find(id: SpecId) returns (at: nat)
      requires Lists(order, View())
      ensures at <= |order|
      ensures at < |order| ==> order[at] == id
      ensures (at < |order|) == Resident(View(), id)
    {
      at := 0;
      while at < |order|
        invariant at <= |order|
        invariant id !in order[..at]
      {
        if order[at] == id {
          return;
        }
        at := at + 1;
      }
    }

    method Complete(id: SpecId, result: Output, duration: real)
      requires Valid()
      modifies this`objs
      ensures Valid()
      ensures View() == Caches.Complete(old(View()), id, result, duration)
    {
      var at := Find(id);
      if at < |order| {
        objs := objs[id := objs[id].(result := Some(result), duration := Some(duration), done := true)];
      }
      assert View() == Caches.Complete(old(View()), id, result, duration);
    }

    method Claim(call: Call) returns (job: Option<SpecId>)
      requires Valid()
      modifies this`serves
      ensures Valid()
      ensures View() == Caches.Claim(old(View()), call)
      ensures job == ClaimedId(old(View()), call)
    {
      var slot := Slot(call, epoch);
      var occ := GetOr(serves, slot, 0);
      job := None;
      while occ < GetOr(puts, slot, 0)
        invariant Serves(View(), slot) <= occ
        invariant Serves(View(), slot) < occ ==> occ <= Puts(View(), slot)
        invariant forall k :: Serves(View(), slot) <= k < occ ==> Key(slot, k) !in jobs
      {
        if Key(slot, occ) in jobs {
          job := Some(jobs[Key(slot, occ)]);
          break;
        }
        occ := occ + 1;
      }
      StopIs(View(), slot, occ);
      serves := serves[slot := if job == None then occ else occ + 1];
      assert View() == Caches.Claim(old(View()), call);
    }

    method Finish(job: Option<SpecId>, ask: real) returns (outcome: Outcome)
      requires Valid()
      requires job.Some? ==> job.value in objs
      requires job.Some? && objs[job.value].done && Resident(View(), job.value) ==> objs[job.value].result.Some?
      modifies ledger
      ensures Valid()
      ensures View() == Caches.Finish(old(View()), job, ask)
      ensures outcome == FinishOutcome(old(View()), job, ask)
    {
      if job == None {
        return Miss;
      }
      var id, j := job.value, objs[job.value];
      if !j.done || j.duration.None? || j.epoch != epoch
         || KeyOf(j) !in jobs || jobs[KeyOf(j)] != id || id in ledger.terminated {
        return Miss;
      }
      var saved := if j.synchronous then 0.0 else Max(0.0, Min(j.duration.value, ask - j.launch));
      var completed := j.done && j.launch + j.duration.value <= ask;
      var _ := ledger.Terminal(id, if completed then L.HitCompleted else L.HitPromoted, saved, 0.0);
      return Hit(completed, j.result.value);
    }

    method DiscardSpec(id: SpecId)
      requires Valid()
      modifies this
      ensures Valid()
      ensures View() == Caches.DiscardSpec(old(View()), id)
    {
      var at := Find(id);
      if at == |order| {
        return;
      }
      jobs := jobs - {KeyOf(objs[id])};
      order := order[..at] + order[at + 1..];
      objs := objs[id := objs[id].(done := true)];
      assert View() == Caches.DiscardSpec(old(View()), id);
      ListsRemove(old(View()), View(), old(order), at);
    }

    method BumpEpoch(now: real)
      requires Valid()
      modifies this, ledger
      ensures Valid()
      ensures View() == Caches.BumpEpoch(old(View()), now)
    {
      hide Lists, Numbered, ExpireList, ExpireBelow, Woken, Resident, KeyOf;
      BumpIs(View(), order, now);
      var expiring := epoch;
      epoch := epoch + 1;
      ExpireAll(expiring, now);
      DropExpired(expiring);
      assert jobs == map[];
      assert View() == Caches.BumpEpoch(old(View()), now);
    }

    /** The rebuilt dictionary of `bump_epoch`. */
    method DropExpired(expiring: nat)
      requires forall k :: k in jobs ==> jobs[k] in objs
      modifies this`jobs, this`order
      ensures jobs == map k | k in old(jobs) && objs[old(jobs)[k]].epoch > expiring :: old(jobs)[k]
      ensures order == []
    {
      jobs := map k | k in jobs && objs[jobs[k]].epoch > expiring :: jobs[k];
      order := [];
    }

    /** The loop of `bump_epoch`. */
    method ExpireAll(expiring: nat, now: real)
      requires forall id :: id in order ==> id in objs && objs[id].epoch <= expiring
      modifies this`objs, ledger
      ensures objs == Woken(old(objs), order)
      ensures ledger.View() == ExpireList(old(ledger.View()), old(objs), order, now)
    {
      var i := 0;
      while i < |order|
        invariant 0 <= i <= |order|
        invariant objs == Woken(old(objs), order[..i])
        invariant ledger.View() == ExpireList(old(ledger.View()), old(objs), order[..i], now)
      {
        var id := order[i];
        assert order[..i + 1][..i] == order[..i];
        WokenNext(old(objs), order, i, now);
        var job := objs[id];
        if job.epoch <= expiring {
          if id !in ledger.terminated {
            var dur := if job.duration.Some? then job.duration.value else now - job.launch;
            var _ := ledger.Terminal(id, L.EpochExpired, 0.0, Min(dur, now - job.launch));
          }
          objs := objs[id := job.(done := true)];
        }
        i := i + 1;
      }
      assert order[..i] == order;
    }
  }

  lemma WokenNext(objs: map<SpecId, Job>, order: seq<SpecId>, i: nat, now: real)
    requires i < |order| && order[i] in objs
    ensures var row := Woken(objs, order[..i])[order[i]];
            && row.epoch == objs[order[i]].epoch && WastedMs(row, now) == WastedMs(objs[order[i]], now)
            && Woken(objs, order[..i + 1]) == Woken(objs, order[..i])[order[i] := row.(done := true)]
  {
  }

  /** The ledger after expiring `ids` one after the other. */
  function ExpireList(l: L.State, objs: map<SpecId, Job>, ids: seq<SpecId>, now: real): L.State
    requires forall id :: id in ids ==> id in objs
  {
    if ids == [] then l
    else
      var id := ids[|ids| - 1];
      var before := ExpireList(l, objs, ids[..|ids| - 1], now);
      if id in before.terminated then before
      else L.Terminate(before, id, L.EpochExpired, 0.0, WastedMs(objs[id], now))
  }

  lemma ExpireNext(c: Cache, order: seq<SpecId>, i: nat, now: real)
    requires Lists(order, c) && Numbered(c) && i < |order|
    ensures Resident(c, order[i]) && c.objs[order[i]].epoch <= c.epoch
    ensures ExpireBelow(c, order[i], now) == ExpireBelow(c, Passed(order, i), now)
  {
    SkipToNext(c, order, i, now);
  }

  lemma {:induction false} ExpireListIs(c: Cache, order: seq<SpecId>, i: nat, now: real)
    requires Lists(order, c) && Numbered(c) && i <= |order|
    requires forall id :: id in order ==> id in c.objs
    ensures ExpireList(c.ledger, c.objs, order[..i], now) == ExpireBelow(c, Passed(order, i), now)
  {
    hide Lists, Numbered, KeyOf;
    if i > 0 {
      ExpireListIs(c, order, i - 1, now);
      ExpireNext(c, order, i - 1, now);
      assert order[..i][..i - 1] == order[..i - 1];
    }
  }

  /** The rows with the done flag of `ids` set. */
  function Woken(objs: map<SpecId, Job>, ids: seq<SpecId>): map<SpecId, Job> {
    map id | id in objs :: if id in ids then objs[id].(done := true) else objs[id]
  }

  lemma BumpIs(c: Cache, order: seq<SpecId>, now: real)
    requires Lists(order, c) && Numbered(c)
    ensures BumpEpoch(c, now) == c.(epoch := c.epoch + 1, ledger := ExpireBelow(c, c.n, now),
                                    jobs := map[], objs := Woken(c.objs, order))
    ensures forall k :: k in c.jobs ==> c.jobs[k] in c.objs && c.objs[c.jobs[k]].epoch <= c.epoch
    ensures forall id :: id in order ==> id in c.objs && c.objs[id].epoch <= c.epoch
    ensures ExpireList(c.ledger, c.objs, order, now) == ExpireBelow(c, c.n, now)
    ensures Lists([], BumpEpoch(c, now)) && Numbered(BumpEpoch(c, now))
  {
    hide Lists, Numbered, ExpireBelow, ExpireList, Passed, KeyOf;
    ListedRows(c, order);
    BumpRows(c, order, now);
    ExpireListIs(c, order, |order|, now);
    SkipToNext(c, order, |order|, now);
    assert order[..|order|] == order;
  }

  lemma ListedRows(c: Cache, order: seq<SpecId>)
    requires Lists(order, c) && Numbered(c)
    ensures forall k :: k in c.jobs ==> c.jobs[k] in c.objs && c.objs[c.jobs[k]].epoch <= c.epoch
    ensures forall k :: k in c.jobs ==> k.slot.epoch <= c.epoch
    ensures forall id :: id in order ==> id in c.objs && c.objs[id].epoch <= c.epoch
    ensures forall id: SpecId :: Resident(c, id) <==> id in order
  {
  }

  lemma BumpRows(c: Cache, order: seq<SpecId>, now: real)
    requires Lists(order, c) && Numbered(c)
    ensures BumpEpoch(c, now).jobs == map[]
    ensures BumpEpoch(c, now).objs == Woken(c.objs, order)
    ensures Lists([], BumpEpoch(c, now)) && Numbered(BumpEpoch(c, now))
  {
    hide ExpireBelow;
    ListedRows(c, order);
    assert BumpEpoch(c, now).jobs == map[];
  }

  /** What `Table` says about numbers: none has been handed out twice. */
  ghost predicate Numbered(c: Cache) {
    && (forall id: SpecId :: id in c.objs ==> id < c.n)
    && (forall k :: k in c.jobs ==> k.slot.epoch == c.epoch && k.occurrence < Puts(c, k.slot))
    && (forall k :: k in c.jobs ==> c.jobs[k] in c.objs && KeyOf(c.objs[c.jobs[k]]) == k)
  }

  /** `order` is the table's jobs by ascending id. */
  ghost predicate Lists(order: seq<SpecId>, c: Cache) {
    && (forall j :: 0 <= j < |order| ==> Resident(c, order[j]))
    && (forall i, j :: 0 <= i < j < |order| ==> order[i] < order[j])
    && (forall id: SpecId :: Resident(c, id) ==> id in order)
  }

  lemma ListsAppend(c: Cache, d: Cache, order: seq<SpecId>, id: SpecId)
    requires Lists(order, c) && Numbered(c) && id == c.n
    requires forall i: SpecId :: Resident(d, i) <==> Resident(c, i) || i == id
    ensures Lists(order + [id], d)
  {
    assert forall j :: 0 <= j < |order| ==> Resident(c, order[j]) && order[j] < id;
  }

  lemma ListsRemove(c: Cache, d: Cache, order: seq<SpecId>, at: nat)
    requires Lists(order, c) && at < |order|
    requires forall i: SpecId :: Resident(d, i) <==> Resident(c, i) && i != order[at]
    ensures Lists(order[..at] + order[at + 1..], d)
  {
    hide Resident;
    var rest := order[..at] + order[at + 1..];
    assert forall j :: 0 <= j < |rest| ==> rest[j] == order[if j < at then j else j + 1];
    forall id: SpecId | Resident(d, id)
      ensures id in rest
    {
      var j :| 0 <= j < |order| && order[j] == id;
      assert rest[if j < at then j else j - 1] == id;
    }
  }

  /** Every id the expiry loop has dealt with before its `i`-th job. */
  function Passed(order: seq<SpecId>, i: nat): nat
    requires i <= |order|
  {
    if i == 0 then 0 else order[i - 1] + 1
  }

  lemma ReserveNumbered(c: Cache, call: Call, launch: real, sync: bool)
    requires Numbered(c)
    ensures Numbered(Reserve(c, call, launch, sync))
    ensures forall i: SpecId :: Resident(Reserve(c, call, launch, sync), i) <==> Resident(c, i) || i == c.n
  {
    var d := Reserve(c, call, launch, sync);
    assert KeyOf(Fresh(c, call, launch, sync)) !in c.jobs;
    assert d.jobs[KeyOf(d.objs[c.n])] == c.n;
  }

  lemma StopIs(c: Cache, s: Slot, occ: nat)
    requires Serves(c, s) <= occ && (Serves(c, s) < occ ==> occ <= Puts(c, s))
    requires forall k :: Serves(c, s) <= k < occ ==> Key(s, k) !in c.jobs
    requires occ < Puts(c, s) ==> Key(s, occ) in c.jobs
    ensures Stop(c, s) == occ
  {
  }

  lemma {:induction false} ExpireSkips(c: Cache, lo: nat, hi: nat, now: real)
    requires lo <= hi
    requires forall id :: lo <= id < hi ==> !Resident(c, id)
    ensures ExpireBelow(c, hi, now) == ExpireBelow(c, lo, now)
    decreases hi - lo
  {
    if lo < hi {
      assert !Resident(c, hi - 1);
      ExpireSkips(c, lo, hi - 1, now);
    }
  }

  /** Between two listed jobs nothing is resident, so nothing expires. */
  lemma SkipToNext(c: Cache, order: seq<SpecId>, i: nat, now: real)
    requires i <= |order|
    requires Lists(order, c) && Numbered(c)
    ensures var next := if i == |order| then c.n else order[i];
            ExpireBelow(c, next, now) == ExpireBelow(c, Passed(order, i), now)
  {
    var next := if i == |order| then c.n else order[i];
    forall id | Passed(order, i) <= id < next
      ensures !Resident(c, id)
    {
      assert forall a :: i <= a < |order| ==> order[i] <= order[a];
      assert forall a :: 0 <= a < i ==> order[a] <= order[i - 1];
    }
    ExpireSkips(c, Passed(order, i), next, now);
  }
}
