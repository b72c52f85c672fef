/**
 * The slot accounting of src/sfx/executor.py: read-lane speculations never
 * hold more than the configured slots, and preemption ends exactly one of
 * them, the cheapest, at most once.
 */
module Executors {
  import opened Common
  import opened Caches
  import L = Ledgers

  /** `future` is whether the pool thread has come back. */
  datatype Spec = Spec(id: SpecId, priority: real, launch: real, future: bool, duration: Option<real>,
                       promoted: bool, failed: bool)

  /** A spec that still counts against the slots at `now`. */
  predicate Occupies(s: Spec, now: real) {
    !s.failed && !(s.future && s.duration.Some? && s.launch + s.duration.value <= now)
  }

  function Cost(s: Spec, now: real): real {
    Min(if s.duration.Some? then s.duration.value else now - s.launch, now - s.launch)
  }

  lemma {:induction false} SmallerCard<T>(a: set<T>, b: set<T>)
    requires a <= b
    ensures |a| <= |b|
    decreases a
  {
    if a != {} {
      var x :| x in a;
      SmallerCard(a - {x}, b - {x});
    }
  }

  class Executor {
    const slots: nat
    const ledger: L.Ledger
    var running: set<Key>
    var specs: map<Key, Spec>

    ghost predicate Valid()
      reads this
    {
      && running <= specs.Keys
      && |running| <= slots
      && (forall k, l :: k in specs && l in specs && k != l ==> specs[k].id != specs[l].id)
    }

    constructor (slots: nat, ledger: L.Ledger)
      ensures Valid() && running == {} && this.slots == slots && this.ledger == ledger
    {
      this.slots, this.ledger := slots, ledger;
      running, specs := {}, map[];
    }

    /** Forgets whoever no longer occupies a slot, nobody else, and counts what is left. */
    method FreeSlots(now: real) returns (free: nat)
      requires Valid()
      modifies this`running
      ensures Valid()
      ensures running == set k | k in old(running) && Occupies(specs[k], now)
      ensures free == slots - |running|
    {
      var todo := running;
      SmallerCard(running, running);
      while todo != {}
        invariant todo <= old(running) && running <= old(running)
        invariant forall k :: k in old(running) ==> (k in running <==> k in todo || Occupies(specs[k], now))
        decreases |todo|
      {
        var key :| key in todo;
        var spec := specs[key];
        if spec.failed {
          running := running - {key};
        } else if spec.future && spec.duration.Some? && spec.launch + spec.duration.value <= now {
          running := running - {key};
        }
        todo := todo - {key};
      }
      SmallerCard(running, old(running));
      free := slots - |running|;
    }

    /** The executor's part of `speculate`: a slot for a freshly reserved job, or nothing. */
    method Speculate(key: Key, id: SpecId, priority: real, now: real) returns (launched: bool)
      requires Valid() && key !in specs && forall k :: k in specs ==> specs[k].id != id
      modifies this
      ensures Valid()
      ensures launched <==> |set k | k in old(running) && Occupies(old(specs)[k], now)| < slots
      ensures launched ==> running == (set k | k in old(running) && Occupies(old(specs)[k], now)) + {key}
                           && specs == old(specs)[key := Spec(id, priority, now, false, None, false, false)]
      ensures !launched ==> specs == old(specs)
    {
      var free := FreeSlots(now);
      if free == 0 {
        return false;
      }
      specs := specs[key := Spec(id, priority, now, false, None, false, false)];
      running := running + {key};
      launched := true;
    }

    /** A pool thread coming back: a failure frees the slot at the next count, a result when its time is up. */
    method CameBack(key: Key, duration: Option<real>)
      requires Valid() && key in specs
      modifies this`specs
      ensures Valid()
      ensures specs == old(specs)[key := old(specs)[key].(future := true, duration := duration, failed := duration == None)]
    {
      specs := specs[key := specs[key].(future := true, duration := duration, failed := duration == None)];
    }

    method Promote(key: Key)
      requires Valid() && key in specs
      modifies this`specs
      ensures Valid() && specs == old(specs)[key := old(specs)[key].(promoted := true)]
    {
      specs := specs[key := specs[key].(promoted := true)];
    }

    predicate Preemptible(key: Key)
      reads this, ledger
    {
      key in specs && key in running && !specs[key].promoted && specs[key].id !in ledger.terminated
    }

    /** The scan of `_preempt_one` for the preemptible spec of least priority. */
    method Victim() returns (victim: Option<Key>)
      requires Valid()
      ensures victim == None <==> forall k :: !Preemptible(k)
      ensures victim.Some? ==>
                Preemptible(victim.value) && forall k :: Preemptible(k) ==> specs[victim.value].priority <= specs[k].priority
    {
      victim := None;
      var todo := running;
      while todo != {}
        invariant todo <= running
        invariant victim.Some? ==> Preemptible(victim.value)
        invariant forall k :: Preemptible(k) && k !in todo ==>
                    victim.Some? && specs[victim.value].priority <= specs[k].priority
        decreases |todo|
      {
        var key :| key in todo;
        if !specs[key].promoted && specs[key].id !in ledger.terminated
           && (victim == None || specs[key].priority < specs[victim.value].priority) {
          victim := Some(key);
        }
        todo := todo - {key};
      }
    }

    /**
     * `_preempt_one`: the running, unpromoted, unterminated spec of least
     * priority is ended as preempted and gives up its slot; the ledger never
     * sees it end twice.
     */
    method PreemptOne(now: real) returns (victim: Option<Key>)
      requires Valid()
      modifies this`running, ledger
      ensures Valid()
      ensures victim == None <==> forall k :: !old(Preemptible(k))
      ensures victim == None ==> running == old(running) && ledger.View() == old(ledger.View())
      ensures victim.Some? ==>
                && old(Preemptible(victim.value)) && running == old(running) - {victim.value}
                && (forall k :: old(Preemptible(k)) ==> specs[victim.value].priority <= specs[k].priority)
                && ledger.View() == L.Terminate(old(ledger.View()), specs[victim.value].id, L.Preempted, 0.0,
                                                Cost(specs[victim.value], now)).(raised := false)
                && specs[victim.value].id in ledger.terminated && specs[victim.value].id !in old(ledger.terminated)
    {
      victim := Victim();
      assert forall k :: Preemptible(k) == old(Preemptible(k));
      if victim == None {
        return;
      }
      var spec := specs[victim.value];
      var dur := if spec.duration.Some? then spec.duration.value else now - spec.launch;
      var _ := ledger.Terminal(spec.id, L.Preempted, 0.0, Min(dur, now - spec.launch));
      SmallerCard(running - {victim.value}, running);
      running := running - {victim.value};
    }
  }
}
