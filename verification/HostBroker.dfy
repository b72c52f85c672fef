/**
 * The poison state machine of src/eval/sidecar_rpc.py:89-238. Each method is
 * what runs between two awaits; any order of them that the handler states
 * allow is an interleaving of the event loop.
 */
module HostBrokers {
  import opened Common

  type Task = nat
  type Handler = nat

  /** What the outside world sees of the broker, in order. */
  datatype Event =
    | Poisoned
    | Dispatched(task: Task)
    | Finished(task: Task)
    | WroteOk
    | WroteFailure
    | Closing
    | Closed(normally: bool)
    | Terminating

  /** Every event was allowed by what came before it. */
  ghost predicate Safe(log: seq<Event>) {
    log == [] ||
    var before := log[..|log| - 1];
    && Safe(before)
    && match log[|log| - 1]
       case Poisoned => Poisoned !in before
       case Dispatched(t) => Poisoned !in before && Closing !in before && Dispatched(t) !in before
       case WroteOk => Poisoned !in before
       case Closed(normally) =>
         Closing in before && (normally ==> Poisoned !in before && forall t :: Dispatched(t) in before ==> Finished(t) in before)
       case Terminating => Poisoned in before && Terminating !in before
       case _ => true
  }

  /** Poison is sticky: after it no request is dispatched, no ok reply written and no close returns normally. */
  lemma {:induction false} NothingOkAfterPoison(log: seq<Event>, i: nat, j: nat)
    requires Safe(log) && i < j < |log| && log[i] == Poisoned
    ensures log[j] != WroteOk && !log[j].Dispatched? && log[j] != Closed(true) && log[j] != Poisoned
    decreases |log|
  {
    var before := log[..|log| - 1];
    if j < |log| - 1 {
      NothingOkAfterPoison(before, i, j);
    } else {
      assert before[i] == Poisoned && before[i] in before;
    }
  }

  /**
   * A close that returns normally: the broker was not poisoned before it, and
   * every worker ever dispatched, even later, had finished.
   */
  lemma {:induction false} NormalCloseIsQuiet(log: seq<Event>, c: nat, k: nat)
    requires Safe(log) && c < |log| && log[c] == Closed(true) && k < |log|
    ensures log[k] == Poisoned ==> c < k
    ensures log[k].Dispatched? ==> exists f :: 0 <= f < c && log[f] == Finished(log[k].task)
    decreases |log|
  {
    var before := log[..|log| - 1];
    if c == |log| - 1 {
      assert k < c ==> log[k] == before[k] && before[k] in before;
      if log[k].Dispatched? {
        assert Finished(log[k].task) in before;
        var f :| 0 <= f < |before| && before[f] == Finished(log[k].task);
        assert log[f] == Finished(log[k].task);
      }
    } else if k < |log| - 1 {
      NormalCloseIsQuiet(before, c, k);
      if log[k].Dispatched? {
        var f :| 0 <= f < c && before[f] == Finished(before[k].task);
        assert log[f] == Finished(log[k].task);
      }
    } else {
      ClosingBefore(before, c);
    }
  }

  lemma {:induction false} ClosingBefore(log: seq<Event>, c: nat)
    requires Safe(log) && c < |log| && log[c].Closed?
    ensures Closing in log
    decreases |log|
  {
    var before := log[..|log| - 1];
    if c < |log| - 1 {
      ClosingBefore(before, c);
    }
    assert forall e :: e in before ==> e in log;
  }

  /** What the outside world sees of trouble: poison if it is new, and the termination it starts. No ok reply. */
  function Trouble(first: bool, terminates: bool): seq<Event> {
    (if first then [Poisoned] else []) + (if terminates then [Terminating] else [])
  }

  /** The first reason for poison is the one that stays. */
  function First(known: Option<string>, reason: string): Option<string> {
    if known.Some? then known else Some(reason)
  }

  /** Once closed and drained, always drained. */
  lemma {:induction false} DrainedStays(drained: seq<Event>, log: seq<Event>)
    requires Safe(log) && drained <= log && Closing in drained
    requires Drained(drained)
    ensures Drained(log)
    decreases |log|
  {
    if |drained| < |log| {
      var before := log[..|log| - 1];
      StillClosing(drained, before);
      DrainedStays(drained, before);
      assert log == before + [log[|log| - 1]];
    } else {
      assert log == drained;
    }
  }

  /** Once closed, whoever has not finished was already being waited for. */
  lemma {:induction false} WaitedStays(begun: seq<Event>, log: seq<Event>, waited: set<Task>)
    requires Safe(log) && begun <= log && Closing in begun
    requires forall t :: Dispatched(t) in begun && Finished(t) !in begun ==> t in waited
    ensures forall t :: Dispatched(t) in log && Finished(t) !in log ==> t in waited
    decreases |log|
  {
    if |begun| < |log| {
      var before := log[..|log| - 1];
      StillClosing(begun, before);
      WaitedStays(begun, before, waited);
      assert log == before + [log[|log| - 1]];
    } else {
      assert log == begun;
    }
  }

  lemma StillClosing(begun: seq<Event>, log: seq<Event>)
    requires begun <= log && Closing in begun
    ensures Closing in log
  {
    var i :| 0 <= i < |begun| && begun[i] == Closing;
    assert log[i] == Closing;
  }

  /** Where a handler is suspended. */
  datatype State = Reading | Waiting(task: Task) | Quiescing | Gone

  /** A worker's answer once its envelope has been checked. */
  datatype Answer = Good | Declines | Fails | Invalid

  /** The broker's fields say what its log says. */
  ghost predicate Tracks(log: seq<Event>, poisoned: bool, closed: bool, terminating: bool, tasks: Task,
                         inflight: set<Task>)
  {
    && Safe(log)
    && (poisoned <==> Poisoned in log)
    && (closed <==> Closing in log)
    && (terminating <==> Terminating in log)
    && (forall t: Task :: Dispatched(t) in log ==> t < tasks)
    && (forall t :: Dispatched(t) in log && Finished(t) !in log ==> t in inflight)
  }

  ghost predicate Drained(log: seq<Event>) {
    forall t :: Dispatched(t) in log ==> Finished(t) in log
  }

  /** What the log may be extended by, and what the fields then have to be. */
  lemma TracksNext(log: seq<Event>, poisoned: bool, closed: bool, terminating: bool, tasks: Task,
                   inflight: set<Task>, e: Event)
    requires Tracks(log, poisoned, closed, terminating, tasks, inflight)
    ensures e == Poisoned && !poisoned ==> Tracks(log + [e], true, closed, terminating, tasks, inflight)
    ensures e == Closing ==> Tracks(log + [e], poisoned, true, terminating, tasks, inflight)
    ensures e == Terminating && poisoned && !terminating ==> Tracks(log + [e], poisoned, closed, true, tasks, inflight)
    ensures e == Dispatched(tasks) && !poisoned && !closed ==>
              Tracks(log + [e], poisoned, closed, terminating, tasks + 1, inflight + {tasks})
    ensures e.Finished? ==> Tracks(log + [e], poisoned, closed, terminating, tasks, inflight - {e.task})
    ensures e == WroteFailure || (e == WroteOk && !poisoned) ==>
              Tracks(log + [e], poisoned, closed, terminating, tasks, inflight)
    ensures e.Closed? && closed && (e.normally ==> !poisoned && Drained(log)) ==>
              Tracks(log + [e], poisoned, closed, terminating, tasks, inflight)
  {
    Extends(log, e);
  }

  class HostBroker {
    const onPoison: bool
    var poisonReason: Option<string>
    var inflight: set<Task>
    var handlers: map<Handler, State>
    var closed: bool
    var terminating: bool
    var workersQuiesced: bool
    var tasks: Task
    var log: seq<Event>

    ghost predicate Valid()
      reads this
    {
      Tracks(log, poisonReason.Some?, closed, terminating, tasks, inflight) && (workersQuiesced ==> terminating)
    }

    constructor (onPoison: bool)
      ensures Valid() && log == [] && poisonReason == None
    {
      this.onPoison := onPoison;
      poisonReason, inflight, handlers, closed := None, {}, map[], false;
      terminating, workersQuiesced, tasks, log := false, false, 0, [];
    }

    /** `_poison` keeps the first reason. */
    method Poison(reason: string)
      requires Valid()
      modifies this`poisonReason, this`log
      ensures Valid() && poisonReason.Some? && poisonReason == First(old(poisonReason), reason)
      ensures old(poisonReason).Some? ==> poisonReason == old(poisonReason) && log == old(log)
      ensures old(poisonReason) == None ==> poisonReason == Some(reason) && log == old(log) + [Poisoned]
    {
      hide Safe, Tracks;
      if poisonReason == None {
        TracksNext(log, false, closed, terminating, tasks, inflight, Poisoned);
        poisonReason := Some(reason);
        log := log + [Poisoned];
      }
    }

    method Accept(h: Handler)
      requires Valid() && h !in handlers
      modifies this`handlers
      ensures Valid() && handlers == old(handlers)[h := Reading]
    {
      handlers := handlers[h := Reading];
    }

    /** The head of `_quiesce_after_poison`: the termination callback is started once. */
    method StartQuiescing()
      requires Valid()
      modifies this`terminating, this`log
      ensures Valid()
      ensures log == old(log) + if poisonReason.Some? && onPoison && !old(terminating) then [Terminating] else []
      ensures terminating == (old(terminating) || (poisonReason.Some? && onPoison))
    {
      hide Safe, Tracks;
      if poisonReason.Some? && onPoison && !terminating {
        TracksNext(log, true, closed, false, tasks, inflight, Terminating);
        terminating := true;
        log := log + [Terminating];
      }
    }

    /** A failure response: it waits for quiescence only if there is poison to quiesce. */
    method Fail(h: Handler)
      requires Valid()
      modifies this`handlers, this`terminating, this`log
      ensures Valid()
      ensures log == old(log) + if poisonReason == None then [WroteFailure]
                                else if onPoison && !old(terminating) then [Terminating] else []
      ensures handlers == old(handlers)[h := if poisonReason.Some? then Quiescing else Gone]
      ensures terminating == (old(terminating) || (poisonReason.Some? && onPoison))
    {
      hide Safe, Tracks;
      if poisonReason.Some? {
        StartQuiescing();
        handlers := handlers[h := Quiescing];
      } else {
        TracksNext(log, false, closed, terminating, tasks, inflight, WroteFailure);
        log := log + [WroteFailure];
        handlers := handlers[h := Gone];
      }
    }

    /** The request line never came, was cut short, or was not JSON. */
    method ReadFailed(h: Handler)
      requires Valid() && h in handlers && handlers[h] == Reading
      modifies this`poisonReason, this`handlers, this`terminating, this`log
      ensures Valid() && poisonReason == First(old(poisonReason), "malformed_or_failed_request")
      ensures log == old(log) + Trouble(old(poisonReason) == None, onPoison && !old(terminating))
      ensures handlers == old(handlers)[h := Quiescing] && terminating == (old(terminating) || onPoison)
    {
      hide Safe, Tracks;
      Poison("malformed_or_failed_request");
      Fail(h);
    }

    /** A request has been read: the head of `_dispatch` up to its wait. */
    method Dispatch(h: Handler, wellFormed: bool)
      requires Valid() && h in handlers && handlers[h] == Reading
      modifies this`poisonReason, this`inflight, this`handlers, this`terminating, this`tasks, this`log
      ensures Valid()
      ensures wellFormed && !old(closed) && old(poisonReason) == None ==>
                && poisonReason == None && log == old(log) + [Dispatched(old(tasks))] && inflight == old(inflight) + {old(tasks)}
                && handlers == old(handlers)[h := Waiting(old(tasks))] && terminating == old(terminating)
      ensures !(wellFormed && !old(closed) && old(poisonReason) == None) ==>
                && poisonReason == First(old(poisonReason), if old(closed) then "request_after_close"
                                                            else "malformed_or_failed_request")
                && log == old(log) + Trouble(old(poisonReason) == None, onPoison && !old(terminating))
                && handlers == old(handlers)[h := Quiescing] && terminating == (old(terminating) || onPoison)
                && inflight == old(inflight) && tasks == old(tasks)
    {
      hide Safe, Tracks;
      if closed {
        Poison("request_after_close");
      }
      if poisonReason.Some? {
        Fail(h);
        return;
      }
      if !wellFormed {
        Poison("malformed_or_failed_request");
        Fail(h);
        return;
      }
      TracksNext(log, false, false, terminating, tasks, inflight, Dispatched(tasks));
      inflight := inflight + {tasks};
      handlers := handlers[h := Waiting(tasks)];
      log := log + [Dispatched(tasks)];
      tasks := tasks + 1;
    }

    /** The done callback of a worker task. */
    method WorkerDone(task: Task)
      requires Valid()
      modifies this`inflight, this`log
      ensures Valid() && inflight == old(inflight) - {task} && log == old(log) + [Finished(task)]
    {
      hide Safe, Tracks;
      TracksNext(log, poisonReason.Some?, closed, terminating, tasks, inflight, Finished(task));
      inflight := inflight - {task};
      log := log + [Finished(task)];
    }

    /**
     * The tail of `_dispatch` and of `_handle` once the worker has answered.
     * Nothing suspends between the poison check and the write of an ok reply.
     */
    method WorkerAnswered(h: Handler, answer: Answer)
      requires Valid() && h in handlers && handlers[h].Waiting?
      modifies this`poisonReason, this`handlers, this`terminating, this`log
      ensures Valid()
      ensures poisonReason == match answer
                              case Invalid => First(old(poisonReason), "worker_exit_or_channel_failure")
                              case Fails => First(old(poisonReason), "worker_reported_failure")
                              case _ => old(poisonReason)
      ensures poisonReason == None ==>
                && log == old(log) + [if answer == Good then WroteOk else WroteFailure]
                && handlers == old(handlers)[h := Gone] && terminating == old(terminating)
      ensures poisonReason.Some? ==>
                && log == old(log) + Trouble(old(poisonReason) == None, onPoison && !old(terminating))
                && handlers == old(handlers)[h := Quiescing] && terminating == (old(terminating) || onPoison)
    {
      hide Safe, Tracks;
      if answer == Invalid {
        Poison("worker_exit_or_channel_failure");
      } else if answer == Fails {
        Poison("worker_reported_failure");
      }
      if answer == Good && poisonReason == None {
        TracksNext(log, false, closed, terminating, tasks, inflight, WroteOk);
        log := log + [WroteOk];
        handlers := handlers[h := Gone];
      } else {
        Fail(h);
      }
    }

    /** The worker did not answer in time, or its transport failed. */
    method WorkerLost(h: Handler)
      requires Valid() && h in handlers && handlers[h].Waiting?
      modifies this`poisonReason, this`handlers, this`terminating, this`log
      ensures Valid() && poisonReason == First(old(poisonReason), "worker_transport_failure")
      ensures log == old(log) + Trouble(old(poisonReason) == None, onPoison && !old(terminating))
      ensures handlers == old(handlers)[h := Quiescing] && terminating == (old(terminating) || onPoison)
    {
      hide Safe, Tracks;
      Poison("worker_transport_failure");
      Fail(h);
    }

    /** The termination callback has answered. */
    method Terminated(answer: bool)
      requires Valid() && terminating
      modifies this`workersQuiesced
      ensures Valid() && workersQuiesced == answer
    {
      workersQuiesced := answer;
    }

    /** Quiescence is over, one way or another: the failure is written. */
    method Quiesced(h: Handler)
      requires Valid() && h in handlers && handlers[h] == Quiescing
      modifies this`handlers, this`log
      ensures Valid() && log == old(log) + [WroteFailure] && handlers == old(handlers)[h := Gone]
    {
      hide Safe, Tracks;
      TracksNext(log, poisonReason.Some?, closed, terminating, tasks, inflight, WroteFailure);
      log := log + [WroteFailure];
      handlers := handlers[h := Gone];
    }

    /** The handler was cancelled, at whatever await. */
    method HandlerBroken(h: Handler, reason: string)
      requires Valid() && h in handlers
      modifies this`poisonReason, this`handlers, this`log
      ensures Valid() && poisonReason == First(old(poisonReason), reason) && handlers == old(handlers)[h := Gone]
      ensures log == old(log) + Trouble(old(poisonReason) == None, false)
    {
      hide Safe, Tracks;
      Poison(reason);
      handlers := handlers[h := Gone];
    }

    /** The reply could not be delivered: poison, then quiescence like any other. */
    method ReplyLost(h: Handler)
      requires Valid() && h in handlers
      modifies this`poisonReason, this`handlers, this`terminating, this`log
      ensures Valid() && poisonReason == First(old(poisonReason), "controller_reply_lost")
      ensures log == old(log) + Trouble(old(poisonReason) == None, onPoison && !old(terminating))
      ensures handlers == old(handlers)[h := Gone] && terminating == (old(terminating) || onPoison)
    {
      hide Safe, Tracks;
      Poison("controller_reply_lost");
      StartQuiescing();
      handlers := handlers[h := Gone];
    }

    /** The head of `aclose`: the tasks it will wait for. */
    method CloseBegin() returns (waited: set<Task>, ghost begun: seq<Event>)
      requires Valid()
      modifies this`closed, this`log
      ensures Valid() && closed && waited == inflight
      ensures begun == log && Closing in begun
      ensures forall t :: Dispatched(t) in begun && Finished(t) !in begun ==> t in waited
      ensures log == old(log) + if old(closed) then [] else [Closing]
    {
      if !closed {
        TracksNext(log, poisonReason.Some?, false, terminating, tasks, inflight, Closing);
        log := log + [Closing];
      }
      closed := true;
      waited := inflight;
      begun := log;
    }

    /**
     * The wait is over; `pending` are the tasks among `waited` that have not
     * finished, whatever else ran since the wait began.
     */
    method CloseDrained(waited: set<Task>, pending: set<Task>, ghost begun: seq<Event>)
        returns (ghost drained: seq<Event>)
      requires Valid() && begun <= log && Closing in begun
      requires forall t :: Dispatched(t) in begun && Finished(t) !in begun ==> t in waited
      requires forall t :: t in waited && t !in pending ==> Finished(t) in log
      modifies this`poisonReason, this`log
      ensures Valid() && drained == log && Closing in drained
      ensures poisonReason == if pending != {} then First(old(poisonReason), "worker_drain_timeout") else old(poisonReason)
      ensures log == old(log) + Trouble(pending != {} && old(poisonReason) == None, false)
      ensures poisonReason == None ==> Drained(drained)
    {
      WaitedStays(begun, log, waited);
      StillClosing(begun, log);
      if pending != {} {
        Poison("worker_drain_timeout");
      }
      drained := log;
    }

    /** `aclose` quiesces on its own account, with or without a handler left to do so. */
    method CloseQuiesce()
      requires Valid() && closed
      modifies this`terminating, this`log
      ensures Valid()
      ensures poisonReason.Some? && onPoison ==> terminating
      ensures log == old(log) + if poisonReason.Some? && onPoison && !old(terminating) then [Terminating] else []
    {
      StartQuiescing();
    }

    /** The last statement of `aclose`, whatever else ran since the tasks were drained. */
    method CloseEnd(ghost drained: seq<Event>) returns (normally: bool)
      requires Valid() && drained <= log && Closing in drained
      requires poisonReason == None ==> Drained(drained)
      modifies this`log
      ensures Valid() && log == old(log) + [Closed(normally)]
      ensures normally <==> poisonReason == None
    {
      normally := poisonReason == None;
      if normally {
        DrainedStays(drained, log);
      }
      StillClosing(drained, log);
      TracksNext(log, poisonReason.Some?, closed, terminating, tasks, inflight, Closed(normally));
      log := log + [Closed(normally)];
    }
  }

  lemma Extends(log: seq<Event>, e: Event)
    ensures (log + [e])[..|log + [e]| - 1] == log
    ensures forall x :: x in log + [e] <==> x in log || x == e
  {
  }
}
