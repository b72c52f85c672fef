/** src/sfx/ledger.py: every launched speculation and how it ended. */
module Ledgers {
  type SpecId = nat

  datatype Terminal = HitCompleted | HitPromoted | Miss | Discarded | Preempted | EpochExpired

  datatype Record =
    | Launch(id: SpecId)
    | End(id: SpecId, terminal: Terminal, saved: real, wasted: real)

  /** `raised` is sticky: it is set when `terminal` would have thrown. */
  datatype State = State(
    records: seq<Record>,
    terminated: set<SpecId>,
    saved: real,
    wasted: real,
    raised: bool)

  const EMPTY := State([], {}, 0.0, 0.0, false)

  function RecordLaunch(l: State, id: SpecId): State {
    l.(records := l.records + [Launch(id)])
  }

  /** Ends a speculation once; a second end is the source's ValueError. */
  function Terminate(l: State, id: SpecId, terminal: Terminal, saved: real, wasted: real): State {
    if id in l.terminated then
      l.(raised := true)
    else
      l.(terminated := l.terminated + {id},
         saved := l.saved + saved,
         wasted := l.wasted + wasted,
         records := l.records + [End(id, terminal, saved, wasted)])
  }

  function SavedOf(r: Record): real {
    if r.End? then r.saved else 0.0
  }

  function WastedOf(r: Record): real {
    if r.End? then r.wasted else 0.0
  }

  function SumSaved(rs: seq<Record>): real {
    if rs == [] then 0.0 else SumSaved(rs[..|rs| - 1]) + SavedOf(rs[|rs| - 1])
  }

  function SumWasted(rs: seq<Record>): real {
    if rs == [] then 0.0 else SumWasted(rs[..|rs| - 1]) + WastedOf(rs[|rs| - 1])
  }

  function Launches(rs: seq<Record>, id: SpecId): nat {
    if rs == [] then 0
    else Launches(rs[..|rs| - 1], id) + if rs[|rs| - 1] == Launch(id) then 1 else 0
  }

  function Ends(rs: seq<Record>, id: SpecId): nat {
    if rs == [] then 0
    else Ends(rs[..|rs| - 1], id)
         + if rs[|rs| - 1].End? && rs[|rs| - 1].id == id then 1 else 0
  }

  /** `rs` launched the ids below `n` in order and ended exactly `terminated`, each once. */
  ghost predicate History(rs: seq<Record>, n: nat, terminated: set<SpecId>) {
    if rs == [] then n == 0 && terminated == {}
    else
      var prefix, r := rs[..|rs| - 1], rs[|rs| - 1];
      match r
      case Launch(id) => 0 < n && id == n - 1 && History(prefix, n - 1, terminated)
      case End(id, _, _, _) => id in terminated && id < n && History(prefix, n, terminated - {id})
  }

  /** Conservation; the running totals are the sums over the records. */
  ghost predicate Valid(l: State, n: nat) {
    && !l.raised
    && History(l.records, n, l.terminated)
    && l.saved == SumSaved(l.records)
    && l.wasted == SumWasted(l.records)
  }

  lemma Appended(rs: seq<Record>, r: Record)
    ensures SumSaved(rs + [r]) == SumSaved(rs) + SavedOf(r)
    ensures SumWasted(rs + [r]) == SumWasted(rs) + WastedOf(r)
    ensures (rs + [r])[..|rs + [r]| - 1] == rs
  {
    var all := rs + [r];
    assert all[..|all| - 1] == rs && all[|all| - 1] == r;
  }

  lemma LaunchKeepsValid(l: State, n: nat)
    requires Valid(l, n)
    ensures Valid(RecordLaunch(l, n), n + 1)
  {
    Appended(l.records, Launch(n));
  }

  lemma TerminateKeepsValid(l: State, n: nat, id: SpecId, t: Terminal, saved: real, wasted: real)
    requires Valid(l, n) && id < n && id !in l.terminated
    ensures Valid(Terminate(l, id, t, saved, wasted), n)
  {
    Appended(l.records, End(id, t, saved, wasted));
    assert (l.terminated + {id}) - {id} == l.terminated;
  }

  /** Every id below `n` has one launch record, a terminated one also has one end record. */
  lemma {:induction false} HistoryCounts(rs: seq<Record>, n: nat, terminated: set<SpecId>, id: SpecId)
    requires History(rs, n, terminated)
    ensures Launches(rs, id) == if id < n then 1 else 0
    ensures Ends(rs, id) == if id in terminated then 1 else 0
    ensures id in terminated ==> id < n
    decreases |rs|
  {
    if rs != [] {
      var prefix, r := rs[..|rs| - 1], rs[|rs| - 1];
      match r
      case Launch(launched) => HistoryCounts(prefix, n - 1, terminated, id);
      case End(ended, _, _, _) => HistoryCounts(prefix, n, terminated - {ended}, id);
    }
  }

  /** The ledger object; `Terminal` reports the exception instead of raising it. */
  class Ledger {
    var records: seq<Record>
    var terminated: set<SpecId>
    var totalSavedMs: real
    var totalWastedMs: real

    function View(): State
      reads this
    {
      State(records, terminated, totalSavedMs, totalWastedMs, false)
    }

    constructor ()
      ensures View() == EMPTY
    {
      records, terminated, totalSavedMs, totalWastedMs := [], {}, 0.0, 0.0;
    }

    method Record(id: SpecId)
      modifies this
      ensures View() == RecordLaunch(old(View()), id)
    {
      records := records + [Launch(id)];
    }

    method Terminal(id: SpecId, terminal: Terminal, saved: real, wasted: real) returns (raised: bool)
      modifies this
      ensures raised == (id in old(terminated))
      ensures View() == Terminate(old(View()), id, terminal, saved, wasted).(raised := false)
    {
      if id in terminated {
        return true;
      }
      terminated := terminated + {id};
      totalSavedMs := totalSavedMs + saved;
      totalWastedMs := totalWastedMs + wasted;
      records := records + [End(id, terminal, saved, wasted)];
      return false;
    }
  }
}
