/**
 * src/sfx/predictor.py against src/mining/mine.py: the counts kept online with
 * a window of k + 1 events are those of a batch pass over the whole history.
 */
module Predictors {
  import opened Common
  import opened Sums

  /** `klass` is the event's outcome class, `kind:status`. */
  datatype Event = Event(role: string, kind: string, klass: string)

  type Counts = map<string, Counter>

  /** Python's `s[-n:]`, which is all of `s` when `n` is 0. */
  function LastOf<T>(s: seq<T>, n: nat): seq<T> {
    if n == 0 || n >= |s| then s else s[|s| - n..]
  }

  function JoinKinds(events: seq<Event>): string {
    if events == [] then ""
    else if |events| == 1 then events[0].kind
    else events[0].kind + "," + JoinKinds(events[1..])
  }

  /** `_key_str(*context_key(events, k, visible))`. */
  function ContextKey(events: seq<Event>, k: nat, visible: bool): string
    requires events != []
  {
    var last := events[|events| - 1];
    last.role + "|" + JoinKinds(LastOf(events, k)) + "|" + if visible then last.klass else "?"
  }

  /** Roles and kinds as they occur: free of the separators. */
  ghost predicate Plain(events: seq<Event>) {
    forall e :: e in events ==> '|' !in e.role && '|' !in e.kind && ',' !in e.kind
  }

  /** How many events a context looks back on; looking back on none means on all. */
  function Reach(events: seq<Event>, k: nat): nat {
    if k == 0 || |events| < k then |events| else k
  }

  /** The kind of the `i`-th last event. */
  function KindBack(events: seq<Event>, i: nat): string
    requires 1 <= i <= |events|
  {
    events[|events| - i].kind
  }

  /** The same kinds looked back on, in the same order. */
  predicate SameKinds(a: seq<Event>, b: seq<Event>, k: nat) {
    && Reach(a, k) == Reach(b, k)
    && forall i :: 1 <= i <= Reach(a, k) ==> KindBack(a, i) == KindBack(b, i)
  }

  /**
   * Two histories share a counter if and only if their last events agree on
   * the role and, where outcomes are visible, on the outcome, and they agree
   * on the kinds looked back on.
   */
  lemma KeysAreExact(a: seq<Event>, b: seq<Event>, k: nat, visible: bool)
    requires a != [] && b != [] && Plain(a) && Plain(b)
    ensures ContextKey(a, k, visible) == ContextKey(b, k, visible) <==>
              && a[|a| - 1].role == b[|b| - 1].role && SameKinds(a, b, k)
              && (visible ==> a[|a| - 1].klass == b[|b| - 1].klass)
  {
    var x, y := a[|a| - 1], b[|b| - 1];
    var s, t := LastOf(a, k), LastOf(b, k);
    var u, v := if visible then x.klass else "?", if visible then y.klass else "?";
    LastPlain(a, k);
    LastPlain(b, k);
    SameKindsIs(a, b, k);
    JoinedPlain(s);
    JoinedPlain(t);
    JoinsAreExact(s, t);
    assert '|' !in x.role && '|' !in y.role by {
      assert x in a && y in b;
    }
    KeyParts(a, k, visible);
    KeyParts(b, k, visible);
    hide Plain, SameKinds, LastOf, JoinKinds, ContextKey;
    if ContextKey(a, k, visible) == ContextKey(b, k, visible) {
      CutAt('|', x.role, JoinKinds(s) + "|" + u, y.role, JoinKinds(t) + "|" + v);
      CutAt('|', JoinKinds(s), u, JoinKinds(t), v);
    }
  }

  lemma KeyParts(events: seq<Event>, k: nat, visible: bool)
    requires events != []
    ensures var last := events[|events| - 1];
            ContextKey(events, k, visible)
            == last.role + ['|'] + (JoinKinds(LastOf(events, k)) + "|" + if visible then last.klass else "?")
  {
    var last := events[|events| - 1];
    var j, u := JoinKinds(LastOf(events, k)), if visible then last.klass else "?";
    assert last.role + "|" + j + "|" + u == last.role + ['|'] + (j + "|" + u);
  }

  lemma LastPlain(events: seq<Event>, k: nat)
    requires events != [] && Plain(events)
    ensures LastOf(events, k) != [] && Plain(LastOf(events, k))
  {
    assert forall e :: e in LastOf(events, k) ==> e in events;
  }

  lemma SameKindsIs(a: seq<Event>, b: seq<Event>, k: nat)
    ensures var s, t := LastOf(a, k), LastOf(b, k);
            SameKinds(a, b, k) <==> |s| == |t| && forall i :: 0 <= i < |s| ==> s[i].kind == t[i].kind
  {
    var s, t := LastOf(a, k), LastOf(b, k);
    LastKinds(a, k);
    LastKinds(b, k);
    hide LastOf, KindBack, Reach;
    if |s| == |t| && SameKinds(a, b, k) {
      forall i | 0 <= i < |s|
        ensures s[i].kind == t[i].kind
      {
        assert s[i].kind == KindBack(a, |s| - i) && t[i].kind == KindBack(b, |t| - i);
      }
    }
    if |s| == |t| && forall i :: 0 <= i < |s| ==> s[i].kind == t[i].kind {
      forall i | 1 <= i <= |s|
        ensures KindBack(a, i) == KindBack(b, i)
      {
        assert s[|s| - i].kind == t[|t| - i].kind;
      }
    }
  }

  lemma LastKinds(a: seq<Event>, k: nat)
    ensures |LastOf(a, k)| == Reach(a, k) <= |a|
    ensures forall i :: 0 <= i < Reach(a, k) ==> LastOf(a, k)[i].kind == KindBack(a, Reach(a, k) - i)
  {
  }

  /** What stands before the first separator, and what after it. */
  lemma CutAt(c: char, a: string, x: string, b: string, y: string)
    requires a + [c] + x == b + [c] + y && c !in a && c !in b
    ensures a == b && x == y
  {
    var s, t := a + [c] + x, b + [c] + y;
    assert s[|a|] == c && t[|b|] == c;
    assert forall i :: 0 <= i < |a| ==> s[i] == a[i] != c;
    assert forall i :: 0 <= i < |b| ==> t[i] == b[i] != c;
    assert s[..|a|] == a && t[..|b|] == b && s[|a| + 1..] == x && t[|b| + 1..] == y;
  }

  lemma {:induction false} JoinedPlain(events: seq<Event>)
    requires Plain(events)
    ensures '|' !in JoinKinds(events)
    decreases |events|
  {
    if events != [] {
      assert events[0] in events;
      assert Plain(events[1..]);
      JoinedPlain(events[1..]);
    }
  }

  lemma {:induction false} JoinsAreExact(s: seq<Event>, t: seq<Event>)
    requires s != [] && t != [] && Plain(s) && Plain(t)
    ensures JoinKinds(s) == JoinKinds(t) <==> |s| == |t| && forall i :: 0 <= i < |s| ==> s[i].kind == t[i].kind
    decreases |s|
  {
    assert s[0] in s && t[0] in t;
    assert Plain(s[1..]) && Plain(t[1..]);
    if |s| > 1 && |t| > 1 {
      JoinsAreExact(s[1..], t[1..]);
      if JoinKinds(s) == JoinKinds(t) {
        CutAt(',', s[0].kind, JoinKinds(s[1..]), t[0].kind, JoinKinds(t[1..]));
        assert forall i :: 1 <= i < |s| ==> s[i] == s[1..][i - 1] && t[i] == t[1..][i - 1];
      }
    } else {
      assert |s| > 1 ==> JoinKinds(s)[|s[0].kind|] == ',';
      assert |t| > 1 ==> JoinKinds(t)[|t[0].kind|] == ',';
    }
  }

  function At(c: Counts, key: string, kind: string): nat {
    if key in c then GetOr(c[key], kind, 0) else 0
  }

  function Bump(c: Counts, key: string, kind: string): Counts {
    var ctr := GetOr(c, key, map[]);
    c[key := ctr[kind := GetOr(ctr, kind, 0) + 1]]
  }

  /** The positions of a history that count for `kind` after context `key`. */
  ghost function Hits(events: seq<Event>, k: nat, visible: bool, key: string, kind: string): set<int> {
    set i | 1 <= i < |events| && ContextKey(events[..i], k, visible) == key && events[i].kind == kind
  }

  ghost function HitsAll(past: seq<seq<Event>>, k: nat, visible: bool, key: string, kind: string): nat {
    if past == [] then 0
    else HitsAll(past[..|past| - 1], k, visible, key, kind) + |Hits(past[|past| - 1], k, visible, key, kind)|
  }

  /** No counter is empty and no count is zero. */
  ghost predicate Dense(c: Counts) {
    forall key :: key in c ==> c[key] != map[] && forall kind :: kind in c[key] ==> 0 < c[key][kind]
  }

  /** `c` counts exactly the positions of the `past` histories and of `events`. */
  ghost predicate Counted(c: Counts, past: seq<seq<Event>>, events: seq<Event>, k: nat, visible: bool) {
    && Dense(c)
    && forall key, kind ::
         At(c, key, kind) == HitsAll(past, k, visible, key, kind) + |Hits(events, k, visible, key, kind)|
  }

  /** The counts of some histories leave no room for another dictionary. */
  lemma CountedUnique(c: Counts, d: Counts, past: seq<seq<Event>>, events: seq<Event>, k: nat, visible: bool)
    requires Counted(c, past, events, k, visible) && Counted(d, past, events, k, visible)
    ensures c == d
  {
    hide Hits, HitsAll, Dense;
    assert forall key, kind :: At(c, key, kind) == At(d, key, kind);
    SameCounts(c, d);
  }

  lemma SameCounts(c: Counts, d: Counts)
    requires Dense(c) && Dense(d)
    requires forall key, kind :: At(c, key, kind) == At(d, key, kind)
    ensures c == d
  {
    forall key: string
      ensures key in c <==> key in d
      ensures key in c ==> c[key] == d[key]
    {
      SameCounter(c, d, key);
      SameCounter(d, c, key);
    }
  }

  lemma SameCounter(c: Counts, d: Counts, key: string)
    requires Dense(c) && Dense(d)
    requires forall kind :: At(c, key, kind) == At(d, key, kind)
    ensures key in c ==> key in d && forall kind :: kind in c[key] ==> kind in d[key] && d[key][kind] == c[key][kind]
  {
    if key in c {
      var first :| first in c[key];
      assert At(c, key, first) > 0;
      forall kind | kind in c[key]
        ensures key in d && kind in d[key] && d[key][kind] == c[key][kind]
      {
        assert At(c, key, kind) == At(d, key, kind);
      }
    }
  }

  lemma CountedNext(c: Counts, past: seq<seq<Event>>, events: seq<Event>, k: nat, visible: bool, e: Event)
    requires events != [] && Counted(c, past, events, k, visible)
    ensures Counted(Bump(c, ContextKey(events, k, visible), e.kind), past, events + [e], k, visible)
  {
    hide Hits, HitsAll, ContextKey;
    var d := Bump(c, ContextKey(events, k, visible), e.kind);
    forall key, kind
      ensures At(d, key, kind) == HitsAll(past, k, visible, key, kind) + |Hits(events + [e], k, visible, key, kind)|
    {
      HitsNext(events, k, visible, e, key, kind);
      assert At(c, key, kind) == HitsAll(past, k, visible, key, kind) + |Hits(events, k, visible, key, kind)|;
    }
  }

  lemma HitsNext(events: seq<Event>, k: nat, visible: bool, e: Event, key: string, kind: string)
    requires events != []
    ensures |Hits(events + [e], k, visible, key, kind)|
            == |Hits(events, k, visible, key, kind)|
               + if ContextKey(events, k, visible) == key && e.kind == kind then 1 else 0
  {
    hide ContextKey;
    var before, after := Hits(events, k, visible, key, kind), Hits(events + [e], k, visible, key, kind);
    HitsBefore(events, k, visible, e, key, kind);
    assert |events| !in before;
    if |events| in after {
      assert after == before + {|events|};
    } else {
      assert after == before;
    }
  }

  lemma HitsBefore(events: seq<Event>, k: nat, visible: bool, e: Event, key: string, kind: string)
    requires events != []
    ensures var before, after := Hits(events, k, visible, key, kind), Hits(events + [e], k, visible, key, kind);
            && (forall i :: i in after <==> i in before || (i == |events| && i in after))
            && (|events| in after <==> ContextKey(events, k, visible) == key && e.kind == kind)
  {
    hide ContextKey;
    var all := events + [e];
    assert all[..|events|] == events;
    assert forall i :: 0 <= i <= |events| ==> all[..i] == events[..i];
  }

  lemma NoHits(events: seq<Event>, k: nat, visible: bool)
    requires |events| <= 1
    ensures forall key, kind :: |Hits(events, k, visible, key, kind)| == 0
  {
    forall key, kind
      ensures Hits(events, k, visible, key, kind) == {}
    {
    }
  }

  lemma NothingCounted(events: seq<Event>, k: nat, visible: bool)
    requires |events| <= 1
    ensures Counted(map[], [], events, k, visible)
  {
    NoHits(events, k, visible);
  }

  /** The window decides the context: at least one kind is looked back on. */
  lemma WindowKey(events: seq<Event>, k: nat, visible: bool)
    requires events != [] && 0 < k
    ensures LastOf(events, k + 1) != []
    ensures ContextKey(LastOf(events, k + 1), k, visible) == ContextKey(events, k, visible)
  {
    var window := LastOf(events, k + 1);
    assert LastOf(window, k) == LastOf(events, k);
    assert window[|window| - 1] == events[|events| - 1];
  }

  /** Looking back on no kind at all means the whole history in batch and one event online. */
  lemma ZeroWindowDiffers()
    ensures var events := [Event("r", "a", "a:OK"), Event("r", "b", "b:OK")];
            ContextKey(LastOf(events, 0 + 1), 0, true) != ContextKey(events, 0, true)
  {
    var events := [Event("r", "a", "a:OK"), Event("r", "b", "b:OK")];
    assert LastOf(events, 1) == [events[1]];
    assert JoinKinds([events[1]]) == "b" && JoinKinds(events[1..]) == "b" && JoinKinds(events) == "a,b";
    assert ContextKey(LastOf(events, 1), 0, true) == "r|b|b:OK";
    assert ContextKey(events, 0, true) == "r|a,b|b:OK";
  }

  class Predictor {
    const k: nat
    const visible: bool
    var sessionCounts: Counts
    var events: seq<Event>  // bounded to the last k + 1
    ghost var history: seq<Event>

    ghost predicate Valid()
      reads this
    {
      && 0 < k
      && events == LastOf(history, k + 1)
      && Counted(sessionCounts, [], history, k, visible)
    }

    constructor (k: nat, visible: bool)
      requires 0 < k
      ensures Valid() && history == [] && this.k == k && this.visible == visible
    {
      this.k, this.visible := k, visible;
      sessionCounts, events, history := map[], [], [];
      new;
      NothingCounted([], k, visible);
    }

    /** Only the window is consulted, the counts are those of the whole history. */
    method Observe(event: Event)
      requires Valid()
      modifies this
      ensures Valid() && history == old(history) + [event]
    {
      if events != [] {
        WindowKey(history, k, visible);
        CountedNext(sessionCounts, [], history, k, visible, event);
        sessionCounts := Bump(sessionCounts, ContextKey(events, k, visible), event.kind);
      } else {
        NothingCounted([event], k, visible);
      }
      events := LastOf(events + [event], k + 1);
      WindowNext(history, event, k);
      history := history + [event];
    }
  }

  lemma WindowNext(history: seq<Event>, e: Event, k: nat)
    ensures LastOf(LastOf(history, k + 1) + [e], k + 1) == LastOf(history + [e], k + 1)
    ensures LastOf(history, k + 1) == [] ==> history == []
  {
  }

  /** The inner loop of `build_table`: one session's whole history. */
  method CountSession(past: Counts, ghost sessions: seq<seq<Event>>, events: seq<Event>, k: nat)
      returns (counts: Counts)
    requires Counted(past, sessions, [], k, true)
    ensures Counted(counts, sessions, events, k, true)
  {
    hide Counted, ContextKey;
    counts := past;
    BeginSession(counts, sessions, events, k);
    if events == [] {
      return;
    }
    var i := 1;
    while i < |events|
      invariant 1 <= i <= |events|
      invariant Counted(counts, sessions, events[..i], k, true)
    {
      CountedNext(counts, sessions, events[..i], k, true, events[i]);
      assert events[..i] + [events[i]] == events[..i + 1];
      counts := Bump(counts, ContextKey(events[..i], k, true), events[i].kind);
      i := i + 1;
    }
    assert events[..i] == events;
  }

  /** The counting loops of `build_table`, over every session's whole history. */
  method CountSessions(sessions: seq<seq<Event>>, k: nat) returns (counts: Counts)
    ensures Counted(counts, sessions, [], k, true)
  {
    hide Counted;
    counts := map[];
    NothingCounted([], k, true);
    var s := 0;
    while s < |sessions|
      invariant 0 <= s <= |sessions|
      invariant Counted(counts, sessions[..s], [], k, true)
    {
      counts := CountSession(counts, sessions[..s], sessions[s], k);
      EndSession(counts, sessions, s, k);
      s := s + 1;
    }
    assert sessions[..s] == sessions;
  }

  lemma BeginSession(c: Counts, past: seq<seq<Event>>, events: seq<Event>, k: nat)
    requires Counted(c, past, [], k, true)
    ensures Counted(c, past, events[..if events == [] then 0 else 1], k, true)
    ensures events == [] ==> Counted(c, past, events, k, true)
  {
    NoHits([], k, true);
    NoHits(events[..if events == [] then 0 else 1], k, true);
  }

  lemma EndSession(c: Counts, sessions: seq<seq<Event>>, s: nat, k: nat)
    requires s < |sessions| && Counted(c, sessions[..s], sessions[s], k, true)
    ensures Counted(c, sessions[..s + 1], [], k, true)
  {
    hide Hits;
    NoHits([], k, true);
    assert sessions[..s + 1][..s] == sessions[..s];
  }

  /**
   * Online equals batch: the dictionary `Observe` has built over a history and
   * the one `CountSessions` builds from it are equal, and their grand total is
   * the number of events that had a context.
   */
  lemma OnlineIsBatch(online: Counts, batch: Counts, events: seq<Event>, k: nat)
    requires Counted(online, [], events, k, true) && Counted(batch, [events], [], k, true)
    ensures online == batch
    ensures GrandTotal(online) == if events == [] then 0 else |events| - 1
  {
    hide Hits;
    NoHits([], k, true);
    assert [events][..0] == [];
    assert Counted(batch, [], events, k, true);
    CountedUnique(online, batch, [], events, k, true);
    CountedUnique(online, Recounted(events, k, true), [], events, k, true);
  }

  ghost function GrandTotal(c: Counts): nat {
    if c == map[] then 0
    else
      var key :| key in c;
      SumN(c[key]) + GrandTotal(c - {key})
  }

  lemma {:induction false} GrandSplit(c: Counts, key: string)
    requires key in c
    ensures GrandTotal(c) == SumN(c[key]) + GrandTotal(c - {key})
    decreases |c|
  {
    var first :| first in c && GrandTotal(c) == SumN(c[first]) + GrandTotal(c - {first});
    if first != key {
      GrandSplit(c - {first}, key);
      GrandSplit(c - {key}, first);
      assert c - {first} - {key} == c - {key} - {first};
    }
  }

  lemma BumpTotal(c: Counts, key: string, kind: string)
    ensures GrandTotal(Bump(c, key, kind)) == GrandTotal(c) + 1
  {
    var d := Bump(c, key, kind);
    GrandSplit(d, key);
    UpdateN(GetOr(c, key, map[]), kind, GetOr(GetOr(c, key, map[]), kind, 0) + 1);
    assert d - {key} == c - {key};
    if key in c {
      GrandSplit(c, key);
    } else {
      assert c - {key} == c;
    }
  }

  /** The dictionary of a history, built one event at a time. */
  ghost function Recounted(events: seq<Event>, k: nat, visible: bool): (c: Counts)
    ensures Counted(c, [], events, k, visible)
    ensures GrandTotal(c) == if events == [] then 0 else |events| - 1
  {
    if |events| <= 1 then
      NothingCounted(events, k, visible);
      map[]
    else
      var before, e := events[..|events| - 1], events[|events| - 1];
      var c := Recounted(before, k, visible);
      CountedNext(c, [], before, k, visible, e);
      BumpTotal(c, ContextKey(before, k, visible), e.kind);
      assert before + [e] == events;
      Bump(c, ContextKey(before, k, visible), e.kind)
  }
}
