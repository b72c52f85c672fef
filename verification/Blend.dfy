/**
 * `Predictor.propose` (src/sfx/predictor.py:27-51): session counts blended
 * with two priors whose weight decays as the session learns.
 */
module Blends {
  import opened Common
  import opened Sums
  import opened Predictors
  import opened Tables

  const SUPPORT_CAP := 20.0

  datatype Source = Source(weight: real, dist: Dist)

  function PriorWeight(support: real, n: real): real
    requires 0.0 <= n
  {
    Min(support, SUPPORT_CAP) * (SUPPORT_CAP / (SUPPORT_CAP + n))
  }

  function SessionWeight(n: real): real {
    Min(n, SUPPORT_CAP)
  }

  /* What the blend is */

  ghost function Weight(sources: seq<Source>): real {
    if sources == [] then 0.0
    else Weight(sources[..|sources| - 1]) + sources[|sources| - 1].weight
  }

  /** The probability of `kind` in the mixture of `sources`. */
  ghost function MixAt(sources: seq<Source>, total: real, kind: string): real
    requires total != 0.0
  {
    if sources == [] then 0.0
    else
      var s := sources[|sources| - 1];
      MixAt(sources[..|sources| - 1], total, kind) + (s.weight / total) * GetOr(s.dist, kind, 0.0)
  }

  ghost predicate Mixture(m: Dist, sources: seq<Source>, total: real)
    requires total != 0.0
  {
    && (forall s, kind :: s in sources && kind in s.dist ==> kind in m)
    && (forall kind :: kind in m ==>
          (exists s :: s in sources && kind in s.dist) && m[kind] == MixAt(sources, total, kind))
  }

  ghost predicate Normalised(d: Dist) {
    SumR(d) == 1.0
  }

  ghost predicate Sound(sources: seq<Source>) {
    forall s :: s in sources ==> 0.0 < s.weight && Normalised(s.dist)
  }

  lemma {:induction false} WeightPositive(sources: seq<Source>)
    requires Sound(sources)
    ensures 0.0 <= Weight(sources)
    ensures sources != [] ==> 0.0 < Weight(sources)
    decreases |sources|
  {
    if sources != [] {
      WeightPositive(sources[..|sources| - 1]);
      assert sources[|sources| - 1] in sources;
    }
  }

  /* Adding one source */

  /** `m` plus `share` times the kinds of `dist` outside `todo`. */
  ghost predicate Adding(m: Dist, dist: Dist, share: real, todo: set<string>, sum: Dist) {
    && todo <= dist.Keys
    && sum.Keys == m.Keys + (dist.Keys - todo)
    && forall kind :: kind in sum ==>
         sum[kind] == GetOr(m, kind, 0.0) + if kind in dist && kind !in todo then share * dist[kind] else 0.0
  }

  lemma AddNone(m: Dist, dist: Dist, share: real)
    ensures Adding(m, dist, share, dist.Keys, m)
  {
  }

  lemma AddNext(m: Dist, dist: Dist, share: real, todo: set<string>, sum: Dist, kind: string, more: real)
    requires Adding(m, dist, share, todo, sum) && kind in todo && more == share * dist[kind]
    ensures Adding(m, dist, share, todo - {kind}, sum[kind := GetOr(sum, kind, 0.0) + more])
  {
  }

  /** The mass that has moved into `sum` while `todo` is left of `dist`. */
  ghost predicate Massed(m: Dist, dist: Dist, share: real, todo: Dist, sum: Dist) {
    SumR(sum) == SumR(m) + share * (SumR(dist) - SumR(todo))
  }

  lemma MassNext(m: Dist, dist: Dist, share: real, todo: Dist, sum: Dist, kind: string, more: real)
    requires Massed(m, dist, share, todo, sum) && kind in todo && more == share * todo[kind]
    ensures Massed(m, dist, share, todo - {kind}, sum[kind := GetOr(sum, kind, 0.0) + more])
  {
    hide SumR;
    UpdateR(sum, kind, GetOr(sum, kind, 0.0) + more);
    SplitR(todo, kind);
    Distributes(share, SumR(dist) - SumR(todo), todo[kind]);
  }

  lemma MassDone(m: Dist, dist: Dist, share: real, sum: Dist)
    requires Massed(m, dist, share, map[], sum)
    ensures SumR(sum) == SumR(m) + share * SumR(dist)
  {
    hide SumR;
    NoMass();
    Same(share, SumR(dist) - SumR(map[]), SumR(dist));
  }

  lemma Same(share: real, a: real, b: real)
    requires a == b
    ensures share * a == share * b
  {
  }

  lemma NoMass()
    ensures SumR(map[]) == 0.0
  {
  }

  lemma NoMassYet(m: Dist, dist: Dist, share: real)
    ensures Massed(m, dist, share, dist, m)
  {
    hide SumR;
    assert SumR(dist) - SumR(dist) == 0.0;
  }

  /** The inner loop of `propose`; it adds `share` of the distribution's mass. */
  method AddSource(m: Dist, dist: Dist, share: real) returns (sum: Dist)
    ensures Adding(m, dist, share, {}, sum)
    ensures SumR(sum) == SumR(m) + share * SumR(dist)
  {
    hide Adding, SumR, Massed;
    sum := m;
    var todo := dist;
    AddNone(m, dist, share);
    NoMassYet(m, dist, share);
    while todo != map[]
      invariant todo.Keys <= dist.Keys
      invariant forall kind :: kind in todo ==> todo[kind] == dist[kind]
      invariant Adding(m, dist, share, todo.Keys, sum) && Massed(m, dist, share, todo, sum)
      decreases |todo|
    {
      var kind :| kind in todo;
      var more := share * dist[kind];
      AddNext(m, dist, share, todo.Keys, sum, kind, more);
      MassNext(m, dist, share, todo, sum, kind, more);
      sum := sum[kind := GetOr(sum, kind, 0.0) + more];
      assert (todo - {kind}).Keys == todo.Keys - {kind};
      todo := todo - {kind};
    }
    MassDone(m, dist, share, sum);
  }

  lemma Distributes(share: real, a: real, b: real)
    ensures share * (a + b) == share * a + share * b
  {
  }

  lemma MixNext(sources: seq<Source>, total: real, s: Source, kind: string)
    requires total != 0.0
    ensures MixAt(sources + [s], total, kind)
            == MixAt(sources, total, kind) + (s.weight / total) * GetOr(s.dist, kind, 0.0)
  {
    assert (sources + [s])[..|sources|] == sources;
  }

  lemma MixtureNext(m: Dist, sources: seq<Source>, total: real, s: Source, sum: Dist)
    requires total != 0.0 && Mixture(m, sources, total) && Adding(m, s.dist, s.weight / total, {}, sum)
    ensures Mixture(sum, sources + [s], total)
  {
    hide MixAt;
    var all := sources + [s];
    forall kind | kind in sum
      ensures (exists t :: t in all && kind in t.dist) && sum[kind] == MixAt(all, total, kind)
    {
      MixtureAt(m, sources, total, s, sum, kind);
    }
  }

  lemma MixtureAt(m: Dist, sources: seq<Source>, total: real, s: Source, sum: Dist, kind: string)
    requires total != 0.0 && Mixture(m, sources, total) && Adding(m, s.dist, s.weight / total, {}, sum)
    requires kind in sum
    ensures exists t :: t in sources + [s] && kind in t.dist
    ensures sum[kind] == MixAt(sources + [s], total, kind)
  {
    hide MixAt;
    MixNext(sources, total, s, kind);
    if kind in s.dist {
      assert s in sources + [s];
    } else {
      var t :| t in sources && kind in t.dist;
      assert t in sources + [s];
    }
    if kind !in m {
      AbsentIsZero(sources, total, kind);
    }
  }

  lemma {:induction false} AbsentIsZero(sources: seq<Source>, total: real, kind: string)
    requires total != 0.0 && forall s :: s in sources ==> kind !in s.dist
    ensures MixAt(sources, total, kind) == 0.0
    decreases |sources|
  {
    if sources != [] {
      AbsentIsZero(sources[..|sources| - 1], total, kind);
    }
  }

  /** The blending loops: the mixture of the sources, of mass one. */
  method BlendSources(sources: seq<Source>) returns (blended: Dist)
    requires sources != [] && Sound(sources)
    ensures Weight(sources) != 0.0 && Mixture(blended, sources, Weight(sources))
    ensures Normalised(blended)
  {
    hide Mixture, Adding, Weight, SumR, Sound;
    var total := TotalWeight(sources);
    WeightPositive(sources);
    blended := map[];
    NothingMixed(total);
    NoMass();
    var i := 0;
    while i < |sources|
      invariant 0 <= i <= |sources|
      invariant Mixture(blended, sources[..i], total)
      invariant SumR(blended) == Weight(sources[..i]) / total
    {
      var s := sources[i];
      SoundAt(sources, i);
      WeightNext(sources, i);
      var sum := AddSource(blended, s.dist, s.weight / total);
      MixtureNext(blended, sources[..i], total, s, sum);
      assert sources[..i] + [s] == sources[..i + 1];
      AddShare(Weight(sources[..i]), s.weight, total);
      assert s.weight / total * SumR(s.dist) == s.weight / total;
      blended := sum;
      i := i + 1;
    }
    assert sources[..i] == sources;
    OverItself(total);
  }

  lemma NothingMixed(total: real)
    requires total != 0.0
    ensures Mixture(map[], [], total) && Weight([]) / total == 0.0
  {
  }

  lemma OverItself(x: real)
    requires x != 0.0
    ensures x / x == 1.0
  {
  }

  lemma SoundAt(sources: seq<Source>, i: nat)
    requires Sound(sources) && i < |sources|
    ensures SumR(sources[i].dist) == 1.0
  {
    assert sources[i] in sources;
  }

  lemma WeightNext(sources: seq<Source>, i: nat)
    requires i < |sources|
    ensures Weight(sources[..i + 1]) == Weight(sources[..i]) + sources[i].weight
  {
    assert sources[..i + 1][..i] == sources[..i];
  }

  lemma AddShare(a: real, b: real, total: real)
    requires total != 0.0
    ensures (a + b) / total == a / total + b / total
  {
  }

  method TotalWeight(sources: seq<Source>) returns (total: real)
    ensures total == Weight(sources)
  {
    total := 0.0;
    var i := 0;
    while i < |sources|
      invariant 0 <= i <= |sources|
      invariant total == Weight(sources[..i])
    {
      assert sources[..i + 1][..i] == sources[..i];
      total := total + sources[i].weight;
      i := i + 1;
    }
    assert sources[..i] == sources;
  }

  /* Ranking */

  predicate Descending(r: seq<(string, real)>) {
    forall i, j :: 0 <= i < j < |r| ==> r[j].1 <= r[i].1
  }

  /** `r` lists the items of `m`, each once. */
  ghost predicate Lists(r: seq<(string, real)>, m: Dist) {
    && (forall i :: 0 <= i < |r| ==> r[i].0 in m && m[r[i].0] == r[i].1)
    && (forall i, j :: 0 <= i < j < |r| ==> r[i].0 != r[j].0)
    && (forall kind :: kind in m ==> exists i :: 0 <= i < |r| && r[i].0 == kind)
  }

  method InsertRanked(r: seq<(string, real)>, item: (string, real)) returns (s: seq<(string, real)>, at: nat)
    requires Descending(r)
    ensures at <= |r| && s == r[..at] + [item] + r[at..] && Descending(s)
  {
    at := 0;
    while at < |r| && item.1 <= r[at].1
      invariant at <= |r|
      invariant forall i :: 0 <= i < at ==> item.1 <= r[i].1
    {
      at := at + 1;
    }
    s := r[..at] + [item] + r[at..];
  }

  /** `sorted(items, key=probability, reverse=True)`. */
  method Ranked(m: Dist) returns (r: seq<(string, real)>)
    ensures Descending(r) && Lists(r, m)
  {
    r := [];
    var todo := m.Keys;
    while todo != {}
      invariant todo <= m.Keys && Descending(r)
      invariant Lists(r, map kind | kind in m && kind !in todo :: m[kind])
      decreases |todo|
    {
      var kind :| kind in todo;
      var at: nat;
      ghost var before := r;
      r, at := InsertRanked(r, (kind, m[kind]));
      ListsInsert(before, m, todo, kind, at);
      todo := todo - {kind};
    }
    assert (map kind | kind in m && kind !in todo :: m[kind]) == m;
  }

  lemma ListsInsert(r: seq<(string, real)>, m: Dist, todo: set<string>, kind: string, at: nat)
    requires todo <= m.Keys && kind in todo && at <= |r|
    requires Lists(r, map k | k in m && k !in todo :: m[k])
    ensures Lists(r[..at] + [(kind, m[kind])] + r[at..], map k | k in m && k !in todo - {kind} :: m[k])
  {
    var s := r[..at] + [(kind, m[kind])] + r[at..];
    var o := map k | k in m && k !in todo :: m[k];
    assert (map k | k in m && k !in todo - {kind} :: m[k]) == o[kind := m[kind]];
    assert forall i :: at < i < |s| ==> s[i] == r[i - 1];
    Inserted(r, s, o, kind, m[kind], at);
  }

  lemma Inserted(r: seq<(string, real)>, s: seq<(string, real)>, o: Dist, kind: string, p: real, at: nat)
    requires Lists(r, o) && kind !in o && at < |s| == |r| + 1
    requires s[at] == (kind, p) && forall i :: 0 <= i < |s| && i != at ==> s[i] == r[if i < at then i else i - 1]
    ensures Lists(s, o[kind := p])
  {
    forall k | k in o
      ensures exists i :: 0 <= i < |s| && s[i].0 == k
    {
      var i :| 0 <= i < |r| && r[i].0 == k;
      assert s[if i < at then i else i + 1].0 == k;
    }
  }

  /* The proposal */

  ghost predicate UsableTable(t: Table) {
    forall key :: key in t ==> 0 < t[key].support && Normalised(t[key].p)
  }

  /** The session's observations in context `key`. */
  ghost function Seen(session: Counts, key: string): nat {
    if key in session then SumN(session[key]) else 0
  }

  /** A prior that knows context `key`, after `n` observations of the session. */
  ghost function Prior(t: Table, key: string, n: real): seq<Source>
    requires 0.0 <= n
  {
    if key in t then [Source(PriorWeight(t[key].support as real, n), t[key].p)] else []
  }

  ghost function Own(session: Counts, key: string): seq<Source>
    requires Dense(session)
  {
    if key in session then
      DenseSum(session, key);
      var n := SumN(session[key]) as real;
      [Source(SessionWeight(n), Scaled(session[key], n))]
    else []
  }

  /** The three sources of `propose` under one context, where they exist. */
  ghost function SourcesOf(globalTable: Table, repoTable: Table, session: Counts, key: string): seq<Source>
    requires Dense(session)
  {
    var n := Seen(session, key) as real;
    Prior(globalTable, key, n) + Prior(repoTable, key, n) + Own(session, key)
  }

  lemma SourcesAreSound(globalTable: Table, repoTable: Table, session: Counts, key: string)
    requires UsableTable(globalTable) && UsableTable(repoTable) && Dense(session)
    ensures Sound(SourcesOf(globalTable, repoTable, session, key))
  {
    hide PriorWeight, Normalised, Scaled;
    var n := if key in session then SumN(session[key]) as real else 0.0;
    if key in session {
      DenseSum(session, key);
      SharesAreNormalised(session[key]);
    }
    if key in globalTable {
      PriorCounts(globalTable[key].support, n);
    }
    if key in repoTable {
      PriorCounts(repoTable[key].support, n);
    }
  }

  lemma SharesAreNormalised(ctr: Counter)
    requires SumN(ctr) > 0
    ensures Normalised(Scaled(ctr, SumN(ctr) as real))
  {
    ScaledN(ctr, SumN(ctr) as real);
    OverItself(SumN(ctr) as real);
  }

  lemma PriorCounts(support: nat, n: real)
    requires 0 < support && 0.0 <= n
    ensures 0.0 < PriorWeight(support as real, n)
  {
    assert 0.0 < SUPPORT_CAP / (SUPPORT_CAP + n);
  }

  /** A descending list of the mixture of whatever sources exist, of mass one; nothing without a source. */
  method Propose(globalTable: Table, repoTable: Table, session: Counts, key: string)
      returns (r: seq<(string, real)>, ghost blended: Dist)
    requires UsableTable(globalTable) && UsableTable(repoTable) && Dense(session)
    ensures Descending(r) && Lists(r, blended)
    ensures var sources := SourcesOf(globalTable, repoTable, session, key);
            if sources == [] then r == []
            else Weight(sources) != 0.0 && Mixture(blended, sources, Weight(sources)) && Normalised(blended)
  {
    hide Mixture, Lists, Sound, PriorWeight, Normalised, UsableTable;
    SourcesAreSound(globalTable, repoTable, session, key);
    var sources: seq<Source> := [];
    var n := 0.0;
    if key in session {
      var count := Total(session[key]);
      n := count as real;
    }
    if key in globalTable {
      sources := sources + [Source(PriorWeight(globalTable[key].support as real, n), globalTable[key].p)];
    }
    if key in repoTable {
      sources := sources + [Source(PriorWeight(repoTable[key].support as real, n), repoTable[key].p)];
    }
    if key in session {
      DenseSum(session, key);
      sources := sources + [Source(SessionWeight(n), Scaled(session[key], n))];
    }
    assert sources == SourcesOf(globalTable, repoTable, session, key);
    if sources == [] {
      NothingListed();
      return [], map[];
    }
    var mixture := BlendSources(sources);
    blended := mixture;
    r := Ranked(mixture);
  }

  lemma NothingListed()
    ensures Lists([], map[])
  {
  }

  /* How fast the session takes over */

  /** The decayed weight of priors whose capped supports sum to `p`. */
  function Pull(p: real, n: real): (w: real)
    requires 0.0 <= p && 0.0 <= n
    ensures 0.0 <= w && (0.0 < p ==> 0.0 < w)
  {
    assert 0.0 < SUPPORT_CAP / (SUPPORT_CAP + n);
    p * (SUPPORT_CAP / (SUPPORT_CAP + n))
  }

  /** The session's share of the weight against such priors. */
  function SessionShare(p: real, n: real): real
    requires 0.0 <= p && 0.0 <= n && 0.0 < n + p
  {
    SessionWeight(n) / (SessionWeight(n) + Pull(p, n))
  }

  lemma CrossDivide(x: real, y: real, u: real, v: real)
    requires 0.0 < y && 0.0 < v && x * v <= u * y
    ensures x / y <= u / v
  {
    Scale(1.0 / y / v, 0.0, 0.0);
    assert x / y == (x * v) / (y * v) && u / v == (u * y) / (y * v);
  }

  /** A part grows against the rest when it grows and the rest does not. */
  lemma PartGrows(a: real, b: real, c: real, d: real)
    requires 0.0 <= a <= c && 0.0 <= d <= b && 0.0 < a + b && 0.0 < c + d
    ensures a / (a + b) <= c / (c + d)
  {
    Cross(a, b, c, d);
    CrossDivide(a, a + b, c, c + d);
  }

  lemma Cross(a: real, b: real, c: real, d: real)
    requires 0.0 <= a <= c && 0.0 <= d <= b
    ensures a * (c + d) <= c * (a + b)
  {
    Scale(d, a, c);
    Scale(c, d, b);
    var ad, cd, cb, ac := a * d, c * d, c * b, a * c;
    assert ad <= cd <= cb;
    assert a * (c + d) == ac + ad;
    assert c * (a + b) == ac + cb;
  }

  lemma FormulaNeverFalls(p: real, n: real, m: real)
    requires 0.0 <= p && 0.0 <= n <= m && 0.0 < n + p
    ensures SessionShare(p, n) <= SessionShare(p, m)
  {
    hide Pull;
    PullFalls(p, n, m);
    PartGrows(SessionWeight(n), Pull(p, n), SessionWeight(m), Pull(p, m));
  }

  /** The capped support of a prior in context `key`. */
  function Capped(t: Table, key: string): (p: real)
    ensures 0.0 <= p
  {
    if key in t then Min(t[key].support as real, SUPPORT_CAP) else 0.0
  }

  /** The capped supports of the priors that know context `key`. */
  function PriorSupport(globalTable: Table, repoTable: Table, key: string): (p: real)
    ensures 0.0 <= p
  {
    Capped(globalTable, key) + Capped(repoTable, key)
  }

  /** The part of the sources' weight that is the session's. */
  ghost function ShareOf(globalTable: Table, repoTable: Table, session: Counts, key: string): real
    requires Dense(session) && Weight(SourcesOf(globalTable, repoTable, session, key)) != 0.0
  {
    var sources := SourcesOf(globalTable, repoTable, session, key);
    (if key in session then sources[|sources| - 1].weight else 0.0) / Weight(sources)
  }

  /** What the sources of a proposal weigh: the session's own weight and the priors' pull. */
  lemma SourcesWeigh(globalTable: Table, repoTable: Table, session: Counts, key: string)
    requires Dense(session)
    ensures var n := Seen(session, key) as real;
            Weight(SourcesOf(globalTable, repoTable, session, key))
            == SessionWeight(n) + Pull(PriorSupport(globalTable, repoTable, key), n)
    ensures key in session ==> 0 < Seen(session, key)
  {
    hide Seen, Prior, Own, Weight, SessionWeight, Pull, Capped;
    var n := Seen(session, key) as real;
    var g, r, s := Prior(globalTable, key, n), Prior(repoTable, key, n), Own(session, key);
    WeightSplit(g + r, s);
    WeightSplit(g, r);
    PriorPulls(globalTable, key, n);
    PriorPulls(repoTable, key, n);
    OwnWeighs(session, key);
    PullsAdd(Capped(globalTable, key), Capped(repoTable, key), n);
  }

  lemma PriorPulls(t: Table, key: string, n: real)
    requires 0.0 <= n
    ensures Weight(Prior(t, key, n)) == Pull(Capped(t, key), n)
  {
    hide Min;
    WeightOne(Prior(t, key, n));
  }

  lemma OwnWeighs(session: Counts, key: string)
    requires Dense(session)
    ensures Weight(Own(session, key)) == SessionWeight(Seen(session, key) as real)
    ensures key in session ==> 0 < Seen(session, key)
  {
    hide SumN, Scaled;
    WeightOne(Own(session, key));
    if key in session {
      DenseSum(session, key);
    }
  }

  lemma PullsAdd(a: real, b: real, n: real)
    requires 0.0 <= a && 0.0 <= b && 0.0 <= n
    ensures Pull(a + b, n) == Pull(a, n) + Pull(b, n)
  {
  }

  lemma {:induction false} WeightSplit(a: seq<Source>, b: seq<Source>)
    ensures Weight(a + b) == Weight(a) + Weight(b)
    decreases |b|
  {
    if b == [] {
      assert a + b == a;
    } else {
      assert (a + b)[..|a + b| - 1] == a + b[..|b| - 1];
      WeightSplit(a, b[..|b| - 1]);
    }
  }

  lemma WeightOne(a: seq<Source>)
    requires |a| <= 1
    ensures Weight(a) == if a == [] then 0.0 else a[0].weight
  {
  }

  /** The share of the weight the predictor gives its session is the share formula. */
  lemma ShareIs(globalTable: Table, repoTable: Table, session: Counts, key: string)
    requires UsableTable(globalTable) && UsableTable(repoTable) && Dense(session)
    requires SourcesOf(globalTable, repoTable, session, key) != []
    ensures Weight(SourcesOf(globalTable, repoTable, session, key)) != 0.0
    ensures 0.0 < Seen(session, key) as real + PriorSupport(globalTable, repoTable, key)
    ensures ShareOf(globalTable, repoTable, session, key)
            == SessionShare(PriorSupport(globalTable, repoTable, key), Seen(session, key) as real)
  {
    hide Sound, Pull, SumN, Scaled;
    SourcesAreSound(globalTable, repoTable, session, key);
    WeightPositive(SourcesOf(globalTable, repoTable, session, key));
    SourcesWeigh(globalTable, repoTable, session, key);
  }

  lemma StillSourced(globalTable: Table, repoTable: Table, session: Counts, later: Counts, key: string)
    requires Dense(session) && Dense(later) && Seen(session, key) <= Seen(later, key)
    requires SourcesOf(globalTable, repoTable, session, key) != []
    ensures SourcesOf(globalTable, repoTable, later, key) != []
  {
    hide SumN;
    if key in session {
      DenseSum(session, key);
    }
  }

  /**
   * More evidence never costs the session weight: over the same priors, the
   * session's share of the sources `propose` blends does not fall as its count
   * in the context grows.
   */
  lemma ShareNeverFalls(globalTable: Table, repoTable: Table, session: Counts, later: Counts, key: string)
    requires UsableTable(globalTable) && UsableTable(repoTable) && Dense(session) && Dense(later)
    requires SourcesOf(globalTable, repoTable, session, key) != []
    requires Seen(session, key) <= Seen(later, key)
    ensures Weight(SourcesOf(globalTable, repoTable, session, key)) != 0.0
            && Weight(SourcesOf(globalTable, repoTable, later, key)) != 0.0
    ensures ShareOf(globalTable, repoTable, session, key) <= ShareOf(globalTable, repoTable, later, key)
  {
    hide ShareOf, SessionShare, PriorSupport, Seen, SourcesOf, UsableTable, Dense;
    StillSourced(globalTable, repoTable, session, later, key);
    ShareIs(globalTable, repoTable, session, key);
    ShareIs(globalTable, repoTable, later, key);
    FormulaNeverFalls(PriorSupport(globalTable, repoTable, key), Seen(session, key) as real, Seen(later, key) as real);
  }

  lemma PullFalls(p: real, n: real, m: real)
    requires 0.0 <= p && 0.0 <= n <= m
    ensures Pull(p, m) <= Pull(p, n)
  {
    CrossDivide(SUPPORT_CAP, SUPPORT_CAP + m, SUPPORT_CAP, SUPPORT_CAP + n);
    Scale(p, SUPPORT_CAP / (SUPPORT_CAP + m), SUPPORT_CAP / (SUPPORT_CAP + n));
  }

  lemma Scale(p: real, x: real, y: real)
    requires 0.0 <= p && 0.0 <= x <= y
    ensures 0.0 <= p * x <= p * y
  {
  }

  /** Against one prior at the cap, thirteen observations tip the balance. */
  lemma OutweighsAtThirteen(n: nat)
    ensures SessionWeight(n as real) > PriorWeight(SUPPORT_CAP, n as real) <==> n >= 13
  {
    hide PriorWeight, SessionWeight;
    CappedPrior(n as real);
    SessionBounds(n);
    DecayBounds(n);
  }

  lemma SessionBounds(n: nat)
    ensures if n >= 13 then 13.0 <= SessionWeight(n as real) else 0.0 <= SessionWeight(n as real) <= 12.0
  {
  }

  lemma CappedPrior(x: real)
    requires 0.0 <= x
    ensures PriorWeight(SUPPORT_CAP, x) == 20.0 * (SUPPORT_CAP / (SUPPORT_CAP + x))
  {
  }

  lemma DecayBounds(n: nat)
    ensures var decay := SUPPORT_CAP / (SUPPORT_CAP + n as real);
            if n >= 13 then decay <= 20.0 / 33.0 else 20.0 / 32.0 <= decay
  {
    var x := n as real;
    if n >= 13 {
      CrossDivide(SUPPORT_CAP, SUPPORT_CAP + x, 20.0, 33.0);
    } else {
      CrossDivide(20.0, 32.0, SUPPORT_CAP, SUPPORT_CAP + x);
    }
  }

  lemma DecayTimes(x: real)
    requires 0.0 <= x
    ensures (20.0 + x) * (SUPPORT_CAP / (SUPPORT_CAP + x)) == 20.0
  {
  }

  lemma Compare(k: real, a: real, b: real)
    requires 0.0 < k
    ensures a < b <==> k * a < k * b
  {
    Grows(k, b - a);
    assert k * (b - a) == k * b - k * a;
  }

  lemma Grows(k: real, d: real)
    requires 0.0 < k
    ensures 0.0 < d <==> 0.0 < k * d
  {
  }

  /**
   * From twenty observations on the session holds at least half the weight
   * against any two priors; against two at the cap, exactly from twenty on.
   */
  lemma HalfFromTwenty(n: nat, a: real, b: real)
    requires 0.0 <= a && 0.0 <= b
    ensures n >= 20 ==> PriorWeight(a, n as real) + PriorWeight(b, n as real) <= SessionWeight(n as real)
    ensures a >= SUPPORT_CAP && b >= SUPPORT_CAP ==>
              (PriorWeight(a, n as real) + PriorWeight(b, n as real) <= SessionWeight(n as real) <==> n >= 20)
  {
    var x := n as real;
    var decay := SUPPORT_CAP / (SUPPORT_CAP + x);
    DecayTimes(x);
    Compare(20.0 + x, 0.5, decay);
    assert PriorWeight(a, x) == decay * Min(a, SUPPORT_CAP) && PriorWeight(b, x) == decay * Min(b, SUPPORT_CAP);
    Scale(decay, Min(a, SUPPORT_CAP), 20.0);
    Scale(decay, Min(b, SUPPORT_CAP), 20.0);
    if n >= 20 {
      assert decay <= 0.5;
    } else {
      assert decay > 0.5;
    }
  }
}
