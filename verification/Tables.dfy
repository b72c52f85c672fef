/**
 * The learned table on disk: `_persist_repo_table` (src/sfx/daemon.py:99-120)
 * turns counts into probabilities and back without ever losing one.
 */
module Tables {
  import opened Common
  import opened Sums
  import opened Predictors

  datatype Entry = Entry(support: nat, p: Dist)

  type Table = map<string, Entry>

  /* Encoding and decoding */

  ghost function Encoded(ctr: Counter): (e: Entry)
    requires SumN(ctr) > 0
  {
    Entry(SumN(ctr), Scaled(ctr, SumN(ctr) as real))
  }

  lemma DenseSum(c: Counts, key: string)
    requires Dense(c) && key in c
    ensures SumN(c[key]) > 0
  {
    var kind :| kind in c[key];
    PositiveN(c[key], kind);
  }

  ghost function EncodedAll(c: Counts): Table
    requires Dense(c)
  {
    map key | key in c :: (DenseSum(c, key); Encoded(c[key]))
  }

  /** Python's `round`: to the nearest integer, halves to the even one. */
  function Round(x: real): int {
    var below := x.Floor;
    var rest := x - below as real;
    if rest < 0.5 || (rest == 0.5 && below % 2 == 0) then below else below + 1
  }

  predicate Loadable(e: Entry) {
    forall kind :: kind in e.p ==> 0.0 <= e.p[kind]
  }

  function Rounded(e: Entry, kind: string): nat
    requires Loadable(e) && kind in e.p
  {
    assert 0.0 <= e.support as real * e.p[kind];
    Round(e.support as real * e.p[kind])
  }

  function Decoded(e: Entry): Counter
    requires Loadable(e)
  {
    map kind | kind in e.p :: Rounded(e, kind)
  }

  function DecodedAll(t: Table): Counts
    requires forall key :: key in t ==> Loadable(t[key])
  {
    map key | key in t :: Decoded(t[key])
  }

  lemma ProductIsCount(s: nat, c: nat, p: real)
    requires 0 < s && p == c as real / s as real
    ensures Round(s as real * p) == c
  {
    assert s as real * p == c as real;
  }

  lemma RoundedIs(e: Entry, c: nat, kind: string)
    requires Loadable(e) && kind in e.p && 0 < e.support && e.p[kind] == c as real / e.support as real
    ensures Rounded(e, kind) == c
  {
    ProductIsCount(e.support, c, e.p[kind]);
  }

  /** Over exact arithmetic the table is only another way to write the counts. */
  lemma DecodesWhatWasEncoded(ctr: Counter)
    requires SumN(ctr) > 0
    ensures Loadable(Encoded(ctr)) && Decoded(Encoded(ctr)) == ctr
  {
    hide Rounded;
    var e := Encoded(ctr);
    forall kind | kind in ctr
      ensures kind in e.p && 0.0 <= e.p[kind]
    {
      Nonnegative(ctr[kind], e.support);
    }
    forall kind | kind in ctr
      ensures Rounded(e, kind) == ctr[kind]
    {
      RoundedIs(e, ctr[kind], kind);
    }
  }

  lemma Nonnegative(c: nat, s: nat)
    requires 0 < s
    ensures 0.0 <= c as real / s as real
  {
  }

  lemma DecodesAll(c: Counts)
    requires Dense(c)
    ensures forall key :: key in EncodedAll(c) ==> Loadable(EncodedAll(c)[key])
    ensures DecodedAll(EncodedAll(c)) == c
  {
    forall key | key in c
      ensures Loadable(EncodedAll(c)[key]) && Decoded(EncodedAll(c)[key]) == c[key]
    {
      DenseSum(c, key);
      DecodesWhatWasEncoded(c[key]);
    }
  }

  /**
   * Under floating point the division and the product each carry a relative
   * error of at most 2^-53; for counts below 2^51 rounding still recovers them.
   */
  lemma RoundingRecovers(s: nat, c: nat, quotient: real, product: real)
    requires 0 < s && c < 0x8_0000_0000_0000
    requires var u := 1.0 / 0x20_0000_0000_0000 as real;
             && (1.0 - u) * (c as real / s as real) <= quotient <= (1.0 + u) * (c as real / s as real)
             && (1.0 - u) * (s as real * quotient) <= product <= (1.0 + u) * (s as real * quotient)
    ensures Round(product) == c
  {
    var u := 1.0 / 0x20_0000_0000_0000 as real;
    var count := c as real;
    BackAgain(count, s as real);
    TwiceRounded(s as real, count / s as real, count, u, quotient, product);
    Close(count, u);
    Nearest(product, c);
  }

  lemma Nearest(x: real, c: int)
    requires c as real - 0.5 < x < c as real + 0.5
    ensures Round(x) == c
  {
  }

  lemma TwiceRounded(s: real, q: real, count: real, u: real, quotient: real, product: real)
    requires 0.0 <= s && s * q == count && 0.0 <= u <= 1.0
    requires (1.0 - u) * q <= quotient <= (1.0 + u) * q
    requires (1.0 - u) * (s * quotient) <= product <= (1.0 + u) * (s * quotient)
    ensures (1.0 - u) * ((1.0 - u) * count) <= product <= (1.0 + u) * ((1.0 + u) * count)
  {
    TwoRoundings(s, q, 1.0 - u, 1.0 + u, quotient, product);
  }

  lemma BackAgain(count: real, s: real)
    requires s != 0.0
    ensures s * (count / s) == count
  {
  }

  /** Two relative errors on the way from `q` to a product with `s`. */
  lemma TwoRoundings(s: real, q: real, lo: real, hi: real, quotient: real, product: real)
    requires 0.0 <= s && 0.0 <= lo && 0.0 <= hi
    requires lo * q <= quotient <= hi * q
    requires lo * (s * quotient) <= product <= hi * (s * quotient)
    ensures lo * (lo * (s * q)) <= product <= hi * (hi * (s * q))
  {
    ScaleBounds(s, lo * q, quotient, hi * q);
    Regroup(s, lo, q);
    Regroup(s, hi, q);
    ScaleBounds(lo, lo * (s * q), s * quotient, s * quotient);
    ScaleBounds(hi, s * quotient, s * quotient, hi * (s * q));
  }

  lemma ScaleBounds(a: real, lo: real, x: real, hi: real)
    requires 0.0 <= a && lo <= x <= hi
    ensures a * lo <= a * x <= a * hi
  {
  }

  lemma Regroup(s: real, a: real, x: real)
    ensures s * (a * x) == a * (s * x)
  {
  }

  lemma Close(c: real, u: real)
    requires u == 1.0 / 0x20_0000_0000_0000 as real && 0.0 <= c <= 0x7_ffff_ffff_ffff as real
    ensures c - 0.5 < (1.0 - u) * ((1.0 - u) * c)
    ensures (1.0 + u) * ((1.0 + u) * c) < c + 0.5
  {
    var low := (1.0 - u) * (1.0 - u);
    var high := (1.0 + u) * (1.0 + u);
    assert (1.0 - u) * ((1.0 - u) * c) == low * c && (1.0 + u) * ((1.0 + u) * c) == high * c;
    ScaleBounds(1.0 - low, 0.0, c, 0x7_ffff_ffff_ffff as real);
    ScaleBounds(high - 1.0, 0.0, c, 0x7_ffff_ffff_ffff as real);
  }

  /** Above 2^53 the support is rounded too; counts below 2^50 survive the third rounding. */
  lemma RoundingRecoversLarge(s: nat, float: real, c: nat, quotient: real, product: real)
    requires 0 < s && c < 0x4_0000_0000_0000
    requires var u := 1.0 / 0x20_0000_0000_0000 as real;
             && (1.0 - u) * s as real <= float <= (1.0 + u) * s as real
             && (1.0 - u) * (c as real / s as real) <= quotient <= (1.0 + u) * (c as real / s as real)
             && (1.0 - u) * (float * quotient) <= product <= (1.0 + u) * (float * quotient)
    ensures Round(product) == c
  {
    var u := 1.0 / 0x20_0000_0000_0000 as real;
    var count := c as real;
    BackAgain(count, s as real);
    ThreeRoundings(s as real, count / s as real, count, 1.0 - u, 1.0 + u, float, quotient, product);
    CloseAfterThree(count, u);
    Nearest(product, c);
  }

  lemma ThreeRoundings(s: real, q: real, count: real, lo: real, hi: real, float: real, quotient: real, product: real)
    requires s * q == count && 0.0 <= q && 0.0 <= float && 0.0 <= lo && 0.0 <= hi
    requires lo * s <= float <= hi * s
    requires lo * q <= quotient <= hi * q
    requires lo * (float * quotient) <= product <= hi * (float * quotient)
    ensures lo * (lo * (lo * count)) <= product <= hi * (hi * (hi * count))
  {
    TwoRoundings(float, q, lo, hi, quotient, product);
    Support(s, q, count, lo, hi, float);
    Between(lo, hi, lo * count, float * q, hi * count, product);
  }

  lemma Support(s: real, q: real, count: real, lo: real, hi: real, float: real)
    requires s * q == count && 0.0 <= q && lo * s <= float <= hi * s
    ensures lo * count <= float * q <= hi * count
  {
    ScaleBounds(q, lo * s, float, hi * s);
    Reorder(q, lo, s, count);
    Reorder(q, hi, s, count);
    assert q * float == float * q;
  }

  lemma Between(lo: real, hi: real, low: real, x: real, high: real, product: real)
    requires 0.0 <= lo && 0.0 <= hi && low <= x <= high
    requires lo * (lo * x) <= product <= hi * (hi * x)
    ensures lo * (lo * low) <= product <= hi * (hi * high)
  {
    ScaleBounds(lo, low, x, x);
    ScaleBounds(hi, x, x, high);
    ScaleBounds(lo, lo * low, lo * x, lo * x);
    ScaleBounds(hi, hi * x, hi * x, hi * high);
  }

  lemma Reorder(q: real, a: real, s: real, count: real)
    requires s * q == count
    ensures q * (a * s) == a * count
  {
    calc {
      q * (a * s);
      a * (s * q);
      a * count;
    }
  }

  lemma CloseAfterThree(c: real, u: real)
    requires u == 1.0 / 0x20_0000_0000_0000 as real && 0.0 <= c <= 0x3_ffff_ffff_ffff as real
    ensures c - 0.5 < (1.0 - u) * ((1.0 - u) * ((1.0 - u) * c))
    ensures (1.0 + u) * ((1.0 + u) * ((1.0 + u) * c)) < c + 0.5
  {
    var low := (1.0 - u) * (1.0 - u) * (1.0 - u);
    var high := (1.0 + u) * (1.0 + u) * (1.0 + u);
    assert (1.0 - u) * ((1.0 - u) * ((1.0 - u) * c)) == low * c;
    assert (1.0 + u) * ((1.0 + u) * ((1.0 + u) * c)) == high * c;
    ScaleBounds(1.0 - low, 0.0, c, 0x3_ffff_ffff_ffff as real);
    ScaleBounds(high - 1.0, 0.0, c, 0x3_ffff_ffff_ffff as real);
  }

  /* Merging */

  function MergedCounter(a: Counter, b: Counter): Counter {
    map kind | kind in a.Keys + b.Keys :: GetOr(a, kind, 0) + GetOr(b, kind, 0)
  }

  function Merged(c: Counts, d: Counts): Counts {
    map key | key in c.Keys + d.Keys :: MergedCounter(GetOr(c, key, map[]), GetOr(d, key, map[]))
  }

  lemma MergedAt(c: Counts, d: Counts, key: string, kind: string)
    ensures At(Merged(c, d), key, kind) == At(c, key, kind) + At(d, key, kind)
  {
  }

  lemma MergedIsDense(c: Counts, d: Counts)
    requires Dense(c) && Dense(d)
    ensures Dense(Merged(c, d))
    ensures forall key, kind :: At(Merged(c, d), key, kind) == At(c, key, kind) + At(d, key, kind)
  {
    forall key, kind
      ensures At(Merged(c, d), key, kind) == At(c, key, kind) + At(d, key, kind)
    {
      MergedAt(c, d, key, kind);
    }
    hide At;
    forall key | key in Merged(c, d)
      ensures Merged(c, d)[key] != map[] && forall kind :: kind in Merged(c, d)[key] ==> 0 < Merged(c, d)[key][kind]
    {
      if key in c {
        var kind :| kind in c[key];
        assert kind in Merged(c, d)[key];
      } else {
        var kind :| kind in d[key];
        assert kind in Merged(c, d)[key];
      }
    }
  }

  /** `sum` has taken in the kinds of `more` but those in `todo`. */
  ghost predicate Taking(ctr: Counter, more: Counter, todo: set<string>, sum: Counter) {
    && todo <= more.Keys
    && sum.Keys == ctr.Keys + (more.Keys - todo)
    && forall kind :: kind in sum ==>
         sum[kind] == GetOr(ctr, kind, 0) + if kind in todo then 0 else GetOr(more, kind, 0)
  }

  lemma TakeNone(ctr: Counter, more: Counter)
    ensures Taking(ctr, more, more.Keys, ctr)
  {
  }

  lemma TakeNext(ctr: Counter, more: Counter, todo: set<string>, sum: Counter, kind: string)
    requires Taking(ctr, more, todo, sum) && kind in todo
    ensures Taking(ctr, more, todo - {kind}, sum[kind := GetOr(sum, kind, 0) + more[kind]])
  {
  }

  lemma TookAll(ctr: Counter, more: Counter, sum: Counter)
    requires Taking(ctr, more, {}, sum)
    ensures sum == MergedCounter(ctr, more)
  {
  }

  /** `Counter.update`. */
  method Update(ctr: Counter, more: Counter) returns (sum: Counter)
    ensures sum == MergedCounter(ctr, more)
  {
    hide Taking, MergedCounter;
    sum := ctr;
    var todo := more.Keys;
    TakeNone(ctr, more);
    while todo != {}
      invariant todo <= more.Keys && Taking(ctr, more, todo, sum)
      decreases |todo|
    {
      var kind :| kind in todo;
      TakeNext(ctr, more, todo, sum, kind);
      sum := sum[kind := GetOr(sum, kind, 0) + more[kind]];
      todo := todo - {kind};
    }
    TookAll(ctr, more, sum);
  }

  /** `counts` has merged the keys of `session` but those in `todo`. */
  ghost predicate Merging(base: Counts, session: Counts, todo: set<string>, counts: Counts) {
    && todo <= session.Keys
    && counts.Keys == base.Keys + (session.Keys - todo)
    && forall key :: key in counts ==>
         counts[key] == if key in session && key !in todo
                        then MergedCounter(GetOr(base, key, map[]), session[key]) else base[key]
  }

  lemma MergeNone(base: Counts, session: Counts)
    ensures Merging(base, session, session.Keys, base)
  {
  }

  lemma MergeNext(base: Counts, session: Counts, todo: set<string>, counts: Counts, key: string)
    requires Merging(base, session, todo, counts) && key in todo
    ensures Merging(base, session, todo - {key},
                    counts[key := MergedCounter(GetOr(counts, key, map[]), session[key])])
  {
    hide MergedCounter;
  }

  lemma MergeDone(base: Counts, session: Counts, counts: Counts)
    requires Merging(base, session, {}, counts)
    ensures counts == Merged(base, session)
  {
    hide MergedCounter;
    forall key | key in counts
      ensures counts[key] == MergedCounter(GetOr(base, key, map[]), GetOr(session, key, map[]))
    {
      MergedWithNothing(counts[key]);
    }
  }

  lemma MergedWithNothing(ctr: Counter)
    ensures MergedCounter(ctr, map[]) == ctr
  {
  }

  /** The accumulating loop of `_persist_repo_table`. */
  method Accumulate(base: Counts, session: Counts) returns (counts: Counts)
    ensures counts == Merged(base, session)
  {
    hide Merging, Merged, MergedCounter;
    counts := base;
    var todo := session.Keys;
    MergeNone(base, session);
    while todo != {}
      invariant todo <= session.Keys && Merging(base, session, todo, counts)
      decreases |todo|
    {
      var key :| key in todo;
      MergeNext(base, session, todo, counts, key);
      var ctr := Update(GetOr(counts, key, map[]), session[key]);
      counts := counts[key := ctr];
      todo := todo - {key};
    }
    MergeDone(base, session, counts);
  }

  /** The loop that turns counts into the table to write. */
  method Encode(counts: Counts) returns (table: Table)
    requires Dense(counts)
    ensures table == EncodedAll(counts)
  {
    table := map[];
    var todo := counts.Keys;
    while todo != {}
      invariant todo <= counts.Keys
      invariant table.Keys == counts.Keys - todo
      invariant forall key :: key in table ==> table[key] == EncodedAll(counts)[key]
      decreases |todo|
    {
      var key :| key in todo;
      DenseSum(counts, key);
      var support := Total(counts[key]);
      table := table[key := Entry(support, Scaled(counts[key], support as real))];
      todo := todo - {key};
    }
  }

  /** One `session_end`: nothing is written for a session that counted nothing. */
  method Persist(existing: Option<Table>, session: Counts) returns (written: Option<Table>)
    requires Dense(session)
    requires existing.Some? ==> forall key :: key in existing.value ==> Loadable(existing.value[key])
    requires existing.Some? ==> Dense(DecodedAll(existing.value))
    ensures written == Persisted(existing, session)
  {
    if session == map[] {
      return existing;
    }
    var base := if existing.Some? then DecodedAll(existing.value) else map[];
    var counts := Accumulate(base, session);
    MergedIsDense(base, session);
    var table := Encode(counts);
    written := Some(table);
  }

  ghost function Persisted(existing: Option<Table>, session: Counts): Option<Table>
    requires Dense(session)
    requires existing.Some? ==> forall key :: key in existing.value ==> Loadable(existing.value[key])
    requires existing.Some? ==> Dense(DecodedAll(existing.value))
  {
    if session == map[] then existing
    else
      var base := if existing.Some? then DecodedAll(existing.value) else map[];
      MergedIsDense(base, session);
      Some(EncodedAll(Merged(base, session)))
  }

  /* Whole histories of sessions */

  ghost predicate AllDense(batches: seq<Counts>) {
    forall b :: b in batches ==> Dense(b)
  }

  ghost function MergedAll(batches: seq<Counts>): (c: Counts)
    requires AllDense(batches)
    ensures Dense(c)
  {
    if batches == [] then map[]
    else
      var before := MergedAll(batches[..|batches| - 1]);
      MergedIsDense(before, batches[|batches| - 1]);
      Merged(before, batches[|batches| - 1])
  }

  /** The file as the counts it stands for: no file until something was counted. */
  ghost function FileOf(c: Counts): Option<Table>
    requires Dense(c)
  {
    if c == map[] then None else Some(EncodedAll(c))
  }

  /** Ending a session over the file of `c` leaves the file of the pointwise sum. */
  lemma PersistMerges(c: Counts, session: Counts)
    requires Dense(c) && Dense(session)
    ensures FileOf(c).Some? ==> forall key :: key in FileOf(c).value ==> Loadable(FileOf(c).value[key])
    ensures FileOf(c).Some? ==> Dense(DecodedAll(FileOf(c).value))
    ensures Dense(Merged(c, session)) && Persisted(FileOf(c), session) == FileOf(Merged(c, session))
  {
    DecodesAll(c);
    MergedIsDense(c, session);
    if session == map[] {
      SameCounts(Merged(c, session), c);
    } else {
      var key :| key in session;
      assert key in Merged(c, session);
    }
  }

  /** Lossless merge: sessions ending one after the other leave the file of their pointwise sum. */
  ghost function PersistedAll(batches: seq<Counts>): (written: Option<Table>)
    requires AllDense(batches)
    ensures written == FileOf(MergedAll(batches))
  {
    if batches == [] then None
    else
      var before := batches[..|batches| - 1];
      PersistMerges(MergedAll(before), batches[|batches| - 1]);
      Persisted(PersistedAll(before), batches[|batches| - 1])
  }

  ghost function Sum(batches: seq<Counts>, key: string, kind: string): nat {
    if batches == [] then 0
    else Sum(batches[..|batches| - 1], key, kind) + At(batches[|batches| - 1], key, kind)
  }

  lemma {:induction false} MergedAllIsSum(batches: seq<Counts>, key: string, kind: string)
    requires AllDense(batches)
    ensures At(MergedAll(batches), key, kind) == Sum(batches, key, kind)
    decreases |batches|
  {
    if batches != [] {
      var before := batches[..|batches| - 1];
      MergedAllIsSum(before, key, kind);
      MergedIsDense(MergedAll(before), batches[|batches| - 1]);
    }
  }

  lemma {:induction false} SumWithout(batches: seq<Counts>, i: nat, key: string, kind: string)
    requires i < |batches|
    ensures Sum(batches, key, kind) == Sum(batches[..i] + batches[i + 1..], key, kind) + At(batches[i], key, kind)
    decreases |batches|
  {
    hide At;
    var n := |batches| - 1;
    if i < n {
      SumWithout(batches[..n], i, key, kind);
      WithoutLast(batches, i);
    } else {
      assert batches[..i] + batches[i + 1..] == batches[..n];
    }
  }

  lemma WithoutLast<T>(s: seq<T>, i: nat)
    requires i < |s| - 1
    ensures var rest, n := s[..i] + s[i + 1..], |s| - 1;
            && |rest| == n && rest[n - 1] == s[n]
            && rest[..n - 1] == s[..n][..i] + s[..n][i + 1..]
  {
  }

  /** Where the last element of `a` is in a permutation of it. */
  lemma LastIn<T>(a: seq<T>, b: seq<T>) returns (i: nat)
    requires a != [] && multiset(a) == multiset(b)
    ensures i < |b| && b[i] == a[|a| - 1]
    ensures multiset(a[..|a| - 1]) == multiset(b[..i] + b[i + 1..])
  {
    var n := |a| - 1;
    assert a[n] in multiset(b);
    i :| i < |b| && b[i] == a[n];
    WithoutOne(b, i);
    WithoutOne(a, n);
    assert a[..n] + a[n + 1..] == a[..n];
  }

  lemma WithoutOne<T>(s: seq<T>, i: nat)
    requires i < |s|
    ensures multiset(s[..i] + s[i + 1..]) == multiset(s) - multiset{s[i]}
  {
    assert s == s[..i] + [s[i]] + s[i + 1..];
  }

  lemma {:induction false} SumOfPermutation(a: seq<Counts>, b: seq<Counts>, key: string, kind: string)
    requires multiset(a) == multiset(b)
    ensures Sum(a, key, kind) == Sum(b, key, kind)
    decreases |a|
  {
    if a == [] {
      assert |multiset(b)| == 0;
    } else {
      var i := LastIn(a, b);
      SumWithout(b, i, key, kind);
      SumOfPermutation(a[..|a| - 1], b[..i] + b[i + 1..], key, kind);
    }
  }

  /** The file depends neither on the order in which sessions end ... */
  lemma OrderIndependent(a: seq<Counts>, b: seq<Counts>)
    requires AllDense(a) && AllDense(b) && multiset(a) == multiset(b)
    ensures PersistedAll(a) == PersistedAll(b)
  {
    SameMerge(a, b);
  }

  lemma SameMerge(a: seq<Counts>, b: seq<Counts>)
    requires AllDense(a) && AllDense(b) && multiset(a) == multiset(b)
    ensures MergedAll(a) == MergedAll(b)
  {
    forall key, kind
      ensures At(MergedAll(a), key, kind) == At(MergedAll(b), key, kind)
    {
      MergedAllIsSum(a, key, kind);
      MergedAllIsSum(b, key, kind);
      SumOfPermutation(a, b, key, kind);
    }
    SameCounts(MergedAll(a), MergedAll(b));
  }

  lemma {:induction false} SumConcat(a: seq<Counts>, b: seq<Counts>, key: string, kind: string)
    ensures Sum(a + b, key, kind) == Sum(a, key, kind) + Sum(b, key, kind)
    decreases |b|
  {
    if b == [] {
      assert a + b == a;
    } else {
      assert (a + b)[..|a + b| - 1] == a + b[..|b| - 1];
      SumConcat(a, b[..|b| - 1], key, kind);
    }
  }

  /** ... nor on how their counts are grouped before they are merged. */
  lemma GroupingIndependent(a: seq<Counts>, b: seq<Counts>)
    requires AllDense(a) && AllDense(b)
    ensures AllDense(a + b) && AllDense(a + [MergedAll(b)])
    ensures PersistedAll(a + b) == PersistedAll(a + [MergedAll(b)])
  {
    assert AllDense(a + b) && AllDense(a + [MergedAll(b)]);
    forall key, kind
      ensures At(MergedAll(a + b), key, kind) == At(MergedAll(a + [MergedAll(b)]), key, kind)
    {
      MergedAllIsSum(a + b, key, kind);
      MergedAllIsSum(a + [MergedAll(b)], key, kind);
      MergedAllIsSum(b, key, kind);
      SumConcat(a, b, key, kind);
      assert (a + [MergedAll(b)])[..|a|] == a;
    }
    SameCounts(MergedAll(a + b), MergedAll(a + [MergedAll(b)]));
  }

  /* The same over floating point */

  /** `x` is `exact` but for one rounding. */
  predicate Near(x: real, exact: real) {
    var u := 1.0 / 0x20_0000_0000_0000 as real;
    (1.0 - u) * exact <= x <= (1.0 + u) * exact
  }

  function Times(x: real, y: real): real {
    x * y
  }

  /** An integer as a float: exact up to 2^53. */
  predicate FloatOf(x: real, n: nat) {
    if n <= 0x20_0000_0000_0000 then x == n as real else Near(x, n as real)
  }

  /** What the file says of some counts: supports are integers, each quotient was rounded once. */
  ghost predicate FloatEntry(e: Entry, ctr: Counter) {
    && e.support == SumN(ctr) && 0 < e.support && e.p.Keys == ctr.Keys
    && forall kind :: kind in ctr ==> Near(e.p[kind], ctr[kind] as real / e.support as real)
  }

  ghost predicate FloatFile(t: Table, c: Counts) {
    t.Keys == c.Keys && forall key :: key in c ==> FloatEntry(t[key], c[key])
  }

  /** One count read back: the support as a float, one rounded product, rounded to an integer. */
  ghost predicate FloatRead(support: nat, p: real, count: int) {
    exists s: real, product: real :: FloatOf(s, support) && Near(product, Times(s, p)) && count == Round(product)
  }

  /** Some counts the loading loop may come to from a file. */
  ghost predicate FloatDecoded(t: Table, c: Counts) {
    && c.Keys == t.Keys
    && forall key :: key in t ==>
         && c[key].Keys == t[key].p.Keys
         && forall kind :: kind in c[key] ==> FloatRead(t[key].support, t[key].p[kind], c[key][kind])
  }

  /** A session end under floating point may turn `existing` into `written`. */
  ghost predicate FloatEnd(existing: Option<Table>, session: Counts, written: Option<Table>) {
    if session == map[] then written == existing
    else
      exists base: Counts ::
        && (if existing.Some? then FloatDecoded(existing.value, base) else base == map[])
        && written.Some? && FloatFile(written.value, Merged(base, session))
  }

  /** Sessions ending one after the other, from no file on, may leave `written`. */
  ghost predicate FloatRun(batches: seq<Counts>, written: Option<Table>) {
    if batches == [] then written == None
    else
      var before, session := batches[..|batches| - 1], batches[|batches| - 1];
      exists existing: Option<Table> :: FloatRun(before, existing) && FloatEnd(existing, session, written)
  }

  /** Below 2^51 while the support is an exact float, below 2^50 once it is rounded too. */
  predicate Recoverable(support: nat, count: nat) {
    count < if support <= 0x20_0000_0000_0000 then 0x8_0000_0000_0000 else 0x4_0000_0000_0000
  }

  ghost predicate Representable(c: Counts) {
    forall key :: key in c ==> forall kind :: kind in c[key] ==> Recoverable(SumN(c[key]), c[key][kind])
  }

  lemma NearRecovers(s: nat, float: real, c: nat, quotient: real, product: real)
    requires 0 < s && Recoverable(s, c) && FloatOf(float, s)
    requires Near(quotient, c as real / s as real) && Near(product, Times(float, quotient))
    ensures Round(product) == c
  {
    hide Round;
    if s <= 0x20_0000_0000_0000 {
      RoundingRecovers(s, c, quotient, product);
    } else {
      RoundingRecoversLarge(s, float, c, quotient, product);
    }
  }

  lemma FloatReadsBack(support: nat, c: nat, p: real, count: int)
    requires 0 < support && Recoverable(support, c)
    requires Near(p, c as real / support as real) && FloatRead(support, p, count)
    ensures count == c
  {
    hide Round, Near, Times, FloatOf, Recoverable;
    var s: real, product: real :| FloatOf(s, support) && Near(product, Times(s, p)) && count == Round(product);
    NearRecovers(support, s, c, p, product);
  }

  lemma FloatDecodes(t: Table, c: Counts, base: Counts)
    requires FloatFile(t, c) && Representable(c) && FloatDecoded(t, base)
    ensures base == c
  {
    hide FloatRead, Near, SumN;
    forall key | key in c
      ensures base[key] == c[key]
    {
      forall kind | kind in c[key]
        ensures base[key][kind] == c[key][kind]
      {
        FloatReadsBack(t[key].support, c[key][kind], t[key].p[kind], base[key][kind]);
      }
    }
  }

  lemma {:induction false} MergedSum(a: Counter, b: Counter)
    ensures SumN(a) <= SumN(MergedCounter(a, b))
    decreases |a|
  {
    hide SumN, MergedCounter;
    if a == map[] {
      NoSum();
    } else {
      var kind :| kind in a;
      MergedWithout(a, b, kind);
      SplitN(a, kind);
      SplitN(MergedCounter(a, b), kind);
      MergedSum(a - {kind}, b - {kind});
    }
  }

  lemma NoSum()
    ensures SumN(map[]) == 0
  {
  }

  lemma MergedWithout(a: Counter, b: Counter, kind: string)
    requires kind in a
    ensures kind in MergedCounter(a, b) && a[kind] <= MergedCounter(a, b)[kind]
    ensures MergedCounter(a, b) - {kind} == MergedCounter(a - {kind}, b - {kind})
  {
  }

  /** What is representable after a session was before it. */
  lemma RepresentableBefore(c: Counts, session: Counts)
    requires Representable(Merged(c, session))
    ensures Representable(c)
  {
    hide SumN;
    forall key | key in c
      ensures forall kind :: kind in c[key] ==> Recoverable(SumN(c[key]), c[key][kind])
    {
      var other: Counter := GetOr(session, key, map[]);
      assert Merged(c, session)[key] == MergedCounter(c[key], other);
      MergedSum(c[key], other);
      forall kind | kind in c[key]
        ensures Recoverable(SumN(c[key]), c[key][kind])
      {
        assert MergedCounter(c[key], other)[kind] == c[key][kind] + GetOr(other, kind, 0);
      }
    }
  }

  /** The file under floating point stands for counts `c`. */
  ghost predicate FloatFileOf(written: Option<Table>, c: Counts) {
    if c == map[] then written == None else written.Some? && FloatFile(written.value, c)
  }

  lemma FloatEndMerges(existing: Option<Table>, c: Counts, session: Counts, written: Option<Table>)
    requires Dense(c) && Dense(session) && FloatFileOf(existing, c) && Representable(c)
    requires FloatEnd(existing, session, written)
    ensures FloatFileOf(written, Merged(c, session))
  {
    hide FloatFile, FloatDecoded, Representable;
    MergedIsDense(c, session);
    if session == map[] {
      SameCounts(Merged(c, session), c);
    } else {
      var base: Counts :|
        && (if existing.Some? then FloatDecoded(existing.value, base) else base == map[])
        && written.Some? && FloatFile(written.value, Merged(base, session));
      if existing.Some? {
        FloatDecodes(existing.value, c, base);
      }
      var key :| key in session;
      assert key in Merged(c, session);
    }
  }

  /**
   * Lossless merge under floating point: whatever the roundings at each
   * quotient and product, any sequence of session ends leaves a file of the
   * pointwise sum of all counts, each support exact and each probability one
   * rounding from its quotient, as long as counts stay below 2^51, and below
   * 2^50 where the support has passed 2^53.
   */
  lemma {:induction false} FloatLossless(batches: seq<Counts>, written: Option<Table>)
    requires AllDense(batches) && Representable(MergedAll(batches)) && FloatRun(batches, written)
    ensures FloatFileOf(written, MergedAll(batches))
    decreases |batches|
  {
    hide Representable, FloatEnd, FloatFile, Dense;
    if batches != [] {
      var before, session := batches[..|batches| - 1], batches[|batches| - 1];
      var existing: Option<Table> :| FloatRun(before, existing) && FloatEnd(existing, session, written);
      assert session in batches;
      RepresentableBefore(MergedAll(before), session);
      FloatLossless(before, existing);
      FloatEndMerges(existing, MergedAll(before), session, written);
    }
  }

  /** Two runs over the same sessions in any order agree on everything the file is read back as. */
  lemma FloatOrderIndependent(a: seq<Counts>, b: seq<Counts>, written: Option<Table>, other: Option<Table>,
                              read: Counts, again: Counts)
    requires AllDense(a) && AllDense(b) && multiset(a) == multiset(b) && Representable(MergedAll(a))
    requires FloatRun(a, written) && FloatRun(b, other)
    ensures written.Some? <==> other.Some?
    ensures written.Some? && FloatDecoded(written.value, read) && FloatDecoded(other.value, again) ==> read == again
  {
    hide Representable, FloatFile, FloatDecoded, FloatRun;
    SameMerge(a, b);
    FloatLossless(a, written);
    FloatLossless(b, other);
    if written.Some? && FloatDecoded(written.value, read) && FloatDecoded(other.value, again) {
      FloatDecodes(written.value, MergedAll(a), read);
      FloatDecodes(other.value, MergedAll(a), again);
    }
  }

  /** Rounding nowhere is one of the ways to round: the exact file is a float file. */
  lemma ExactFileIsFloatFile(c: Counts)
    requires Dense(c)
    ensures FloatFileOf(FileOf(c), c)
  {
    hide FloatEntry;
    forall key | key in c
      ensures FloatEntry(EncodedAll(c)[key], c[key])
    {
      DenseSum(c, key);
      ExactEntry(c[key]);
    }
  }

  lemma ExactEntry(ctr: Counter)
    requires SumN(ctr) > 0
    ensures FloatEntry(Encoded(ctr), ctr)
  {
    var e := Encoded(ctr);
    forall kind | kind in ctr
      ensures Near(e.p[kind], ctr[kind] as real / e.support as real)
    {
      Nonnegative(ctr[kind], e.support);
      NearItself(ctr[kind] as real / e.support as real);
    }
  }

  lemma NearItself(x: real)
    requires 0.0 <= x
    ensures Near(x, x)
  {
  }

  lemma ExactReads(support: nat, c: nat, p: real)
    requires 0 < support && p == c as real / support as real
    ensures FloatRead(support, p, c)
  {
    hide Round;
    Nonnegative(c, support);
    NearItself(support as real);
    NearItself(Times(support as real, p));
    ProductIsCount(support, c, p);
    assert FloatOf(support as real, support) && Near(Times(support as real, p), Times(support as real, p));
  }

  lemma ExactDecodes(c: Counts)
    requires Dense(c)
    ensures FloatDecoded(EncodedAll(c), c)
  {
    hide FloatRead;
    forall key | key in c
      ensures c[key].Keys == EncodedAll(c)[key].p.Keys
      ensures forall kind :: kind in c[key] ==>
                FloatRead(EncodedAll(c)[key].support, EncodedAll(c)[key].p[kind], c[key][kind])
    {
      DenseSum(c, key);
      forall kind | kind in c[key]
        ensures FloatRead(EncodedAll(c)[key].support, EncodedAll(c)[key].p[kind], c[key][kind])
      {
        ExactReads(SumN(c[key]), c[key][kind], EncodedAll(c)[key].p[kind]);
      }
    }
  }

  /** The exact run is one of the runs `FloatLossless` speaks of. */
  lemma {:induction false} ExactRunIsFloatRun(batches: seq<Counts>)
    requires AllDense(batches)
    ensures FloatRun(batches, PersistedAll(batches))
    decreases |batches|
  {
    hide FloatFile, FloatDecoded, Dense, EncodedAll;
    if batches != [] {
      var before, session := batches[..|batches| - 1], batches[|batches| - 1];
      var c := MergedAll(before);
      assert session in batches;
      ExactRunIsFloatRun(before);
      MergedIsDense(c, session);
      PersistMerges(c, session);
      if session != map[] {
        var key :| key in session;
        assert key in Merged(c, session);
        ExactDecodes(c);
        ExactFileIsFloatFile(Merged(c, session));
      }
      assert FloatEnd(PersistedAll(before), session, PersistedAll(batches));
    }
  }
}
