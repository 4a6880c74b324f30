/**
 The 95th percentile of a Prometheus histogram family
 (src/baldur/adapters/prometheus_adapter.py): bucket counts are merged over every label
 set, the containing bucket is located, and the quantile is interpolated inside it.

 Counts and bounds are exact reals, so rounding is not modelled. Parsing an `le` label is
 a parameter; a label that does not parse has the infinite bound, as in the source.
 */
module HistogramP95 {
  import opened Wrappers

  const P95_QUANTILE: real := 0.95

  datatype Bound = Finite(edge: real) | Infinite

  type Parse = string -> Bound

  predicate Leq(a: Bound, b: Bound) {
    b.Infinite? || (a.Finite? && a.edge <= b.edge)
  }

  datatype Sample = Sample(name: string, le: Option<string>, value: real)

  predicate EndsWith(s: string, suffix: string) {
    |suffix| <= |s| && s[|s| - |suffix|..] == suffix
  }

  /** A sample of a bucket: the name ends in `_bucket` and there is an `le` label. */
  ghost predicate IsBucket(s: Sample) {
    s.le.Some? && exists family: string :: s.name == family + "_bucket"
  }

  lemma EndsInBucket(s: Sample)
    ensures IsBucket(s) <==> EndsWith(s.name, "_bucket") && s.le.Some?
  {
    if EndsWith(s.name, "_bucket") {
      assert s.name == s.name[..|s.name| - |"_bucket"|] + "_bucket";
    }
  }

  // ---------------------------------------------------------------------------
  // What the merge adds up
  // ---------------------------------------------------------------------------

  datatype Pair = Pair(le: string, value: real)

  /** The (`le`, value) pairs of the bucket samples, in sample order. */
  ghost function BucketPairs(samples: seq<Sample>): seq<Pair> {
    if samples == [] then []
    else
      var rest := BucketPairs(samples[..|samples| - 1]);
      var s := samples[|samples| - 1];
      if IsBucket(s) then rest + [Pair(s.le.value, s.value)] else rest
  }

  ghost function SumFor(pairs: seq<Pair>, le: string): real {
    if pairs == [] then 0.0
    else
      SumFor(pairs[..|pairs| - 1], le)
      + if pairs[|pairs| - 1].le == le then pairs[|pairs| - 1].value else 0.0
  }

  ghost predicate HasLabel(pairs: seq<Pair>, le: string) {
    exists i | 0 <= i < |pairs| :: pairs[i].le == le
  }

  lemma {:induction false} SumForConcat(a: seq<Pair>, b: seq<Pair>, le: string)
    ensures SumFor(a + b, le) == SumFor(a, le) + SumFor(b, le)
  {
    if b == [] {
      assert a + b == a;
    } else {
      assert (a + b)[..|a + b| - 1] == a + b[..|b| - 1];
      SumForConcat(a, b[..|b| - 1], le);
    }
  }

  /** The merged sums do not depend on the order in which the samples arrive. */
  lemma {:induction false} SumForPermutation(a: seq<Pair>, b: seq<Pair>, le: string)
    requires multiset(a) == multiset(b)
    ensures SumFor(a, le) == SumFor(b, le)
    decreases |a|
  {
    if a == [] {
      assert |multiset(b)| == 0;
    } else {
      var p := a[|a| - 1];
      var rest := a[..|a| - 1];
      assert a == rest + [p];
      assert p in multiset(b);
      var i :| 0 <= i < |b| && b[i] == p;
      assert b == b[..i] + [p] + b[i + 1..];
      assert multiset(rest) == multiset(a) - multiset{p};
      assert multiset(b[..i] + b[i + 1..]) == multiset(b) - multiset{p};
      SumForPermutation(rest, b[..i] + b[i + 1..], le);
      SumForConcat(b[..i], b[i + 1..], le);
      SumForConcat(b[..i] + [p], b[i + 1..], le);
      SumForConcat(b[..i], [p], le);
    }
  }

  // ---------------------------------------------------------------------------
  // Selecting the bucket and interpolating
  // ---------------------------------------------------------------------------

  ghost predicate SortedByBound(parse: Parse, s: seq<string>) {
    forall i, j | 0 <= i < j < |s| :: Leq(parse(s[i]), parse(s[j]))
  }

  /** Insert after every key whose bound is not larger, as a stable sort does. */
  function Insert(parse: Parse, s: seq<string>, key: string): (r: seq<string>)
    requires SortedByBound(parse, s)
    ensures SortedByBound(parse, r) && forall k :: k in r <==> k in s || k == key
  {
    if s == [] || !Leq(parse(s[0]), parse(key)) then [key] + s
    else
      var rest := Insert(parse, s[1..], key);
      assert forall k | k in rest :: k in s[1..] || k == key;
      assert forall i | 0 <= i < |rest| :: Leq(parse(s[0]), parse(rest[i])) by {
        forall i | 0 <= i < |rest| ensures Leq(parse(s[0]), parse(rest[i])) {
          assert rest[i] in rest;
        }
      }
      [s[0]] + rest
  }

  method SortByBound(parse: Parse, keys: seq<string>) returns (sorted: seq<string>)
    ensures SortedByBound(parse, sorted) && forall k :: k in sorted <==> k in keys
  {
    sorted := [];
    for i := 0 to |keys|
      invariant SortedByBound(parse, sorted) && forall k :: k in sorted <==> k in keys[..i]
    {
      sorted := Insert(parse, sorted, keys[i]);
      assert keys[..i + 1] == keys[..i] + [keys[i]];
    }
    assert keys[..|keys|] == keys;
  }

  /** `index` is the first bucket whose cumulative count reaches the rank. */
  ghost predicate Selects(cumulative: seq<real>, index: nat) {
    && index < |cumulative|
    && var rank := 0.95 * cumulative[|cumulative| - 1];
       cumulative[index] >= rank && forall k | 0 <= k < index :: cumulative[k] < rank
  }

  /** The last finite bound of the list: the highest one when the list is sorted. */
  function LastFinite(parse: Parse, bounds: seq<string>): Option<real> {
    if bounds == [] then None
    else
      match parse(bounds[|bounds| - 1])
      case Finite(edge) => Some(edge)
      case Infinite => LastFinite(parse, bounds[..|bounds| - 1])
  }

  ghost function Lower(parse: Parse, bounds: seq<string>, index: nat): Bound
    requires index < |bounds|
  {
    if index > 0 then parse(bounds[index - 1]) else Finite(0.0)
  }

  ghost function Below(cumulative: seq<real>, index: nat): real
    requires index < |cumulative|
  {
    if index > 0 then cumulative[index - 1] else 0.0
  }

  /** The straight line through (`lower`, `below`) and (`upper`, `reached`) has the value `rank` at `v`. */
  ghost predicate OnLine(lower: real, upper: real, rank: real, below: real, reached: real, v: real) {
    (v - lower) * (reached - below) == (upper - lower) * (rank - below)
  }

  /** What is returned once the observations are known to be positive. */
  ghost predicate IsQuantile(parse: Parse, bounds: seq<string>, cumulative: seq<real>, index: nat, r: Option<real>) {
    && |bounds| == |cumulative| && Selects(cumulative, index)
    && match parse(bounds[index])
       case Infinite => r == LastFinite(parse, bounds)
       case Finite(upper) =>
         && Lower(parse, bounds, index).Finite?
         && cumulative[index] - Below(cumulative, index) > 0.0
         && r.Some?
         && OnLine(Lower(parse, bounds, index).edge, upper, 0.95 * cumulative[|cumulative| - 1],
                   Below(cumulative, index), cumulative[index], r.value)
  }

  /** The whole result: `None` without observations, and otherwise the quantile of some sorted bounds. */
  ghost predicate IsP95(samples: seq<Sample>, parse: Parse, r: Option<real>) {
    exists bounds: seq<string>, index: nat :: IsP95Of(samples, parse, bounds, index, r)
  }

  ghost predicate IsP95Of(samples: seq<Sample>, parse: Parse, bounds: seq<string>, index: nat, r: Option<real>) {
    var pairs := BucketPairs(samples);
    && SortedByBound(parse, bounds)
    && (forall k :: k in bounds <==> HasLabel(pairs, k))
    && if bounds == [] || SumFor(pairs, bounds[|bounds| - 1]) <= 0.0 then r == None
       else IsQuantile(parse, bounds, Cumulative(pairs, bounds), index, r)
  }

  ghost function Cumulative(pairs: seq<Pair>, bounds: seq<string>): (c: seq<real>)
    ensures |c| == |bounds| && forall i | 0 <= i < |c| :: c[i] == SumFor(pairs, bounds[i])
  {
    seq(|bounds|, i requires 0 <= i < |bounds| => SumFor(pairs, bounds[i]))
  }

  /** One more pair adds its value to its own label and touches no other. */
  lemma AppendPair(pairs: seq<Pair>, le: string, value: real)
    ensures forall k :: HasLabel(pairs + [Pair(le, value)], k) <==> HasLabel(pairs, k) || k == le
    ensures forall k :: SumFor(pairs + [Pair(le, value)], k) == SumFor(pairs, k) + if k == le then value else 0.0
  {
    var more := pairs + [Pair(le, value)];
    assert more[..|more| - 1] == pairs;
    forall k ensures HasLabel(more, k) <==> HasLabel(pairs, k) || k == le {
      LabelConcat(pairs, [Pair(le, value)], k);
      assert [Pair(le, value)][0].le == le;
    }
  }

  /** The table of the sums per label. */
  ghost predicate IsMerged(pairs: seq<Pair>, merged: map<string, real>) {
    && (forall k :: k in merged <==> HasLabel(pairs, k))
    && (forall k :: SumFor(pairs, k) == if k in merged then merged[k] else 0.0)
  }

  lemma MergeOne(pairs: seq<Pair>, merged: map<string, real>, le: string, value: real)
    requires IsMerged(pairs, merged)
    ensures IsMerged(pairs + [Pair(le, value)], merged[le := (if le in merged then merged[le] else 0.0) + value])
  {
    AppendPair(pairs, le, value);
  }

  method MergeBuckets(samples: seq<Sample>) returns (merged: map<string, real>, order: seq<string>)
    ensures forall k :: k in order <==> k in merged
    ensures forall k :: k in merged <==> HasLabel(BucketPairs(samples), k)
    ensures forall k | k in merged :: merged[k] == SumFor(BucketPairs(samples), k)
  {
    merged, order := map[], [];
    for i := 0 to |samples|
      invariant forall k :: k in order <==> k in merged
      invariant IsMerged(BucketPairs(samples[..i]), merged)
    {
      var s := samples[i];
      EndsInBucket(s);
      assert samples[..i + 1][..i] == samples[..i];
      if !EndsWith(s.name, "_bucket") || s.le.None? {
        continue;
      }
      var bound := s.le.value;
      MergeOne(BucketPairs(samples[..i]), merged, bound, s.value);
      if bound !in merged {
        order := order + [bound];
      }
      merged := merged[bound := (if bound in merged then merged[bound] else 0.0) + s.value];
    }
    assert samples[..|samples|] == samples;
  }

  method P95FromBuckets(samples: seq<Sample>, parse: Parse) returns (p95: Option<real>)
    ensures IsP95(samples, parse, p95)
  {
    ghost var pairs := BucketPairs(samples);
    var merged, order := MergeBuckets(samples);
    var bounds := SortByBound(parse, order);
    if bounds == [] {
      assert IsP95Of(samples, parse, bounds, 0, None);
      return None;
    }
    assert forall i | 0 <= i < |bounds| :: bounds[i] in merged;
    var cumulative := seq(|bounds|, i requires 0 <= i < |bounds| => merged[bounds[i]]);
    assert cumulative == Cumulative(pairs, bounds);
    var observations := cumulative[|cumulative| - 1];
    if observations <= 0.0 {
      assert IsP95Of(samples, parse, bounds, 0, None);
      return None;
    }
    var index := Locate(cumulative);
    p95 := Interpolate(parse, bounds, cumulative, index);
    assert IsP95Of(samples, parse, bounds, index, p95);
  }

  method Locate(cumulative: seq<real>) returns (index: nat)
    requires cumulative != [] && cumulative[|cumulative| - 1] > 0.0
    ensures Selects(cumulative, index)
  {
    var rank := P95_QUANTILE * cumulative[|cumulative| - 1];
    index := 0;
    while index < |cumulative| - 1 && cumulative[index] < rank
      invariant index < |cumulative| && forall k | 0 <= k < index :: cumulative[k] < rank
    {
      index := index + 1;
    }
  }

  lemma LineReached(lower: real, upper: real, rank: real, below: real, inBucket: real)
    requires inBucket > 0.0
    ensures OnLine(lower, upper, rank, below, below + inBucket, lower + (upper - lower) * ((rank - below) / inBucket))
  {
    var f := (rank - below) / inBucket;
    assert f * inBucket == rank - below;
    assert (upper - lower) * f * inBucket == (upper - lower) * (f * inBucket);
  }

  method Interpolate(parse: Parse, bounds: seq<string>, cumulative: seq<real>, index: nat) returns (p95: Option<real>)
    requires |bounds| == |cumulative| > 0 && SortedByBound(parse, bounds)
    requires cumulative[|cumulative| - 1] > 0.0 && Selects(cumulative, index)
    ensures IsQuantile(parse, bounds, cumulative, index, p95)
  {
    var rank := P95_QUANTILE * cumulative[|cumulative| - 1];
    match parse(bounds[index]) {
      case Infinite =>
        p95 := LastFinite(parse, bounds);
      case Finite(upper) =>
        assert index > 0 ==> Leq(parse(bounds[index - 1]), parse(bounds[index]));
        var lower := if index > 0 then parse(bounds[index - 1]).edge else 0.0;
        var below := if index > 0 then cumulative[index - 1] else 0.0;
        var inBucket := cumulative[index] - below;
        if inBucket <= 0.0 {
          assert false;  // below < rank <= cumulative[index]: the guard against an empty bucket is dead
        }
        p95 := Some(lower + (upper - lower) * ((rank - below) / inBucket));
        LineReached(lower, upper, rank, below, inBucket);
    }
  }

  // ---------------------------------------------------------------------------
  // The exact quantile of the observations behind the samples
  // ---------------------------------------------------------------------------

  ghost function CountLe(obs: seq<real>, b: Bound): nat {
    if obs == [] then 0
    else CountLe(obs[..|obs| - 1], b) + if Leq(Finite(obs[|obs| - 1]), b) then 1 else 0
  }

  ghost function CountLt(obs: seq<real>, x: real): nat {
    if obs == [] then 0
    else CountLt(obs[..|obs| - 1], x) + if obs[|obs| - 1] < x then 1 else 0
  }

  /** The nearest-rank 95th percentile: the observation at which the ordered count reaches the rank. */
  ghost predicate NearestRank(obs: seq<real>, x: real) {
    && x in obs
    && CountLe(obs, Finite(x)) as real >= 0.95 * |obs| as real > CountLt(obs, x) as real
  }

  lemma CountOrder(obs: seq<real>, a: Bound, b: Bound)
    ensures Leq(a, b) ==> CountLe(obs, a) <= CountLe(obs, b)
    ensures CountLe(obs, Infinite) == |obs| && CountLe(obs, b) <= |obs|
  {}

  lemma CountStrict(obs: seq<real>, x: real, y: real)
    ensures x < y ==> CountLe(obs, Finite(x)) <= CountLt(obs, y)
    ensures CountLt(obs, x) <= CountLe(obs, Finite(x))
    ensures x in obs ==> CountLt(obs, x) < CountLe(obs, Finite(x))
  {}

  /** The largest observation below `t` is the one at which the count below `t` is complete. */
  lemma {:induction false} LargestBelow(obs: seq<real>, t: real) returns (y: real)
    requires CountLt(obs, t) > 0
    ensures y in obs && y < t && CountLe(obs, Finite(y)) == CountLt(obs, t)
  {
    var rest, last := obs[..|obs| - 1], obs[|obs| - 1];
    if CountLt(rest, t) == 0 {
      y := last;
      CountStrict(rest, y, t);
    } else {
      y := LargestBelow(rest, t);
      if y < last < t {
        CountOrder(rest, Finite(y), Finite(last));
        CountStrict(rest, last, t);
        y := last;
      }
    }
  }

  lemma {:induction false} DescendToRank(obs: seq<real>, x: real) returns (r: real)
    requires obs != [] && x in obs && CountLe(obs, Finite(x)) as real >= P95_QUANTILE * |obs| as real
    ensures NearestRank(obs, r)
    decreases CountLt(obs, x)
  {
    if CountLt(obs, x) as real >= P95_QUANTILE * |obs| as real {
      var y := LargestBelow(obs, x);
      CountStrict(obs, y, x);
      r := DescendToRank(obs, y);
    } else {
      r := x;
    }
  }

  /** Every non-empty sample has exactly one nearest-rank percentile. */
  lemma NearestRankUnique(obs: seq<real>) returns (x: real)
    requires obs != []
    ensures NearestRank(obs, x) && forall y | NearestRank(obs, y) :: y == x
  {
    var top := Above(obs);
    assert CountLt(obs, top) == |obs|;
    var largest := LargestBelow(obs, top);
    x := DescendToRank(obs, largest);
    forall y | NearestRank(obs, y) ensures y == x {
      CountStrict(obs, x, y);
      CountStrict(obs, y, x);
    }
  }

  lemma {:induction false} Above(obs: seq<real>) returns (top: real)
    ensures forall x | x in obs :: x < top
    ensures forall t | t >= top :: CountLt(obs, t) == |obs|
  {
    if obs == [] {
      top := 0.0;
    } else {
      var last := obs[|obs| - 1];
      top := Above(obs[..|obs| - 1]);
      top := if top <= last then last + 1.0 else top;
      assert obs == obs[..|obs| - 1] + [last];
    }
  }

  // ---------------------------------------------------------------------------
  // The samples a histogram family exposes
  // ---------------------------------------------------------------------------

  /** Distinct `le` labels, positive finite edges, and the overflow bucket. */
  ghost predicate ValidEdges(parse: Parse, edges: seq<string>) {
    && (forall i, j | 0 <= i < j < |edges| :: edges[i] != edges[j])
    && (forall e | e in edges && parse(e).Finite? :: parse(e).edge > 0.0)
    && (exists e | e in edges :: parse(e).Infinite?)
  }

  /** One label set: for each edge, the cumulative count of its observations. */
  ghost function Exposed(parse: Parse, edges: seq<string>, obs: seq<real>): seq<Pair> {
    if edges == [] then []
    else
      var e := edges[|edges| - 1];
      Exposed(parse, edges[..|edges| - 1], obs) + [Pair(e, CountLe(obs, parse(e)) as real)]
  }

  ghost function ExposedAll(parse: Parse, edges: seq<string>, series: seq<seq<real>>): seq<Pair> {
    if series == [] then []
    else ExposedAll(parse, edges, series[..|series| - 1]) + Exposed(parse, edges, series[|series| - 1])
  }

  ghost function Pool(series: seq<seq<real>>): seq<real> {
    if series == [] then [] else Pool(series[..|series| - 1]) + series[|series| - 1]
  }

  /** The bucket samples are those of the label sets, in any order and among any other samples. */
  ghost predicate Exposes(samples: seq<Sample>, parse: Parse, edges: seq<string>, series: seq<seq<real>>) {
    ValidEdges(parse, edges) && multiset(BucketPairs(samples)) == multiset(ExposedAll(parse, edges, series))
  }

  lemma {:induction false} CountConcat(a: seq<real>, b: seq<real>, bound: Bound)
    ensures CountLe(a + b, bound) == CountLe(a, bound) + CountLe(b, bound)
  {
    if b == [] {
      assert a + b == a;
    } else {
      assert (a + b)[..|a + b| - 1] == a + b[..|b| - 1];
      CountConcat(a, b[..|b| - 1], bound);
    }
  }

  lemma {:induction false} SumForExposed(parse: Parse, edges: seq<string>, obs: seq<real>, le: string)
    requires forall i, j | 0 <= i < j < |edges| :: edges[i] != edges[j]
    ensures SumFor(Exposed(parse, edges, obs), le) == if le in edges then CountLe(obs, parse(le)) as real else 0.0
    ensures HasLabel(Exposed(parse, edges, obs), le) <==> le in edges
  {
    if edges != [] {
      var rest, e := edges[..|edges| - 1], edges[|edges| - 1];
      assert edges == rest + [e];
      SumForExposed(parse, rest, obs, le);
      var p := Exposed(parse, edges, obs);
      assert p[..|p| - 1] == Exposed(parse, rest, obs);
      LabelConcat(Exposed(parse, rest, obs), [p[|p| - 1]], le);
    }
  }

  lemma LabelConcat(a: seq<Pair>, b: seq<Pair>, le: string)
    ensures HasLabel(a + b, le) <==> HasLabel(a, le) || HasLabel(b, le)
  {
    if HasLabel(a, le) {
      var i :| 0 <= i < |a| && a[i].le == le;
      assert (a + b)[i].le == le;
    }
    if HasLabel(b, le) {
      var i :| 0 <= i < |b| && b[i].le == le;
      assert (a + b)[|a| + i].le == le;
    }
  }

  /** Merging the label sets gives the cumulative counts of the pooled observations. */
  lemma {:induction false} SumForExposedAll(parse: Parse, edges: seq<string>, series: seq<seq<real>>, le: string)
    requires forall i, j | 0 <= i < j < |edges| :: edges[i] != edges[j]
    requires le in edges
    ensures SumFor(ExposedAll(parse, edges, series), le) == CountLe(Pool(series), parse(le)) as real
  {
    if series != [] {
      var rest, last := series[..|series| - 1], series[|series| - 1];
      SumForExposedAll(parse, edges, rest, le);
      SumForExposed(parse, edges, last, le);
      SumForConcat(ExposedAll(parse, edges, rest), Exposed(parse, edges, last), le);
      CountConcat(Pool(rest), last, parse(le));
    }
  }

  lemma {:induction false} LabelsExposedAll(parse: Parse, edges: seq<string>, series: seq<seq<real>>, le: string)
    requires forall i, j | 0 <= i < j < |edges| :: edges[i] != edges[j]
    ensures HasLabel(ExposedAll(parse, edges, series), le) <==> series != [] && le in edges
  {
    if series != [] {
      var rest, last := series[..|series| - 1], series[|series| - 1];
      LabelsExposedAll(parse, edges, rest, le);
      SumForExposed(parse, edges, last, le);
      LabelConcat(ExposedAll(parse, edges, rest), Exposed(parse, edges, last), le);
    }
  }

  lemma LabelsOfPermutation(a: seq<Pair>, b: seq<Pair>, le: string)
    requires multiset(a) == multiset(b) && HasLabel(a, le)
    ensures HasLabel(b, le)
  {
    var i :| 0 <= i < |a| && a[i].le == le;
    assert a[i] in multiset(b);
  }

  /** The merged table of an exposed family, read through any sorted list of its labels. */
  lemma MergedCounts(samples: seq<Sample>, parse: Parse, edges: seq<string>, series: seq<seq<real>>, le: string)
    requires Exposes(samples, parse, edges, series)
    ensures HasLabel(BucketPairs(samples), le) <==> series != [] && le in edges
    ensures le in edges ==> SumFor(BucketPairs(samples), le) == CountLe(Pool(series), parse(le)) as real
  {
    var a, b := BucketPairs(samples), ExposedAll(parse, edges, series);
    SumForPermutation(a, b, le);
    LabelsExposedAll(parse, edges, series, le);
    if le in edges {
      SumForExposedAll(parse, edges, series, le);
    }
    if HasLabel(a, le) {
      LabelsOfPermutation(a, b, le);
    }
    if HasLabel(b, le) {
      LabelsOfPermutation(b, a, le);
    }
  }

  // ---------------------------------------------------------------------------
  // The error bound
  // ---------------------------------------------------------------------------

  ghost predicate IsFiniteEdge(parse: Parse, edges: seq<string>, v: real) {
    exists e | e in edges :: parse(e) == Finite(v)
  }

  /** A finite bucket: it ends at an edge, starts at zero or an edge, and no edge lies inside. */
  ghost predicate IsBucketOf(parse: Parse, edges: seq<string>, lower: real, upper: real) {
    && (lower == 0.0 || IsFiniteEdge(parse, edges, lower)) && IsFiniteEdge(parse, edges, upper)
    && forall v | IsFiniteEdge(parse, edges, v) :: v <= lower || upper <= v
  }

  ghost predicate IsHighestEdge(parse: Parse, edges: seq<string>, v: real) {
    IsFiniteEdge(parse, edges, v) && forall u | IsFiniteEdge(parse, edges, u) :: u <= v
  }

  /**
   The estimate shares a bucket with the exact value and lies where the pooled count, drawn as a
   straight line across that bucket, reaches the rank; or the exact value overflowed every edge.
   */
  ghost predicate Estimates(parse: Parse, edges: seq<string>, obs: seq<real>, x: real, p95: Option<real>) {
    if forall v :: !IsFiniteEdge(parse, edges, v) then p95.None?
    else
      && p95.Some?
      && if forall v | IsFiniteEdge(parse, edges, v) :: v < x then IsHighestEdge(parse, edges, p95.value)
         else SharesBucket(parse, edges, obs, x, p95.value)
  }

  ghost predicate SharesBucket(parse: Parse, edges: seq<string>, obs: seq<real>, x: real, v: real) {
    exists lower, upper ::
      IsBucketOf(parse, edges, lower, upper) && InBucket(lower, upper, x, v) && ReachesRank(obs, lower, upper, v)
  }

  /** The observations in front of a bucket: none for the first, which starts at zero. */
  ghost function CountInFront(obs: seq<real>, lower: real): nat {
    if lower == 0.0 then 0 else CountLe(obs, Finite(lower))
  }

  ghost predicate ReachesRank(obs: seq<real>, lower: real, upper: real, v: real) {
    OnLine(lower, upper, 0.95 * |obs| as real, CountInFront(obs, lower) as real, CountLe(obs, Finite(upper)) as real, v)
  }

  ghost predicate InBucket(lower: real, upper: real, x: real, v: real) {
    lower <= x <= upper && lower < v <= upper && x - (upper - lower) <= v <= x + (upper - lower)
  }

  /** Cumulative counts of observations behind sorted bounds that include every edge and the overflow. */
  ghost predicate CountsOf(parse: Parse, edges: seq<string>, bounds: seq<string>, obs: seq<real>, cumulative: seq<real>) {
    && SortedByBound(parse, bounds) && |bounds| == |cumulative| > 0
    && (forall e :: e in bounds <==> e in edges)
    && parse(bounds[|bounds| - 1]).Infinite?
    && forall i | 0 <= i < |bounds| :: cumulative[i] == CountLe(obs, parse(bounds[i])) as real
  }

  /** The selected bucket brackets the exact value: it lies above every earlier bound and within the selected one. */
  lemma SelectedBucketHolds(parse: Parse, edges: seq<string>, bounds: seq<string>, obs: seq<real>,
                            cumulative: seq<real>, index: nat, x: real)
    requires CountsOf(parse, edges, bounds, obs, cumulative)
    requires Selects(cumulative, index) && NearestRank(obs, x)
    ensures Leq(Finite(x), parse(bounds[index]))
    ensures forall k | 0 <= k < index :: parse(bounds[k]).Finite? && parse(bounds[k]).edge < x
  {
    CountOrder(obs, Infinite, Infinite);
    if parse(bounds[index]).Finite? {
      CountStrict(obs, parse(bounds[index]).edge, x);
    }
    forall k | 0 <= k < index ensures parse(bounds[k]).Finite? && parse(bounds[k]).edge < x {
      CountOrder(obs, Finite(x), parse(bounds[k]));
    }
  }

  lemma FractionInside(lower: real, upper: real, rank: real, below: real, reached: real, v: real)
    requires lower < upper && below < rank <= reached && OnLine(lower, upper, rank, below, reached, v)
    ensures lower < v <= upper
  {
    var f := (rank - below) / (reached - below);
    RatioInUnit(rank - below, reached - below);
    ScaledByUnit(upper - lower, f);
    LineReached(lower, upper, rank, below, reached - below);
    LineUnique(lower, upper, rank, below, reached, v, lower + (upper - lower) * f);
  }

  lemma LineUnique(lower: real, upper: real, rank: real, below: real, reached: real, v: real, w: real)
    requires below < reached
    requires OnLine(lower, upper, rank, below, reached, v) && OnLine(lower, upper, rank, below, reached, w)
    ensures v == w
  {
    var d := reached - below;
    assert (v - lower) * d == (w - lower) * d;
    assert (v - w) * d == 0.0;
  }

  lemma RatioInUnit(a: real, b: real)
    requires 0.0 < a <= b
    ensures 0.0 < a / b <= 1.0
  {
    assert a / b * b == a;
  }

  lemma ScaledByUnit(w: real, f: real)
    requires 0.0 < w && 0.0 < f <= 1.0
    ensures 0.0 < w * f <= w
  {
    assert w * (1.0 - f) >= 0.0;
  }

  /** Neighbouring bounds enclose a bucket. */
  lemma SelectedEdges(parse: Parse, edges: seq<string>, bounds: seq<string>, index: nat)
    requires ValidEdges(parse, edges) && SortedByBound(parse, bounds) && forall e :: e in bounds <==> e in edges
    requires index < |bounds| && parse(bounds[index]).Finite?
    ensures var lower := Lower(parse, bounds, index);
            && lower.Finite? && lower.edge <= parse(bounds[index]).edge && (lower.edge == 0.0 <==> index == 0)
            && IsBucketOf(parse, edges, lower.edge, parse(bounds[index]).edge)
  {
    assert index > 0 ==> Leq(parse(bounds[index - 1]), parse(bounds[index]));
    var lower, upper := Lower(parse, bounds, index).edge, parse(bounds[index]).edge;
    assert bounds[index] in bounds && IsFiniteEdge(parse, edges, upper);
    if index > 0 {
      assert bounds[index - 1] in bounds && IsFiniteEdge(parse, edges, lower);
    }
    forall v | IsFiniteEdge(parse, edges, v) ensures v <= lower || upper <= v {
      var e :| e in edges && parse(e) == Finite(v);
      var k :| 0 <= k < |bounds| && bounds[k] == e;
    }
  }

  /** Where the counts stand at the two ends of the selected bucket. */
  lemma SelectedCounts(parse: Parse, edges: seq<string>, bounds: seq<string>, obs: seq<real>,
                       cumulative: seq<real>, index: nat)
    requires CountsOf(parse, edges, bounds, obs, cumulative) && Selects(cumulative, index) && obs != []
    requires var lower := Lower(parse, bounds, index); lower.Finite? && (lower.edge == 0.0 <==> index == 0)
    ensures Below(cumulative, index) == CountInFront(obs, Lower(parse, bounds, index).edge) as real
    ensures cumulative[index] == CountLe(obs, parse(bounds[index])) as real
    ensures cumulative[|cumulative| - 1] == |obs| as real
    ensures Below(cumulative, index) < 0.95 * |obs| as real <= cumulative[index]
  {
    CountOrder(obs, Infinite, Infinite);
  }

  /** The selected finite bucket and the counts at its two ends; it is not empty, so its ends differ. */
  lemma SelectedBucket(parse: Parse, edges: seq<string>, bounds: seq<string>, obs: seq<real>,
                       cumulative: seq<real>, index: nat)
    requires ValidEdges(parse, edges) && CountsOf(parse, edges, bounds, obs, cumulative)
    requires Selects(cumulative, index) && obs != [] && parse(bounds[index]).Finite?
    ensures Lower(parse, bounds, index).Finite?
    ensures var lower, upper := Lower(parse, bounds, index).edge, parse(bounds[index]).edge;
            && lower < upper && IsBucketOf(parse, edges, lower, upper)
            && Below(cumulative, index) == CountInFront(obs, lower) as real
            && cumulative[index] == CountLe(obs, Finite(upper)) as real
            && cumulative[|cumulative| - 1] == |obs| as real
            && Below(cumulative, index) < 0.95 * |obs| as real <= cumulative[index]
  {
    SelectedEdges(parse, edges, bounds, index);
    SelectedCounts(parse, edges, bounds, obs, cumulative, index);
  }

  lemma FiniteBucketEstimate(parse: Parse, edges: seq<string>, bounds: seq<string>, obs: seq<real>,
                             cumulative: seq<real>, index: nat, x: real, p95: Option<real>)
    requires ValidEdges(parse, edges) && CountsOf(parse, edges, bounds, obs, cumulative)
    requires IsQuantile(parse, bounds, cumulative, index, p95) && NearestRank(obs, x) && x >= 0.0
    requires parse(bounds[index]).Finite?
    ensures Estimates(parse, edges, obs, x, p95)
  {
    SelectedBucketHolds(parse, edges, bounds, obs, cumulative, index, x);
    SelectedBucket(parse, edges, bounds, obs, cumulative, index);
    var lower, upper, v := Lower(parse, bounds, index).edge, parse(bounds[index]).edge, p95.value;
    assert ReachesRank(obs, lower, upper, v);
    FractionInside(lower, upper, 0.95 * |obs| as real, Below(cumulative, index), cumulative[index], v);
    assert InBucket(lower, upper, x, v);
    InItsBucket(parse, edges, obs, x, p95, lower, upper);
  }

  lemma InItsBucket(parse: Parse, edges: seq<string>, obs: seq<real>, x: real, p95: Option<real>,
                    lower: real, upper: real)
    requires p95.Some? && IsBucketOf(parse, edges, lower, upper)
    requires InBucket(lower, upper, x, p95.value) && ReachesRank(obs, lower, upper, p95.value)
    ensures Estimates(parse, edges, obs, x, p95)
  {
    assert IsFiniteEdge(parse, edges, upper);
  }

  lemma {:induction false} LastFiniteIsHighest(parse: Parse, bounds: seq<string>, index: nat)
    requires SortedByBound(parse, bounds) && index <= |bounds|
    requires forall k | 0 <= k < |bounds| :: parse(bounds[k]).Finite? <==> k < index
    ensures LastFinite(parse, bounds) == if index == 0 then None else Some(parse(bounds[index - 1]).edge)
    decreases |bounds|
  {
    if index < |bounds| {
      LastFiniteIsHighest(parse, bounds[..|bounds| - 1], index);
    }
  }

  lemma OverflowEstimate(parse: Parse, edges: seq<string>, bounds: seq<string>, obs: seq<real>,
                         cumulative: seq<real>, index: nat, x: real, p95: Option<real>)
    requires CountsOf(parse, edges, bounds, obs, cumulative)
    requires IsQuantile(parse, bounds, cumulative, index, p95) && NearestRank(obs, x)
    requires parse(bounds[index]).Infinite?
    ensures Estimates(parse, edges, obs, x, p95)
  {
    SelectedBucketHolds(parse, edges, bounds, obs, cumulative, index, x);
    assert forall k | index < k < |bounds| :: Leq(parse(bounds[index]), parse(bounds[k]));
    LastFiniteIsHighest(parse, bounds, index);
    forall v | IsFiniteEdge(parse, edges, v) ensures index > 0 && v <= parse(bounds[index - 1]).edge && v < x {
      var e :| e in edges && parse(e) == Finite(v);
      var k :| 0 <= k < |bounds| && bounds[k] == e;
    }
    if index > 0 {
      assert bounds[index - 1] in edges && IsFiniteEdge(parse, edges, parse(bounds[index - 1]).edge);
    }
  }

  lemma QuantileEstimates(parse: Parse, edges: seq<string>, bounds: seq<string>, obs: seq<real>,
                          cumulative: seq<real>, index: nat, x: real, p95: Option<real>)
    requires ValidEdges(parse, edges) && CountsOf(parse, edges, bounds, obs, cumulative)
    requires IsQuantile(parse, bounds, cumulative, index, p95) && NearestRank(obs, x) && x >= 0.0
    ensures Estimates(parse, edges, obs, x, p95)
  {
    if parse(bounds[index]).Finite? {
      FiniteBucketEstimate(parse, edges, bounds, obs, cumulative, index, x, p95);
    } else {
      OverflowEstimate(parse, edges, bounds, obs, cumulative, index, x, p95);
    }
  }

  /** The labels read by the loop are the edges, and the cumulative list counts the pooled observations. */
  lemma ExposedCounts(samples: seq<Sample>, parse: Parse, edges: seq<string>, series: seq<seq<real>>,
                      bounds: seq<string>, cumulative: seq<real>)
    requires Exposes(samples, parse, edges, series) && SortedByBound(parse, bounds)
    requires forall k :: k in bounds <==> HasLabel(BucketPairs(samples), k)
    requires cumulative == Cumulative(BucketPairs(samples), bounds)
    ensures bounds != [] ==> cumulative[|cumulative| - 1] == |Pool(series)| as real
    ensures Pool(series) != [] ==> CountsOf(parse, edges, bounds, Pool(series), cumulative)
  {
    var obs, pairs := Pool(series), BucketPairs(samples);
    forall le ensures le in bounds <==> series != [] && le in edges
      ensures le in edges ==> SumFor(pairs, le) == CountLe(obs, parse(le)) as real
    {
      MergedCounts(samples, parse, edges, series, le);
    }
    if series != [] {
      var top :| top in edges && parse(top).Infinite?;
      var k :| 0 <= k < |bounds| && bounds[k] == top;
      assert k < |bounds| - 1 ==> Leq(parse(bounds[k]), parse(bounds[|bounds| - 1]));
    }
    CountOrder(obs, Infinite, Infinite);
    assert forall i | 0 <= i < |bounds| :: bounds[i] in bounds;
  }

  /**
   For nonnegative observations pooled from any number of label sets, whose bucket samples
   arrive in any order: without observations nothing is reported, and otherwise the report
   shares a bucket with the exact nearest-rank percentile (so it is off by at most that
   bucket's width), or is the highest edge and the exact percentile lies above it.
   */
  lemma P95ErrorBound(samples: seq<Sample>, parse: Parse, edges: seq<string>, series: seq<seq<real>>,
                      x: real, p95: Option<real>)
    requires Exposes(samples, parse, edges, series) && IsP95(samples, parse, p95)
    requires forall o | o in Pool(series) :: o >= 0.0
    ensures Pool(series) == [] ==> p95.None?
    ensures NearestRank(Pool(series), x) ==> Estimates(parse, edges, Pool(series), x, p95)
  {
    var obs := Pool(series);
    var bounds: seq<string>, index: nat :| IsP95Of(samples, parse, bounds, index, p95);
    var cumulative := Cumulative(BucketPairs(samples), bounds);
    ExposedCounts(samples, parse, edges, series, bounds, cumulative);
    if NearestRank(obs, x) {
      QuantileEstimates(parse, edges, bounds, obs, cumulative, index, x, p95);
    }
  }
}
