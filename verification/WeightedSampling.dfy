/** wsamplerctx: weighted sampling of tasks by inverse lookup, in exact reals. */
module WeightedSampling {
  import opened VectorClocks

  ghost predicate NonNegative(weights: seq<real>) {
    forall i | 0 <= i < |weights| :: weights[i] >= 0.0
  }

  ghost function Sum(weights: seq<real>, n: nat): real
    requires n <= |weights|
  {
    if n == 0 then 0.0 else Sum(weights, n - 1) + weights[n - 1]
  }

  /** The cumulative weight of tasks 0 to i, each with the base weight `bw` added. */
  ghost function Cum(weights: seq<real>, bw: real, i: nat): real
    requires i < |weights|
  {
    Sum(weights, i) + weights[i] + (i + 1) as real * bw
  }

  /** Each task adds its own weight and the base weight to what the tasks before it reach. */
  lemma CumSteps(weights: seq<real>, bw: real, i: nat)
    requires i < |weights|
    ensures Cums(weights, bw)[i] == (if i == 0 then 0.0 else Cums(weights, bw)[i - 1]) + weights[i] + bw
  {
  }

  ghost function Cums(weights: seq<real>, bw: real): seq<real> {
    seq(|weights|, i requires 0 <= i < |weights| => Cum(weights, bw, i))
  }

  /** `i` is the first task whose cumulative weight reaches `p`. */
  ghost predicate IsFirst(cum: seq<real>, p: real, i: int) {
    0 <= i < |cum| && cum[i] >= p && forall j | 0 <= j < i :: cum[j] < p
  }

  ghost predicate Ascending(points: seq<real>) {
    forall i, j | 0 <= i < j < |points| :: points[i] <= points[j]
  }

  ghost predicate Increasing(samples: seq<int>) {
    forall i, j | 0 <= i < j < |samples| :: samples[i] < samples[j]
  }

  /** Task `s` is the first for one of the first `k` points. */
  ghost predicate Called(cum: seq<real>, points: seq<real>, k: nat, s: int)
    requires k <= |points|
  {
    exists j :: 0 <= j < k && IsFirst(cum, points[j], s)
  }

  /** The first task for point `p` is among the samples. */
  ghost predicate Served(cum: seq<real>, samples: seq<int>, p: real) {
    exists s :: s in samples && IsFirst(cum, p, s)
  }

  /** `samples` are, in increasing order and without repetition, the first tasks for `points`. */
  ghost predicate FirstTasks(cum: seq<real>, points: seq<real>, samples: seq<int>) {
    && Increasing(samples)
    && (forall s | s in samples :: Called(cum, points, |points|, s))
    && (forall j | 0 <= j < |points| :: Served(cum, samples, points[j]))
  }

  // ------------------------------------------------ ordering the samples

  ghost predicate Distinct(samples: seq<int>) {
    forall i, j | 0 <= i < j < |samples| :: samples[i] != samples[j]
  }

  /** The weight of a task, zero for what is no task. */
  function W(weights: seq<real>, s: int): real {
    if 0 <= s < |weights| then weights[s] else 0.0
  }

  /** Heavier samples first, so that those without weight come last. */
  ghost predicate Ordered(samples: seq<int>, weights: seq<real>) {
    forall i, j | 0 <= i < j < |samples| :: W(weights, samples[i]) >= W(weights, samples[j])
  }

  /** The first loop of _sort: samples with and without weight, each in the order given. */
  method Split(samples: seq<int>, weights: seq<real>) returns (nonzero: seq<int>, zero: seq<int>)
    requires Distinct(samples)
    ensures Distinct(nonzero) && Distinct(zero) && |nonzero| + |zero| == |samples|
    ensures forall s :: s in nonzero <==> s in samples && W(weights, s) != 0.0
    ensures forall s :: s in zero <==> s in samples && W(weights, s) == 0.0
  {
    nonzero, zero := [], [];
    var i := 0;
    while i < |samples|
      invariant 0 <= i <= |samples| && Distinct(nonzero) && Distinct(zero) && |nonzero| + |zero| == i
      invariant forall s :: s in nonzero <==> s in samples[..i] && W(weights, s) != 0.0
      invariant forall s :: s in zero <==> s in samples[..i] && W(weights, s) == 0.0
    {
      var lid := samples[i];
      assert samples[..i + 1] == samples[..i] + [lid] && lid !in samples[..i];
      if W(weights, lid) == 0.0 {
        zero := zero + [lid];
      } else {
        nonzero := nonzero + [lid];
      }
      i := i + 1;
    }
    assert samples[..i] == samples;
  }

  const Taken: real := -100000000.0

  /** The position of the largest weight not yet taken. */
  method LargestLeft(left: seq<real>) returns (at: int)
    ensures at == -1 ==> forall i | 0 <= i < |left| :: left[i] <= Taken
    ensures at != -1 ==> 0 <= at < |left| && left[at] > Taken && forall i | 0 <= i < |left| :: left[i] <= left[at]
  {
    at := -1;
    var max := Taken;
    var i := 0;
    while i < |left|
      invariant 0 <= i <= |left| && max >= Taken
      invariant at == -1 ==> max == Taken
      invariant at != -1 ==> 0 <= at < i && left[at] == max && max > Taken
      invariant forall j | 0 <= j < i :: left[j] <= max
    {
      if left[i] > max {
        max, at := left[i], i;
      }
      i := i + 1;
    }
  }

  /** Selection in the middle: `order` are the positions taken so far. */
  ghost predicate Selecting(space: seq<int>, weights: seq<real>, left: seq<real>, order: seq<int>, out: seq<int>) {
    && |left| == |space| && |out| == |order|
    && (forall a | a in order :: 0 <= a < |space|) && Distinct(order)
    && (forall i | 0 <= i < |out| :: 0 <= order[i] < |space| && out[i] == space[order[i]])
    && (forall a | 0 <= a < |space| :: left[a] == if a in order then Taken else W(weights, space[a]))
    && (forall i, a | 0 <= i < |out| && 0 <= a < |space| && a !in order :: W(weights, out[i]) >= W(weights, space[a]))
    && Ordered(out, weights)
  }

  ghost function Positions(n: nat): (r: set<int>)
    ensures |r| == n && forall a :: a in r <==> 0 <= a < n
  {
    if n == 0 then {} else Positions(n - 1) + {n - 1}
  }

  ghost function Elements(s: seq<int>): set<int> {
    set x | x in s
  }

  lemma {:induction false} DistinctSize(s: seq<int>)
    requires Distinct(s)
    ensures |Elements(s)| == |s|
  {
    if s != [] {
      var front, last := s[..|s| - 1], s[|s| - 1];
      DistinctSize(front);
      assert s == front + [last] && last !in front;
      assert Elements(s) == Elements(front) + {last};
    }
  }

  lemma Covered(n: nat, order: seq<int>)
    requires Distinct(order) && forall a | 0 <= a < n :: a in order
    ensures n <= |order|
  {
    DistinctSize(order);
    SubsetSize(Positions(n), Elements(order));
  }

  /** While positions remain, one is not taken; when none remain, all are. */
  lemma TakenAll(n: nat, order: seq<int>)
    requires Distinct(order) && forall a | a in order :: 0 <= a < n
    ensures |order| <= n
    ensures |order| == n ==> forall a | 0 <= a < n :: a in order
    ensures |order| < n ==> exists a :: 0 <= a < n && a !in order
  {
    DistinctSize(order);
    SubsetSize(Elements(order), Positions(n));
    if |order| == n {
      forall a | 0 <= a < n ensures a in order {
        assert a in Positions(n) && a in Elements(order);
      }
    }
    assert (forall a | 0 <= a < n :: a in order) ==> n <= |order| by {
      if forall a | 0 <= a < n :: a in order {
        Covered(n, order);
      }
    }
  }

  lemma TakeOne(space: seq<int>, weights: seq<real>, left: seq<real>, order: seq<int>, out: seq<int>, at: nat)
    requires Selecting(space, weights, left, order, out) && at < |space| && at !in order
    requires forall a | 0 <= a < |space| && a !in order :: W(weights, space[a]) <= W(weights, space[at])
    ensures Selecting(space, weights, left[at := Taken], order + [at], out + [space[at]])
  {
    var order', out' := order + [at], out + [space[at]];
    forall a ensures a in order' <==> a in order || a == at {}
    forall i, a | 0 <= i < |out'| && 0 <= a < |space| && a !in order' ensures W(weights, out'[i]) >= W(weights, space[a]) {
      assert i < |out| ==> out'[i] == out[i];
    }
    forall i, j | 0 <= i < j < |out'| ensures W(weights, out'[i]) >= W(weights, out'[j]) {
      assert j == |out| ==> W(weights, out[i]) >= W(weights, space[at]);
    }
  }

  /** The selection loop of _sort. */
  method SelectDescending(space: seq<int>, weights: seq<real>) returns (out: seq<int>)
    requires Distinct(space) && forall i | 0 <= i < |space| :: W(weights, space[i]) > 0.0
    ensures Distinct(out) && |out| == |space| && Ordered(out, weights) && forall s :: s in out <==> s in space
  {
    var left := seq(|space|, i requires 0 <= i < |space| => W(weights, space[i]));
    ghost var order: seq<int> := [];
    out := [];
    while |out| < |space|
      invariant Selecting(space, weights, left, order, out)
      invariant |out| <= |space|
    {
      TakenAll(|space|, order);
      var at := LargestLeft(left);
      ghost var free :| 0 <= free < |space| && free !in order;
      assert left[free] == W(weights, space[free]) > Taken;
      assert at != -1 && left[at] > Taken;
      forall a | 0 <= a < |space| && a !in order ensures W(weights, space[a]) <= W(weights, space[at]) {
        assert left[a] <= left[at];
      }
      TakeOne(space, weights, left, order, out, at);
      out, left, order := out + [space[at]], left[at := Taken], order + [at];
    }
    TakenAll(|space|, order);
    Rearranged(space, order, out);
  }

  lemma Rearranged(space: seq<int>, order: seq<int>, out: seq<int>)
    requires Distinct(space) && Distinct(order) && |out| == |order| == |space|
    requires forall a | 0 <= a < |space| :: a in order
    requires forall i | 0 <= i < |out| :: 0 <= order[i] < |space| && out[i] == space[order[i]]
    ensures Distinct(out) && forall s :: s in out <==> s in space
  {
    forall s | s in space ensures s in out {
      var a :| 0 <= a < |space| && space[a] == s;
      assert a in order;
      var i :| 0 <= i < |order| && order[i] == a;
      assert out[i] == s;
    }
    forall i, j | 0 <= i < j < |out| ensures out[i] != out[j] {
      assert order[i] != order[j];
    }
  }

  /** _sort: a rearrangement, heavier samples first and those without weight at the end. */
  method Sort(samples: seq<int>, weights: seq<real>) returns (sorted: seq<int>)
    requires Distinct(samples) && NonNegative(weights) && forall i | 0 <= i < |samples| :: 0 <= samples[i] < |weights|
    ensures Distinct(sorted) && |sorted| == |samples| && Ordered(sorted, weights) && forall s :: s in sorted <==> s in samples
    ensures forall i | 0 <= i < |sorted| :: 0 <= sorted[i] < |weights|
    ensures forall i, j | 0 <= i < j < |sorted| :: weights[sorted[i]] >= weights[sorted[j]]
  {
    var nonzero, zero := Split(samples, weights);
    forall i | 0 <= i < |nonzero| ensures W(weights, nonzero[i]) > 0.0 {
      assert nonzero[i] in nonzero;
    }
    var heavy := SelectDescending(nonzero, weights);
    sorted := heavy + zero;
    forall i, j | 0 <= i < j < |sorted| ensures sorted[i] != sorted[j] && W(weights, sorted[i]) >= W(weights, sorted[j]) {
      assert i < |heavy| ==> sorted[i] in heavy;
      assert i >= |heavy| ==> sorted[i] in zero;
      assert j >= |heavy| ==> sorted[j] in zero;
    }
    forall i | 0 <= i < |sorted| ensures 0 <= sorted[i] < |weights| {
      assert sorted[i] in sorted;
      assert sorted[i] in samples;
    }
  }

  // ------------------------------------------------ the sampler

  /** A change of the weight of one task, by its global id. */
  datatype Change = Change(id: int, weight: real)

  function Abs(x: real): real {
    if x < 0.0 then -x else x
  }

  /** The weights after the first `n` changes; later changes of a task win. */
  ghost function Changed(weights: seq<real>, changes: seq<Change>, start: int, n: nat): seq<real>
    requires n <= |changes| && forall i | 0 <= i < |changes| :: 0 <= changes[i].id - start < |weights|
    ensures |Changed(weights, changes, start, n)| == |weights|
  {
    if n == 0 then weights
    else Changed(weights, changes, start, n - 1)[changes[n - 1].id - start := Abs(changes[n - 1].weight)]
  }

  /** No change from `i` on, and before `n`, is one of task `id`. */
  ghost predicate NoneFor(changes: seq<Change>, i: nat, n: nat, id: int) {
    forall j | i <= j < n && j < |changes| :: changes[j].id != id
  }

  /** Each task has the absolute value of its last change, or its old weight if it has none. */
  ghost predicate LastChangeHolds(was: seq<real>, now: seq<real>, changes: seq<Change>, start: int, n: nat)
    requires n <= |changes|
  {
    && |now| == |was|
    && (forall id | start <= id < start + |now| && NoneFor(changes, 0, n, id) :: now[id - start] == was[id - start])
    && (forall i {:trigger NoneFor(changes, i + 1, n, changes[i].id)} |
          0 <= i < n && NoneFor(changes, i + 1, n, changes[i].id) && 0 <= changes[i].id - start < |now| ::
          now[changes[i].id - start] == if changes[i].weight < 0.0 then -changes[i].weight else changes[i].weight)
  }

  lemma {:induction false} LastChangeWins(weights: seq<real>, changes: seq<Change>, start: int, n: nat)
    requires n <= |changes| && forall i | 0 <= i < |changes| :: 0 <= changes[i].id - start < |weights|
    ensures LastChangeHolds(weights, Changed(weights, changes, start, n), changes, start, n)
  {
    if n > 0 {
      LastChangeWins(weights, changes, start, n - 1);
      var before, now := Changed(weights, changes, start, n - 1), Changed(weights, changes, start, n);
      var last := changes[n - 1].id;
      forall id | start <= id < start + |now| && NoneFor(changes, 0, n, id) ensures now[id - start] == weights[id - start] {
        assert NoneFor(changes, 0, n - 1, id) && last != id;
      }
      forall i | 0 <= i < n && NoneFor(changes, i + 1, n, changes[i].id)
        ensures now[changes[i].id - start] == if changes[i].weight < 0.0 then -changes[i].weight else changes[i].weight
      {
        if i < n - 1 {
          assert NoneFor(changes, i + 1, n - 1, changes[i].id) && last != changes[i].id;
        }
      }
    }
  }

  /** The points of the dart: at least one is looked at, even when none are asked for. */
  ghost function Used(rnd: seq<real>, setsize: nat): seq<real>
    requires 1 <= |rnd| && setsize <= |rnd|
  {
    rnd[..if setsize == 0 then 1 else setsize]
  }

  class WeightedSampler {
    const start: int
    const bw: real
    var weights: seq<real>
    var totalW: real

    /** Weights are not negative, and the total is their sum. */
    ghost predicate Valid()
      reads this
    {
      NonNegative(weights) && totalW == Sum(weights, |weights|)
    }

    constructor (first: int, last: int, base: real)
      requires first < last
      ensures Valid() && start == first && bw == base && |weights| == last - first + 1
      ensures forall i | 0 <= i < |weights| :: weights[i] == 0.0
    {
      start, bw, weights, totalW := first, base, seq(last - first + 1, _ => 0.0), 0.0;
      new;
      SumZero(weights, |weights|);
    }

    /** update_weight: absolute values are stored, and the total is summed afresh. */
    method UpdateWeight(changes: seq<Change>)
      requires Valid() && forall i | 0 <= i < |changes| :: start <= changes[i].id < start + |weights|
      modifies this
      ensures Valid() && weights == Changed(old(weights), changes, start, |changes|)
      ensures LastChangeHolds(old(weights), weights, changes, start, |changes|)
    {
      ghost var was := weights;
      var i := 0;
      while i < |changes|
        invariant 0 <= i <= |changes| && NonNegative(weights) && weights == Changed(was, changes, start, i)
      {
        weights := weights[changes[i].id - start := Abs(changes[i].weight)];
        i := i + 1;
      }
      totalW := 0.0;
      var k := 0;
      while k < |weights|
        invariant 0 <= k <= |weights| && totalW == Sum(weights, k) && weights == Changed(was, changes, start, |changes|)
        invariant NonNegative(weights)
      {
        totalW := totalW + weights[k];
        k := k + 1;
      }
      LastChangeWins(was, changes, start, |changes|);
    }

    /** do_sampling, given its random numbers sorted in `rnd`. The samples are exactly the first
        tasks whose cumulative weight reaches one of the points used, every point is used up, and
        they come heaviest first. Asking for none still uses one point. */
    method DoSampling(setsize: nat, rnd: seq<real>) returns (samples: seq<int>, ghost tasks: seq<int>)
      requires Valid() && setsize < |weights| && 1 <= |rnd| && setsize <= |rnd|
      requires Ascending(Used(rnd, setsize))
      requires forall p | p in Used(rnd, setsize) :: p <= totalW + bw * |weights| as real
      ensures FirstTasks(Cums(weights, bw), Used(rnd, setsize), tasks)
      ensures |samples| == |tasks| && forall s :: s in tasks <==> s + start in samples
      ensures Distinct(samples) && forall i | 0 <= i < |samples| :: start <= samples[i] < start + |weights|
      ensures forall i, j | 0 <= i < j < |samples| :: weights[samples[i] - start] >= weights[samples[j] - start]
    {
      var found := Lookup(weights, bw, rnd, setsize, totalW);
      tasks := found;
      var sorted := Sort(found, weights);
      samples := seq(|sorted|, i requires 0 <= i < |sorted| => sorted[i] + start);
      Shifted(sorted, samples, start);
    }
  }

  /** Local task ids become global ones. */
  lemma Shifted(sorted: seq<int>, samples: seq<int>, start: int)
    requires |samples| == |sorted| && (forall i | 0 <= i < |sorted| :: samples[i] == sorted[i] + start) && Distinct(sorted)
    ensures forall s :: s in sorted <==> s + start in samples
    ensures Distinct(samples)
  {
    forall s ensures s in sorted <==> s + start in samples {
      if s in sorted {
        var i :| 0 <= i < |sorted| && sorted[i] == s;
        assert samples[i] == s + start;
      }
      if s + start in samples {
        var i :| 0 <= i < |samples| && samples[i] == s + start;
        assert sorted[i] == s;
      }
    }
    forall i, j | 0 <= i < j < |samples| ensures samples[i] != samples[j] {
      assert sorted[i] != sorted[j];
    }
  }

  lemma {:induction false} SumZero(weights: seq<real>, n: nat)
    requires n <= |weights| && forall i | 0 <= i < |weights| :: weights[i] == 0.0
    ensures Sum(weights, n) == 0.0
  {
    if n > 0 {
      SumZero(weights, n - 1);
    }
  }

  // ------------------------------------------------ the lookup

  /** Tasks below `i` have been looked at, and they account for the first `k` points. */
  ghost predicate LookedAt(cum: seq<real>, points: seq<real>, samples: seq<int>, i: nat, k: nat) {
    && i <= |cum| && k <= |points| && Increasing(samples)
    && (forall s | s in samples :: 0 <= s < i && Called(cum, points, k, s))
    && (forall j {:trigger Served(cum, samples, points[j])} | 0 <= j < k :: Served(cum, samples, points[j]))
    && (forall t | 0 <= t < i && k < |points| :: cum[t] < points[k])
  }

  /** The next task reaches no further point. */
  lemma TaskSkipped(cum: seq<real>, points: seq<real>, samples: seq<int>, i: nat, k: nat)
    requires LookedAt(cum, points, samples, i, k) && i < |cum| && k < |points| && cum[i] < points[k]
    ensures LookedAt(cum, points, samples, i + 1, k)
  {
  }

  lemma CalledMore(cum: seq<real>, points: seq<real>, k: nat, k': nat, s: int)
    requires k <= k' <= |points| && Called(cum, points, k, s)
    ensures Called(cum, points, k', s)
  {
    var j :| 0 <= j < k && IsFirst(cum, points[j], s);
  }

  lemma ServedMore(cum: seq<real>, samples: seq<int>, i: int, p: real)
    requires Served(cum, samples, p) || IsFirst(cum, p, i)
    ensures Served(cum, samples + [i], p)
  {
    if IsFirst(cum, p, i) {
      assert i in samples + [i];
    } else {
      var s :| s in samples && IsFirst(cum, p, s);
      assert s in samples + [i];
    }
  }

  /** The next task is the first to reach points `k` up to `k'`, and no further one. */
  lemma TaskTaken(cum: seq<real>, points: seq<real>, samples: seq<int>, i: nat, k: nat, k': nat)
    requires LookedAt(cum, points, samples, i, k) && i < |cum| && Ascending(points) && k < k' <= |points|
    requires forall j | k <= j < k' :: points[j] <= cum[i]
    requires k' < |points| ==> cum[i] < points[k']
    ensures LookedAt(cum, points, samples + [i], i + 1, k')
  {
    var samples' := samples + [i];
    forall j | k <= j < k' ensures IsFirst(cum, points[j], i) {
      assert points[k] <= points[j];
    }
    forall s | s in samples' ensures 0 <= s < i + 1 && Called(cum, points, k', s) {
      if s in samples {
        CalledMore(cum, points, k, k', s);
      } else {
        assert IsFirst(cum, points[k], i);
      }
    }
    forall j | 0 <= j < k' ensures Served(cum, samples', points[j]) {
      assert j < k ==> Served(cum, samples, points[j]);
      ServedMore(cum, samples, i, points[j]);
    }
    forall x, y | 0 <= x < y < |samples'| ensures samples'[x] < samples'[y] {
      assert samples'[x] in samples;
    }
    forall t | 0 <= t < i + 1 && k' < |points| ensures cum[t] < points[k'] {
      assert points[k] <= points[k'];
    }
  }

  /** The inner loop: the points after `k` that `reach` covers. */
  method PassPoints(points: seq<real>, k: nat, reach: real) returns (k': nat)
    requires k < |points| && points[k] <= reach
    ensures k < k' <= |points| && (forall j | k <= j < k' :: points[j] <= reach) && (k' < |points| ==> reach < points[k'])
  {
    k' := k + 1;
    while k' < |points| && reach >= points[k']
      invariant k < k' <= |points| && forall j | k <= j < k' :: points[j] <= reach
    {
      k' := k' + 1;
    }
  }

  /** Step 2 of do_sampling. */
  method Lookup(weights: seq<real>, bw: real, rnd: seq<real>, setsize: nat, ghost total: real) returns (samples: seq<int>)
    requires 1 <= |rnd| && setsize <= |rnd| && weights != []
    requires Ascending(Used(rnd, setsize)) && total == Sum(weights, |weights|)
    requires forall p | p in Used(rnd, setsize) :: p <= total + bw * |weights| as real
    ensures FirstTasks(Cums(weights, bw), Used(rnd, setsize), samples) && Distinct(samples)
    ensures forall i | 0 <= i < |samples| :: 0 <= samples[i] < |weights|
  {
    var points := rnd[..if setsize == 0 then 1 else setsize];
    ghost var cum := Cums(weights, bw);
    samples := [];
    var acc, i, k := 0.0, 0, 0;
    while i < |weights| && k < |points|
      invariant 0 <= i <= |weights| && acc == Sum(weights, i) && LookedAt(cum, points, samples, i, k)
      decreases |weights| - i
    {
      var reach := acc + weights[i] + (i + 1) as real * bw;
      assert reach == cum[i];
      if reach >= points[k] {
        var k' := PassPoints(points, k, reach);
        TaskTaken(cum, points, samples, i, k, k');
        samples, k := samples + [i], k';
      } else {
        TaskSkipped(cum, points, samples, i, k);
      }
      acc, i := acc + weights[i], i + 1;
    }
    forall j | 0 <= j < |points| ensures points[j] <= total + bw * |weights| as real {
      assert points[j] in points;
    }
    AllReached(weights, bw, total, points, samples, i, k);
    forall a | 0 <= a < |samples| ensures 0 <= samples[a] < |weights| {
      assert samples[a] in samples;
      assert Called(cum, points, |points|, samples[a]);
    }
  }

  /** No point lies beyond the last task's cumulative weight, so none is left over. */
  lemma AllReached(weights: seq<real>, bw: real, total: real, points: seq<real>, samples: seq<int>, i: nat, k: nat)
    requires weights != [] && total == Sum(weights, |weights|)
    requires forall j | 0 <= j < |points| :: points[j] <= total + bw * |weights| as real
    requires LookedAt(Cums(weights, bw), points, samples, i, k) && (i == |weights| || k == |points|)
    ensures k == |points| && FirstTasks(Cums(weights, bw), points, samples) && Distinct(samples)
  {
    var cum := Cums(weights, bw);
    assert cum[|weights| - 1] == total + bw * |weights| as real;
  }
}
