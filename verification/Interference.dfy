/** check_interference: the samples that may run together.

    Two tasks clash when the correlation of their columns is at or above the threshold. (With the
    weight-based build options of the scheduler turned on, weights would decide too; they are off.) */
module Interference {
  import opened Correlation

  /** The columns of the shard by global task id, the number of rows, and the threshold. */
  datatype Shard = Shard(columns: map<int, Column>, rows: nat, sqrt: Sqrt, threshold: real)

  ghost predicate IsTask(shard: Shard, a: int) {
    a in shard.columns && Usable(shard.columns[a], shard.rows, shard.sqrt)
  }

  ghost predicate Clash(shard: Shard, a: int, b: int) {
    && IsTask(shard, a) && IsTask(shard, b)
    && Coefficient(shard.columns[a], shard.columns[b], shard.rows, shard.sqrt) >= shard.threshold
  }

  lemma ClashSymmetric(shard: Shard, a: int, b: int)
    ensures Clash(shard, a, b) <==> Clash(shard, b, a)
  {
    if IsTask(shard, a) && IsTask(shard, b) {
      CoefficientOk(shard.columns[a], shard.columns[b], shard.rows, shard.sqrt);
    }
  }

  /** Tasks clash exactly when the sums over their dense columns say that the correlation reaches the
      threshold. */
  lemma ClashIff(shard: Shard, a: int, b: int)
    requires IsTask(shard, a) && IsTask(shard, b)
    ensures var x, y, n := shard.columns[a], shard.columns[b], shard.rows;
      Clash(shard, a, b) <==> Reaches(shard.threshold, n as real, Dot(x, x, n), Dot(x, y, n), Dot(y, y, n), Sum(x, n), Sum(y, n))
  {
    var x, y, n := shard.columns[a], shard.columns[b], shard.rows;
    CoefficientOk(x, y, n, shard.sqrt);
    VariancePositive(x, n, shard.sqrt);
    VariancePositive(y, n, shard.sqrt);
    ReachesIff(Coefficient(x, y, n, shard.sqrt), shard.threshold, n as real,
               Dot(x, x, n), Dot(x, y, n), Dot(y, y, n), Sum(x, n), Sum(y, n));
  }

  /** `kept` picks samples in the order given: `at[i]` is where kept[i] stands. */
  ghost predicate Picks(samples: seq<int>, kept: seq<int>, at: seq<int>) {
    && |at| == |kept|
    && (forall i | 0 <= i < |at| :: 0 <= at[i] < |samples| && kept[i] == samples[at[i]])
    && (forall i, j | 0 <= i < j < |at| :: at[i] < at[j])
  }

  /** No survivor clashes with an earlier one. */
  ghost predicate Independent(shard: Shard, kept: seq<int>) {
    forall i, j | 0 <= i < j < |kept| :: !Clash(shard, kept[j], kept[i])
  }

  /** Every sample before `n` either survived or clashes with a survivor that stands before it. */
  ghost predicate Maximal(shard: Shard, samples: seq<int>, kept: seq<int>, at: seq<int>, n: nat) {
    forall p | 0 <= p < n && p < |samples| :: p in at || Blocked(shard, samples, kept, at, p)
  }

  ghost predicate Blocked(shard: Shard, samples: seq<int>, kept: seq<int>, at: seq<int>, p: nat)
    requires p < |samples|
  {
    exists i :: 0 <= i < |kept| && i < |at| && at[i] < p && Clash(shard, samples[p], kept[i])
  }

  lemma BlockedStays(shard: Shard, samples: seq<int>, kept: seq<int>, at: seq<int>, p: nat, more: int, where: int)
    requires p < |samples| && |at| == |kept| && Blocked(shard, samples, kept, at, p)
    ensures Blocked(shard, samples, kept + [more], at + [where], p)
  {
    var i :| 0 <= i < |kept| && i < |at| && at[i] < p && Clash(shard, samples[p], kept[i]);
    assert (kept + [more])[i] == kept[i] && (at + [where])[i] == at[i];
  }

  /** The inner loop: does the sample clash with a survivor? */
  method Conflicts(shard: Shard, sample: int, kept: seq<int>) returns (conflict: bool, ghost with: nat)
    requires IsTask(shard, sample) && forall i | 0 <= i < |kept| :: IsTask(shard, kept[i])
    ensures conflict ==> with < |kept| && Clash(shard, sample, kept[with])
    ensures !conflict ==> forall i | 0 <= i < |kept| :: !Clash(shard, sample, kept[i])
  {
    var i := 0;
    while i < |kept|
      invariant 0 <= i <= |kept| && forall j | 0 <= j < i :: !Clash(shard, sample, kept[j])
    {
      var degree := GetCorrelation(shard.columns[sample], shard.columns[kept[i]], shard.rows, shard.sqrt);
      if degree >= shard.threshold {
        return true, i;
      }
      i := i + 1;
    }
    return false, 0;
  }

  lemma KeepOne(shard: Shard, samples: seq<int>, kept: seq<int>, at: seq<int>, p: nat)
    requires p < |samples| && Picks(samples, kept, at) && Independent(shard, kept) && Maximal(shard, samples, kept, at, p)
    requires forall i | 0 <= i < |at| :: at[i] < p
    requires forall i | 0 <= i < |kept| :: !Clash(shard, samples[p], kept[i])
    ensures Picks(samples, kept + [samples[p]], at + [p]) && Independent(shard, kept + [samples[p]])
    ensures Maximal(shard, samples, kept + [samples[p]], at + [p], p + 1)
  {
    var kept', at' := kept + [samples[p]], at + [p];
    forall q | 0 <= q < p + 1 && q < |samples| ensures q in at' || Blocked(shard, samples, kept', at', q) {
      if q == p {
        assert at'[|at|] == p;
      } else if q in at {
        assert q in at';
      } else {
        BlockedStays(shard, samples, kept, at, q, samples[p], p);
      }
    }
  }

  lemma DropOne(shard: Shard, samples: seq<int>, kept: seq<int>, at: seq<int>, p: nat, i: nat)
    requires p < |samples| && |at| == |kept| && Maximal(shard, samples, kept, at, p)
    requires i < |kept| && at[i] < p && Clash(shard, samples[p], kept[i])
    ensures Maximal(shard, samples, kept, at, p + 1)
  {
    assert Blocked(shard, samples, kept, at, p);
  }

  /** check_interference: a greedy maximal independent set, in the order given. The first sample
      always survives; with no samples at all, the code still reads one. */
  method CheckInterference(shard: Shard, samples: seq<int>) returns (kept: seq<int>, ghost at: seq<int>)
    requires samples != [] && forall i | 0 <= i < |samples| :: IsTask(shard, samples[i])
    ensures Picks(samples, kept, at) && Independent(shard, kept) && Maximal(shard, samples, kept, at, |samples|)
    ensures kept != [] && kept[0] == samples[0]
    ensures forall i, j | 0 <= i < |kept| && 0 <= j < |kept| && i != j :: !Clash(shard, kept[i], kept[j])
  {
    kept, at := [samples[0]], [0];
    var p := 1;
    while p < |samples|
      invariant 1 <= p <= |samples| && Picks(samples, kept, at) && Independent(shard, kept) && Maximal(shard, samples, kept, at, p)
      invariant (forall i | 0 <= i < |at| :: at[i] < p) && kept != [] && kept[0] == samples[0]
    {
      ghost var with;
      var conflict;
      conflict, with := Conflicts(shard, samples[p], kept);
      if !conflict {
        KeepOne(shard, samples, kept, at, p);
        kept, at := kept + [samples[p]], at + [p];
      } else {
        DropOne(shard, samples, kept, at, p, with);
      }
      p := p + 1;
    }
    forall i, j | 0 <= i < |kept| && 0 <= j < |kept| && i != j ensures !Clash(shard, kept[i], kept[j]) {
      ClashSymmetric(shard, kept[i], kept[j]);
    }
  }
}
