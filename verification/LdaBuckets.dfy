/** The three buckets of the sparse LDA sampler, in exact reals.

    A dart thrown at [q | r | s] lands in one term of one bucket; terms are laid end to end. */
module LdaBuckets {

  datatype Params = Params(alpha: real, beta: real, betaSum: real)

  type Prior = p: Params | p.alpha > 0.0 && p.beta > 0.0 && p.betaSum > 0.0 witness Params(1.0, 1.0, 1.0)

  datatype Term = Term(topic: int, mass: real)

  /** A word's row of the word-topic table: counts of distinct topics. */
  datatype WordCount = WordCount(topic: int, count: int)

  ghost predicate NonNegative(terms: seq<Term>) {
    forall i | 0 <= i < |terms| :: terms[i].mass >= 0.0
  }

  /** Where term `i` begins. */
  ghost function Start(terms: seq<Term>, i: nat): real
    requires i <= |terms|
  {
    if i == 0 then 0.0 else Start(terms, i - 1) + terms[i - 1].mass
  }

  ghost function Mass(terms: seq<Term>): real {
    Start(terms, |terms|)
  }

  /** The dart lands in term `i`, its ends included. */
  ghost predicate Hits(terms: seq<Term>, dart: real, i: nat) {
    i < |terms| && Start(terms, i) <= dart <= Start(terms, i + 1)
  }

  /** The dart lands strictly inside term `i`. */
  ghost predicate Inside(terms: seq<Term>, dart: real, i: nat) {
    i < |terms| && Start(terms, i) < dart < Start(terms, i + 1)
  }

  lemma {:induction false} StartGrows(terms: seq<Term>, i: nat, j: nat)
    requires NonNegative(terms) && i <= j <= |terms|
    ensures Start(terms, i) <= Start(terms, j)
  {
    if i < j {
      StartGrows(terms, i, j - 1);
    }
  }

  /** A dart strictly inside a term hits no other: the darts of a term are its open interval,
      and at most its two ends more, so their total length is the term's mass. */
  lemma InsideIsUnique(terms: seq<Term>, dart: real, i: nat, j: nat)
    requires NonNegative(terms) && Hits(terms, dart, i) && Inside(terms, dart, j)
    ensures i == j
  {
    if i < j {
      StartGrows(terms, i + 1, j);
    } else if j < i {
      StartGrows(terms, j + 1, i);
    }
  }

  lemma {:induction false} StartUpdate(terms: seq<Term>, j: nat, t: Term, n: nat)
    requires j < |terms| && n <= |terms|
    ensures Start(terms[j := t], n) == Start(terms, n) + if j < n then t.mass - terms[j].mass else 0.0
  {
    if n > 0 {
      StartUpdate(terms, j, t, n - 1);
    }
  }

  lemma {:induction false} StartAppend(a: seq<Term>, b: seq<Term>, n: nat)
    requires n <= |a| + |b|
    ensures Start(a + b, n) == if n <= |a| then Start(a, n) else Mass(a) + Start(b, n - |a|)
  {
    if n > 0 {
      StartAppend(a, b, n - 1);
    }
  }

  // ------------------------------------------------ the terms

  function Denom(p: Prior, count: int): real {
    count as real + p.betaSum
  }

  predicate Positive(p: Prior, count: int) {
    Denom(p, count) > 0.0
  }

  /** A topic's count may fall short of the document's own tokens of it, as a stale copy can, but not
      by as much as V times beta: taking all those tokens out leaves its denominator positive. */
  ghost predicate CountOk(p: Prior, summary: int, doc: int) {
    0 <= doc && Positive(p, summary - doc)
  }

  ghost predicate CountsOk(p: Prior, summary: seq<int>, doc: seq<int>) {
    |doc| == |summary| && forall k | 0 <= k < |doc| :: CountOk(p, summary[k], doc[k])
  }

  function SMassOf(p: Prior, summary: int): (m: real)
    requires Positive(p, summary)
    ensures m > 0.0
  {
    p.alpha * p.beta / Denom(p, summary)
  }

  function RMassOf(p: Prior, summary: int, doc: int): (m: real)
    requires Positive(p, summary) && 0 <= doc
    ensures m >= 0.0 && (doc == 0 ==> m == 0.0)
  {
    doc as real * p.beta / Denom(p, summary)
  }

  ghost function STerms(p: Prior, summary: seq<int>): seq<Term>
    requires forall k | 0 <= k < |summary| :: Positive(p, summary[k])
  {
    seq(|summary|, k requires 0 <= k < |summary| => Term(k, SMassOf(p, summary[k])))
  }

  /** The r terms of all topics; most of them are zero. */
  ghost function RTerms(p: Prior, summary: seq<int>, doc: seq<int>): seq<Term>
    requires CountsOk(p, summary, doc)
  {
    seq(|doc|, k requires 0 <= k < |doc| => Term(k, RMassOf(p, summary[k], doc[k])))
  }

  function Coeff(p: Prior, summary: int, doc: int): real
    requires Positive(p, summary)
  {
    (p.alpha + doc as real) / Denom(p, summary)
  }

  /** Only the topics of `idx`, in that order. */
  ghost function Select(terms: seq<Term>, idx: seq<int>): seq<Term>
    requires forall i | 0 <= i < |idx| :: 0 <= idx[i] < |terms|
  {
    seq(|idx|, i requires 0 <= i < |idx| => terms[idx[i]])
  }

  /** `idx` lists exactly the topics with a non-zero count below `n`, in increasing order. */
  ghost predicate ListsNonZero(idx: seq<int>, doc: seq<int>, n: nat)
    requires n <= |doc|
  {
    && (forall i, j | 0 <= i < j < |idx| :: idx[i] < idx[j])
    && (forall k :: k in idx <==> 0 <= k < n && doc[k] != 0)
  }

  lemma LastListed(idx: seq<int>, doc: seq<int>, n: nat)
    requires 0 < n <= |doc| && ListsNonZero(idx, doc, n) && doc[n - 1] != 0
    ensures idx != [] && idx[|idx| - 1] == n - 1 && ListsNonZero(idx[..|idx| - 1], doc, n - 1)
  {
    assert n - 1 in idx;
    var i :| 0 <= i < |idx| && idx[i] == n - 1;
    var last := idx[|idx| - 1];
    assert last in idx;
    var front := idx[..|idx| - 1];
    forall k ensures k in front <==> 0 <= k < n - 1 && doc[k] != 0 {
      if k in front {
        assert k in idx;
      }
      if 0 <= k < n - 1 && doc[k] != 0 {
        assert k in idx;
      }
    }
  }

  /** Skipping the zero terms loses no mass. */
  lemma {:induction false} SelectMass(terms: seq<Term>, idx: seq<int>, doc: seq<int>, n: nat)
    requires n <= |doc| == |terms| && ListsNonZero(idx, doc, n)
    requires forall k | 0 <= k < |doc| && doc[k] == 0 :: terms[k].mass == 0.0
    ensures forall i | 0 <= i < |idx| :: 0 <= idx[i] < |terms|
    ensures Mass(Select(terms, idx)) == Start(terms, n)
  {
    forall i | 0 <= i < |idx| ensures 0 <= idx[i] < n {
      assert idx[i] in idx;
    }
    if n > 0 {
      if doc[n - 1] == 0 {
        assert ListsNonZero(idx, doc, n - 1);
        SelectMass(terms, idx, doc, n - 1);
      } else {
        LastListed(idx, doc, n);
        var front := idx[..|idx| - 1];
        SelectMass(terms, front, doc, n - 1);
        assert Select(terms, idx) == Select(terms, front) + [terms[n - 1]];
        StartAppend(Select(terms, front), [terms[n - 1]], |idx|);
        assert Start([terms[n - 1]], 1) == terms[n - 1].mass;
      }
    }
  }

  // ------------------------------------------------ what a topic's terms add up to

  /** The collapsed Gibbs conditional, up to its normalising constant. */
  ghost function Conditional(p: Prior, inDoc: int, inWord: int, inAll: int): real
    requires Positive(p, inAll)
  {
    (p.alpha + inDoc as real) * (p.beta + inWord as real) / (inAll as real + p.betaSum)
  }

  lemma Divided(x: real, d: real)
    requires d > 0.0
    ensures x / d == x * (1.0 / d)
  {
  }

  /** q, r and s terms of one topic are the conditional, multiplied out. */
  lemma TermsMakeConditional(p: Prior, inDoc: int, inWord: int, inAll: int)
    requires Positive(p, inAll) && 0 <= inDoc
    ensures Coeff(p, inAll, inDoc) * inWord as real + RMassOf(p, inAll, inDoc) + SMassOf(p, inAll)
            == Conditional(p, inDoc, inWord, inAll)
  {
    var d, n, w := Denom(p, inAll), inDoc as real, inWord as real;
    var x := 1.0 / d;
    Divided(p.alpha + n, d);
    Divided(n * p.beta, d);
    Divided(p.alpha * p.beta, d);
    Divided((p.alpha + n) * (p.beta + w), d);
    Expanded(p.alpha, p.beta, n, w, x);
  }

  lemma Expanded(a: real, b: real, n: real, w: real, x: real)
    ensures (a + n) * x * w + n * b * x + a * b * x == (a + n) * (b + w) * x
  {
    assert (a + n) * (b + w) == a * b + a * w + n * b + n * w;
    assert (a + n) * x * w == (a * w + n * w) * x;
  }
}
