/** FastDocSampler: Gibbs sampling of one document with incrementally kept bucket masses. */
module LdaSampler {
  import opened LdaBuckets

  // ------------------------------------------------ the q bucket

  /** A word's row names topics. */
  ghost predicate RowFits(row: seq<WordCount>, topics: nat) {
    forall i | 0 <= i < |row| :: 0 <= row[i].topic < topics
  }

  /** It names each once, and no count is negative when the current token, of topic `out`, is taken
      away. A copy that has missed an update may break this. */
  ghost predicate RowOk(row: seq<WordCount>, topics: nat, out: int) {
    && RowFits(row, topics) && KeptNonNegative(row, out)
    && (forall i, j | 0 <= i < j < |row| :: row[i].topic != row[j].topic)
  }

  ghost predicate KeptNonNegative(row: seq<WordCount>, out: int) {
    forall i | 0 <= i < |row| :: Kept(row[i], out) >= 0
  }

  /** The count without the current token. */
  function Kept(w: WordCount, out: int): int {
    if w.topic == out then w.count - 1 else w.count
  }

  function QPart(coeff: real, count: int): real {
    coeff * count as real
  }

  ghost function QTerms(coeff: seq<real>, row: seq<WordCount>, out: int): seq<Term>
    requires RowFits(row, |coeff|)
  {
    seq(|row|, i requires 0 <= i < |row| => Term(row[i].topic, QPart(coeff[row[i].topic], Kept(row[i], out))))
  }

  /** How often the word has topic `k`, by its row. */
  ghost function InWord(row: seq<WordCount>, k: int, out: int): int {
    if row == [] then 0 else if row[0].topic == k then Kept(row[0], out) else InWord(row[1..], k, out)
  }

  // ------------------------------------------------ mass by topic

  ghost function MassOf(terms: seq<Term>, k: int): real {
    if terms == [] then 0.0 else (if terms[0].topic == k then terms[0].mass else 0.0) + MassOf(terms[1..], k)
  }

  lemma {:induction false} MassOfAppend(a: seq<Term>, b: seq<Term>, k: int)
    ensures MassOf(a + b, k) == MassOf(a, k) + MassOf(b, k)
  {
    if a == [] {
      assert a + b == b;
    } else {
      assert (a + b)[1..] == a[1..] + b;
      MassOfAppend(a[1..], b, k);
    }
  }

  lemma {:induction false} MassOfNone(terms: seq<Term>, k: int)
    requires forall i | 0 <= i < |terms| :: terms[i].topic != k
    ensures MassOf(terms, k) == 0.0
  {
    if terms != [] {
      MassOfNone(terms[1..], k);
    }
  }

  lemma MassOfOne(terms: seq<Term>, k: int, i: nat)
    requires i < |terms| && terms[i].topic == k && forall j | 0 <= j < |terms| && j != i :: terms[j].topic != k
    ensures MassOf(terms, k) == terms[i].mass
  {
    var a, b := terms[..i], terms[i + 1..];
    assert terms == a + ([terms[i]] + b);
    MassOfAppend(a, [terms[i]] + b, k);
    MassOfAppend([terms[i]], b, k);
    MassOfNone(a, k);
    MassOfNone(b, k);
    assert [terms[i]][1..] == [];
  }

  /** The total length of the terms of topic `k` among the first `n`: from where each begins to where
      the next begins. */
  ghost function LengthOf(terms: seq<Term>, n: nat, k: int): real
    requires n <= |terms|
  {
    if n == 0 then 0.0
    else LengthOf(terms, n - 1, k) + if terms[n - 1].topic == k then Start(terms, n) - Start(terms, n - 1) else 0.0
  }

  lemma {:induction false} LengthIsMass(terms: seq<Term>, n: nat, k: int)
    requires n <= |terms|
    ensures LengthOf(terms, n, k) == MassOf(terms[..n], k)
  {
    if n > 0 {
      LengthIsMass(terms, n - 1, k);
      assert terms[..n] == terms[..n - 1] + [terms[n - 1]];
      MassOfAppend(terms[..n - 1], [terms[n - 1]], k);
      assert [terms[n - 1]][1..] == [];
    }
  }

  lemma {:induction false} QMass(coeff: seq<real>, row: seq<WordCount>, out: int, k: int)
    requires RowOk(row, |coeff|, out) && 0 <= k < |coeff|
    ensures MassOf(QTerms(coeff, row, out), k) == QPart(coeff[k], InWord(row, k, out))
  {
    var terms := QTerms(coeff, row, out);
    if row != [] {
      if row[0].topic == k {
        MassOfOne(terms, k, 0);
      } else {
        QMass(coeff, row[1..], out, k);
        var rest := QTerms(coeff, row[1..], out);
        forall i | 0 <= i < |rest| ensures rest[i] == terms[i + 1] {
          assert row[1..][i] == row[i + 1];
        }
        assert terms[1..] == rest;
      }
    }
  }

  lemma SMass(p: Prior, summary: seq<int>, k: nat)
    requires (forall j | 0 <= j < |summary| :: Positive(p, summary[j])) && k < |summary|
    ensures MassOf(STerms(p, summary), k) == SMassOf(p, summary[k])
  {
    MassOfOne(STerms(p, summary), k, k);
  }

  lemma RMass(p: Prior, summary: seq<int>, doc: seq<int>, idx: seq<int>, k: nat)
    requires CountsOk(p, summary, doc) && ListsNonZero(idx, doc, |doc|) && k < |doc|
    ensures forall i | 0 <= i < |idx| :: 0 <= idx[i] < |doc|
    ensures MassOf(Select(RTerms(p, summary, doc), idx), k) == RMassOf(p, summary[k], doc[k])
  {
    forall i | 0 <= i < |idx| ensures 0 <= idx[i] < |doc| {
      assert idx[i] in idx;
    }
    var terms := Select(RTerms(p, summary, doc), idx);
    if doc[k] == 0 {
      forall i | 0 <= i < |idx| ensures terms[i].topic != k {
        assert idx[i] in idx;
      }
      MassOfNone(terms, k);
    } else {
      assert k in idx;
      var i :| 0 <= i < |idx| && idx[i] == k;
      MassOfOne(terms, k, i);
    }
  }

  /** All terms of a throw, in the order the dart meets them. */
  ghost function AllTerms(p: Prior, summary: seq<int>, doc: seq<int>, idx: seq<int>, q: seq<Term>): seq<Term>
    requires CountsOk(p, summary, doc) && ListsNonZero(idx, doc, |doc|)
  {
    q + RList(p, summary, doc, idx) + STerms(p, summary)
  }

  ghost predicate CoeffsOk(p: Prior, summary: seq<int>, doc: seq<int>, coeff: seq<real>)
    requires CountsOk(p, summary, doc)
  {
    |coeff| == |doc| && forall k {:trigger CoeffAt(p, summary, doc, coeff, k)} | 0 <= k < |doc| :: CoeffAt(p, summary, doc, coeff, k)
  }

  ghost predicate CoeffAt(p: Prior, summary: seq<int>, doc: seq<int>, coeff: seq<real>, k: nat)
    requires CountsOk(p, summary, doc) && k < |doc| && k < |coeff|
  {
    coeff[k] == Coeff(p, summary[k], doc[k])
  }

  /** The topics with a non-zero count below `n`, in increasing order. */
  ghost function NonZero(doc: seq<int>, n: nat): seq<int>
    requires n <= |doc|
  {
    if n == 0 then []
    else if doc[n - 1] != 0 then NonZero(doc, n - 1) + [n - 1] else NonZero(doc, n - 1)
  }

  lemma {:induction false} NonZeroLists(doc: seq<int>, n: nat)
    requires n <= |doc|
    ensures ListsNonZero(NonZero(doc, n), doc, n)
  {
    if n > 0 {
      NonZeroLists(doc, n - 1);
      ListedNext(NonZero(doc, n - 1), doc, n - 1);
    }
  }

  lemma FirstListed(idx: seq<int>)
    requires idx != []
    ensures idx[0] in idx
  {
  }

  lemma ListsFewer(idx: seq<int>, doc: seq<int>, n: nat)
    requires 0 < n <= |doc| && ListsNonZero(idx, doc, n) && doc[n - 1] == 0
    ensures ListsNonZero(idx, doc, n - 1)
  {
    forall k ensures k in idx <==> 0 <= k < n - 1 && doc[k] != 0 {}
  }

  /** The index is determined by the counts. */
  lemma {:induction false} ListsOneWay(idx: seq<int>, doc: seq<int>, n: nat)
    requires n <= |doc| && ListsNonZero(idx, doc, n)
    ensures idx == NonZero(doc, n)
  {
    if n > 0 {
      if doc[n - 1] != 0 {
        LastListed(idx, doc, n);
        ListsOneWay(idx[..|idx| - 1], doc, n - 1);
      } else {
        ListsFewer(idx, doc, n);
        ListsOneWay(idx, doc, n - 1);
      }
    } else if idx != [] {
      FirstListed(idx);
    }
  }

  ghost function Coeffs(p: Prior, summary: seq<int>, doc: seq<int>): (coeff: seq<real>)
    requires CountsOk(p, summary, doc)
    ensures CoeffsOk(p, summary, doc, coeff)
  {
    var coeff := seq(|doc|, k requires 0 <= k < |doc| => Coeff(p, summary[k], doc[k]));
    assert forall k {:trigger CoeffAt(p, summary, doc, coeff, k)} | 0 <= k < |doc| :: CoeffAt(p, summary, doc, coeff, k);
    coeff
  }

  lemma CoeffsOneWay(p: Prior, summary: seq<int>, doc: seq<int>, coeff: seq<real>)
    requires CountsOk(p, summary, doc) && CoeffsOk(p, summary, doc, coeff)
    ensures coeff == Coeffs(p, summary, doc)
  {
    var other := Coeffs(p, summary, doc);
    forall k | 0 <= k < |doc| ensures coeff[k] == other[k] {
      assert CoeffAt(p, summary, doc, coeff, k) && CoeffAt(p, summary, doc, other, k);
    }
  }

  /** The line the dart is thrown at, from the counts and the word's row alone. */
  ghost function Line(p: Prior, summary: seq<int>, doc: seq<int>, row: seq<WordCount>, out: int): seq<Term>
    requires CountsOk(p, summary, doc) && RowFits(row, |doc|)
  {
    NonZeroLists(doc, |doc|);
    AllTerms(p, summary, doc, NonZero(doc, |doc|), QTerms(Coeffs(p, summary, doc), row, out))
  }

  /** It is what the auxiliary variables hold. */
  lemma LineIs(p: Prior, summary: seq<int>, doc: seq<int>, idx: seq<int>, coeff: seq<real>, row: seq<WordCount>, out: int)
    requires CountsOk(p, summary, doc) && ListsNonZero(idx, doc, |doc|) && CoeffsOk(p, summary, doc, coeff) && RowFits(row, |doc|)
    ensures AllTerms(p, summary, doc, idx, QTerms(coeff, row, out)) == Line(p, summary, doc, row, out)
  {
    ListsOneWay(idx, doc, |doc|);
    CoeffsOneWay(p, summary, doc, coeff);
  }

  /** The sparse sampler draws from the full conditional: the darts of topic k have total length
      (alpha + n_dk)(beta + n_wk) / (n_k + V beta), the current token taken out of all three counts. */
  lemma BucketsMakeConditional(p: Prior, summary: seq<int>, doc: seq<int>, idx: seq<int>, coeff: seq<real>,
                               row: seq<WordCount>, out: int, k: nat)
    requires CountsOk(p, summary, doc) && ListsNonZero(idx, doc, |doc|) && CoeffsOk(p, summary, doc, coeff)
    requires RowOk(row, |doc|, out) && k < |doc|
    ensures MassOf(AllTerms(p, summary, doc, idx, QTerms(coeff, row, out)), k)
            == Conditional(p, doc[k], InWord(row, k, out), summary[k])
  {
    var q := QTerms(coeff, row, out);
    AllTermsMass(p, summary, doc, idx, q, k);
    QMass(coeff, row, out, k);
    assert CoeffAt(p, summary, doc, coeff, k);
    MakeConditional(p, doc[k], InWord(row, k, out), summary[k], coeff[k], MassOf(q, k), MassOf(AllTerms(p, summary, doc, idx, q), k));
  }

  lemma MakeConditional(p: Prior, inDoc: int, inWord: int, inAll: int, c: real, q: real, total: real)
    requires Positive(p, inAll) && 0 <= inDoc && c == Coeff(p, inAll, inDoc) && q == QPart(c, inWord)
    requires total == q + RMassOf(p, inAll, inDoc) + SMassOf(p, inAll)
    ensures total == Conditional(p, inDoc, inWord, inAll)
  {
    TermsMakeConditional(p, inDoc, inWord, inAll);
  }

  lemma AllTermsMass(p: Prior, summary: seq<int>, doc: seq<int>, idx: seq<int>, q: seq<Term>, k: nat)
    requires CountsOk(p, summary, doc) && ListsNonZero(idx, doc, |doc|) && k < |doc|
    ensures MassOf(AllTerms(p, summary, doc, idx, q), k) == MassOf(q, k) + RMassOf(p, summary[k], doc[k]) + SMassOf(p, summary[k])
  {
    RMass(p, summary, doc, idx, k);
    var r, s := Select(RTerms(p, summary, doc), idx), STerms(p, summary);
    MassOfAppend(q + r, s, k);
    MassOfAppend(q, r, k);
    SMass(p, summary, k);
  }

  // ------------------------------------------------ the index of non-zero topics

  /** std::lower_bound. */
  method LowerBound(idx: seq<int>, v: int) returns (at: nat)
    requires forall i, j | 0 <= i < j < |idx| :: idx[i] < idx[j]
    ensures at <= |idx| && (forall i | 0 <= i < at :: idx[i] < v) && (forall i | at <= i < |idx| :: v <= idx[i])
  {
    at := 0;
    var hi := |idx|;
    while at < hi
      invariant at <= hi <= |idx|
      invariant (forall i | 0 <= i < at :: idx[i] < v) && (forall i | hi <= i < |idx| :: v <= idx[i])
    {
      var mid := (at + hi) / 2;
      if idx[mid] < v {
        at := mid + 1;
      } else {
        hi := mid;
      }
    }
  }

  lemma ListedWithout(idx: seq<int>, doc: seq<int>, k: nat, at: nat)
    requires ListsNonZero(idx, doc, |doc|) && k < |doc| && doc[k] != 0
    requires at <= |idx| && (forall i | 0 <= i < at :: idx[i] < k) && (forall i | at <= i < |idx| :: k <= idx[i])
    ensures at < |idx| && idx[at] == k && ListsNonZero(idx[..at] + idx[at + 1..], doc[k := 0], |doc|)
  {
    assert k in idx;
    var i :| 0 <= i < |idx| && idx[i] == k;
    assert at <= i && idx[at] <= idx[i];
    assert i == at;
    var rest := idx[..at] + idx[at + 1..];
    forall j ensures j in rest <==> j in idx && j != k {
      if j in idx && j != k {
        var m :| 0 <= m < |idx| && idx[m] == j;
        assert if m < at then idx[..at][m] == j else idx[at + 1..][m - at - 1] == j;
      }
    }
  }

  lemma ListedWith(idx: seq<int>, doc: seq<int>, k: nat, at: nat, n: int)
    requires ListsNonZero(idx, doc, |doc|) && k < |doc| && doc[k] == 0 && n != 0
    requires at <= |idx| && (forall i | 0 <= i < at :: idx[i] < k) && (forall i | at <= i < |idx| :: k <= idx[i])
    ensures ListsNonZero(idx[..at] + [k] + idx[at..], doc[k := n], |doc|)
  {
    var more := idx[..at] + [k] + idx[at..];
    assert k !in idx;
    assert idx == idx[..at] + idx[at..];
    forall j ensures j in more <==> j in idx || j == k {}
  }

  lemma ListedSame(idx: seq<int>, doc: seq<int>, k: nat, n: int)
    requires ListsNonZero(idx, doc, |doc|) && k < |doc| && doc[k] != 0 && n != 0
    ensures ListsNonZero(idx, doc[k := n], |doc|)
  {
  }

  // ------------------------------------------------ one count changes

  /** The code reaches the neighbouring counts by adding to or subtracting from the denominator. */
  lemma NextDenom(p: Prior, n: int, d: int, step: int)
    requires Positive(p, n + step) && 0 <= d + step
    ensures var denom := Denom(p, n) + step as real;
      && denom == Denom(p, n + step) && denom > 0.0
      && p.alpha * p.beta / denom == SMassOf(p, n + step)
      && (d + step) as real * p.beta / denom == RMassOf(p, n + step, d + step)
      && (p.alpha + d as real + step as real) / denom == Coeff(p, n + step, d + step)
  {
    assert (d + step) as real == d as real + step as real;
  }

  lemma ListedNext(idx: seq<int>, doc: seq<int>, k: nat)
    requires k < |doc| && ListsNonZero(idx, doc, k)
    ensures ListsNonZero(if doc[k] != 0 then idx + [k] else idx, doc, k + 1)
  {
    assert forall i | 0 <= i < |idx| :: idx[i] in idx;
    var more := idx + [k];
    forall j ensures j in more <==> j in idx || j == k {}
  }

  lemma CoeffsNext(p: Prior, summary: seq<int>, doc: seq<int>, coeff: seq<real>, k: nat, n: nat)
    requires CountsOk(p, summary, doc) && |coeff| == |doc| && k < |doc| && n <= |doc|
    requires forall j {:trigger CoeffAt(p, summary, doc, coeff, j)} | 0 <= j < n :: CoeffAt(p, summary, doc, coeff, j)
    ensures var coeff' := coeff[k := Coeff(p, summary[k], doc[k])];
      CoeffAt(p, summary, doc, coeff', k) && forall j {:trigger CoeffAt(p, summary, doc, coeff', j)} | 0 <= j < n :: CoeffAt(p, summary, doc, coeff', j)
  {
    var coeff' := coeff[k := Coeff(p, summary[k], doc[k])];
    forall j | 0 <= j < n ensures CoeffAt(p, summary, doc, coeff', j) {
      assert CoeffAt(p, summary, doc, coeff, j);
    }
  }

  lemma CoeffsMoved(p: Prior, summary: seq<int>, doc: seq<int>, coeff: seq<real>, k: nat, step: int)
    requires CountsOk(p, summary, doc) && CoeffsOk(p, summary, doc, coeff) && k < |doc| && 0 <= doc[k] + step
    ensures CountsOk(p, Moved(summary, k, step), Moved(doc, k, step))
    ensures CoeffsOk(p, Moved(summary, k, step), Moved(doc, k, step), coeff[k := Coeff(p, summary[k] + step, doc[k] + step)])
  {
    var summary', doc', coeff' := Moved(summary, k, step), Moved(doc, k, step), coeff[k := Coeff(p, summary[k] + step, doc[k] + step)];
    forall j | 0 <= j < |doc| ensures CoeffAt(p, summary', doc', coeff', j) {
      assert CoeffAt(p, summary, doc, coeff, j);
    }
  }

  lemma StartNext(p: Prior, summary: seq<int>, doc: seq<int>, k: nat)
    requires CountsOk(p, summary, doc) && k < |doc|
    ensures Start(STerms(p, summary), k + 1) == Start(STerms(p, summary), k) + SMassOf(p, summary[k])
    ensures Start(RTerms(p, summary, doc), k + 1) == Start(RTerms(p, summary, doc), k) + RMassOf(p, summary[k], doc[k])
  {
  }

  lemma SUpdate(p: Prior, summary: seq<int>, k: nat, n: int)
    requires (forall j | 0 <= j < |summary| :: Positive(p, summary[j])) && k < |summary| && Positive(p, n)
    ensures Mass(STerms(p, summary[k := n])) == Mass(STerms(p, summary)) - SMassOf(p, summary[k]) + SMassOf(p, n)
  {
    var terms := STerms(p, summary);
    assert STerms(p, summary[k := n]) == terms[k := Term(k, SMassOf(p, n))];
    StartUpdate(terms, k, Term(k, SMassOf(p, n)), |summary|);
  }

  lemma RUpdate(p: Prior, summary: seq<int>, doc: seq<int>, k: nat, n: int, d: int)
    requires CountsOk(p, summary, doc) && k < |doc| && CountOk(p, n, d)
    ensures CountsOk(p, summary[k := n], doc[k := d])
    ensures Mass(RTerms(p, summary[k := n], doc[k := d])) ==
            Mass(RTerms(p, summary, doc)) - RMassOf(p, summary[k], doc[k]) + RMassOf(p, n, d)
  {
    var terms := RTerms(p, summary, doc);
    assert RTerms(p, summary[k := n], doc[k := d]) == terms[k := Term(k, RMassOf(p, n, d))];
    StartUpdate(terms, k, Term(k, RMassOf(p, n, d)), |doc|);
  }

  // ------------------------------------------------ throwing the dart

  /** The first bucket: the stored q terms. The code's fall-through is never reached, whatever the
      signs of the terms. */
  method ThrowAtQ(terms: seq<Term>, dart: real) returns (topic: int, ghost at: nat)
    requires dart < Mass(terms) && terms != []
    ensures at < |terms| && topic == terms[at].topic
    ensures 0.0 <= dart ==> Draws(terms, dart, at, topic)
  {
    var sample, i := dart, 0;
    while i < |terms|
      invariant 0 <= i <= |terms| && sample == dart - Start(terms, i) && (i > 0 || dart >= 0.0 ==> sample >= 0.0)
    {
      sample := sample - terms[i].mass;
      if sample <= 0.0 {
        return terms[i].topic, i;
      }
      i := i + 1;
    }
    assert false;
  }

  /** Scaling a dart and what is taken off it alike. */
  lemma Scaled(x: real, y: real, b: real)
    requires b > 0.0
    ensures (x - y) * b == x * b - y * b
    ensures x * b <= 0.0 <==> x <= 0.0
  {
  }

  lemma RScale(p: Prior, summary: int, doc: int)
    requires Positive(p, summary) && 0 <= doc
    ensures doc as real / Denom(p, summary) * p.beta == RMassOf(p, summary, doc)
  {
    var n, d := doc as real, Denom(p, summary);
    Divided(n, d);
    Divided(n * p.beta, d);
  }

  lemma SScale(p: Prior, summary: int)
    requires Positive(p, summary)
    ensures 1.0 / Denom(p, summary) * (p.alpha * p.beta) == SMassOf(p, summary)
  {
    Divided(p.alpha * p.beta, Denom(p, summary));
  }

  lemma Unscaled(x: real, b: real)
    requires b > 0.0
    ensures x / b * b == x && (x >= 0.0 ==> x / b >= 0.0)
  {
  }

  // ------------------------------------------------ the sampler

  class FastDocSampler {
    const topics: nat
    const prior: Prior
    var summary: seq<int>
    var doc: seq<int>
    var coeff: seq<real>
    var sSum: real
    var rSum: real
    var idx: seq<int>

    ghost predicate Shape()
      reads this
    {
      |summary| == |doc| == |coeff| == topics && CountsOk(prior, summary, doc)
    }

    /** The auxiliary variables are what ComputeAuxVariables would compute from these counts. */
    ghost predicate AuxOk()
      reads this
    {
      && Shape() && CoeffsOk(prior, summary, doc, coeff) && ListsNonZero(idx, doc, topics)
      && sSum == Mass(STerms(prior, summary)) && rSum == Mass(RTerms(prior, summary, doc))
    }

    constructor (k: nat, p: Prior, row: seq<int>)
      requires |row| == k && forall j | 0 <= j < k :: Positive(p, row[j])
      ensures topics == k && prior == p && summary == row && Shape() && doc == seq(k, _ => 0)
    {
      topics, prior, summary := k, p, row;
      doc, coeff, sSum, rSum, idx := seq(k, _ => 0), seq(k, _ => 0.0), 0.0, 0.0, [];
    }

    /** The auxiliary variables cover the topics below `k`. */
    ghost predicate AuxTo(k: nat)
      reads this
    {
      Shape() && k <= topics && SumsTo(k) && ListsTo(k)
    }

    ghost predicate SumsTo(k: nat)
      requires Shape() && k <= topics
      reads this
    {
      sSum == Start(STerms(prior, summary), k) && rSum == Start(RTerms(prior, summary, doc), k)
    }

    ghost predicate ListsTo(k: nat)
      requires Shape() && k <= topics
      reads this
    {
      && ListsNonZero(idx, doc, k)
      && forall j {:trigger CoeffAt(prior, summary, doc, coeff, j)} | 0 <= j < k :: CoeffAt(prior, summary, doc, coeff, j)
    }

    method AddMasses(k: nat)
      requires Shape() && k < topics && SumsTo(k)
      modifies this`sSum, this`rSum
      ensures Shape() && SumsTo(k + 1)
    {
      StartNext(prior, summary, doc, k);
      sSum := sSum + SMassOf(prior, summary[k]);
      if doc[k] != 0 {
        rSum := rSum + RMassOf(prior, summary[k], doc[k]);
      }
    }

    method ListTopic(k: nat)
      requires Shape() && k < topics && ListsTo(k)
      modifies this`coeff, this`idx
      ensures Shape() && ListsTo(k + 1)
    {
      ListedNext(idx, doc, k);
      CoeffsNext(prior, summary, doc, coeff, k, k);
      coeff := coeff[k := Coeff(prior, summary[k], doc[k])];
      if doc[k] != 0 {
        idx := idx + [k];
      }
    }

    /** ComputeAuxVariables: everything from scratch. */
    method ComputeAuxVariables()
      requires Shape()
      modifies this`coeff, this`sSum, this`rSum, this`idx
      ensures AuxOk()
    {
      sSum, rSum, idx := 0.0, 0.0, [];
      var k := 0;
      while k < topics
        invariant AuxTo(k)
      {
        AddMasses(k);
        ListTopic(k);
        k := k + 1;
      }
    }

    /** The r and s sums and the coefficient of topic `k` move with its counts, by one. */
    method Reweigh(k: nat, step: int)
      requires AuxOk() && k < topics && 0 <= doc[k] + step
      modifies this`sSum, this`rSum, this`coeff
      ensures |coeff| == topics && CountsOk(prior, Moved(summary, k, step), Moved(doc, k, step))
      ensures CoeffsOk(prior, Moved(summary, k, step), Moved(doc, k, step), coeff)
      ensures sSum == Mass(STerms(prior, Moved(summary, k, step))) && rSum == Mass(RTerms(prior, Moved(summary, k, step), Moved(doc, k, step)))
    {
      SUpdate(prior, summary, k, summary[k] + step);
      RUpdate(prior, summary, doc, k, summary[k] + step, doc[k] + step);
      CoeffsMoved(prior, summary, doc, coeff, k, step);
      var s0, s1, r0, r1, c := Weights(prior, summary[k], doc[k], step);
      sSum := sSum - s0;
      sSum := sSum + s1;
      rSum := rSum - r0;
      rSum := rSum + r1;
      coeff := coeff[k := c];
    }

    /** Topic `k` leaves the index when its last token goes, and enters it with its first. */
    method Reindex(k: nat, step: int)
      requires |doc| == topics && ListsNonZero(idx, doc, topics) && k < topics && doc[k] >= 0 && doc[k] + step >= 0
      requires step == -1 || step == 1
      modifies this`idx
      ensures ListsNonZero(idx, Moved(doc, k, step), topics)
    {
      if step == -1 && doc[k] == 1 {
        var at := LowerBound(idx, k);
        ListedWithout(idx, doc, k, at);
        idx := idx[..at] + idx[at + 1..];
      } else if step == 1 && doc[k] == 0 {
        var at := LowerBound(idx, k);
        ListedWith(idx, doc, k, at, 1);
        idx := idx[..at] + [k] + idx[at..];
      } else {
        ListedSame(idx, doc, k, doc[k] + step);
      }
    }

    /** Takes a token of topic `k` out of the counts (`step` -1), or puts one in (1): the
        auxiliary variables stay what a recomputation would give. */
    method MoveToken(k: nat, step: int)
      requires AuxOk() && k < topics && doc[k] + step >= 0 && (step == -1 || step == 1)
      modifies this
      ensures AuxOk() && doc == Moved(old(doc), k, step) && summary == Moved(old(summary), k, step)
    {
      Reweigh(k, step);
      Reindex(k, step);
      doc := doc[k := doc[k] + step];
      summary := summary[k := summary[k] + step];
    }

    // ---------------------------------------------- drawing a topic

    /** Sample: where the dart lands, and so which topic it draws. Without positive mass in all it is
        the last topic; only then can a fall-through be reached, and only the last one. */
    method Sample(u: real, q: seq<Term>) returns (topic: int)
      requires AuxOk() && 0.0 <= u < 1.0 && topics > 0 && TopicsIn(q, topics)
      ensures 0 <= topic < topics
      ensures var all := AllTerms(prior, summary, doc, idx, q);
        if Mass(all) > 0.0 then exists at :: Draws(all, Shot(u, Mass(all)), at, topic) else topic == topics - 1
    {
      AllMass(prior, summary, doc, idx, q);
      var qSum := SumOf(q);
      var total := qSum + rSum + sSum;
      ghost var at;
      var dart := u * total;
      DartFalls(u, total, dart);
      topic, at := Throw(prior, summary, doc, idx, q, qSum, rSum, sSum, dart);
    }
  }

  ghost predicate TopicsIn(terms: seq<Term>, topics: nat) {
    forall i | 0 <= i < |terms| :: 0 <= terms[i].topic < topics
  }

  lemma DartFalls(u: real, total: real, dart: real)
    requires 0.0 <= u < 1.0 && dart == u * total
    ensures total > 0.0 ==> 0.0 <= dart < total && dart == Shot(u, total)
    ensures total <= 0.0 ==> dart >= total
  {
    if total > 0.0 {
      assert dart == Shot(u, total);
    }
  }

  lemma AllMass(p: Prior, summary: seq<int>, doc: seq<int>, idx: seq<int>, q: seq<Term>)
    requires CountsOk(p, summary, doc) && ListsNonZero(idx, doc, |doc|) && doc != []
    ensures Mass(AllTerms(p, summary, doc, idx, q)) == Mass(q) + Mass(RTerms(p, summary, doc)) + Mass(STerms(p, summary))
    ensures Mass(RTerms(p, summary, doc)) >= 0.0 && Mass(STerms(p, summary)) > 0.0
  {
    MassNonNegative(RTerms(p, summary, doc));
    SPositive(p, summary);
    ThreeMass(q, RList(p, summary, doc, idx), STerms(p, summary));
  }

  lemma ThreeMass(q: seq<Term>, r: seq<Term>, s: seq<Term>)
    ensures Mass(q + r + s) == Mass(q) + Mass(r) + Mass(s)
  {
    StartAppend(q + r, s, |q| + |r| + |s|);
    StartAppend(q, r, |q| + |r|);
  }

  /** The dart lands in term `at`, which is of topic `topic`. */
  ghost predicate Draws(terms: seq<Term>, dart: real, at: nat, topic: int) {
    Hits(terms, dart, at) && terms[at].topic == topic
  }

  /** The r bucket: only topics the document has, the dart scaled by beta beforehand. */
  method ThrowAtR(p: Prior, summary: seq<int>, doc: seq<int>, idx: seq<int>, dart: real, ghost terms: seq<Term>) returns (topic: int, ghost at: nat)
    requires CountsOk(p, summary, doc) && |terms| == |idx| && 0.0 <= dart < Mass(terms)
    requires forall i {:trigger RTermAt(p, summary, doc, idx, terms, i)} | 0 <= i < |idx| :: RTermAt(p, summary, doc, idx, terms, i)
    ensures Draws(terms, dart, at, topic)
  {
    Unscaled(dart, p.beta);
    var sample, i := dart / p.beta, 0;
    while i < |idx|
      invariant 0 <= i <= |idx| && sample * p.beta == dart - Start(terms, i) && sample >= 0.0
    {
      assert RTermAt(p, summary, doc, idx, terms, i);
      var k := idx[i];
      var part := RPart(p, summary[k], doc[k]);
      ScaledStep(sample, part, p.beta, dart - Start(terms, i), terms[i].mass);
      sample := sample - part;
      if sample <= 0.0 {
        return k, i;
      }
      i := i + 1;
    }
    Scaled(sample, 0.0, p.beta);
    assert false;
  }

  function RPart(p: Prior, summary: int, doc: int): (x: real)
    requires Positive(p, summary) && 0 <= doc
    ensures x * p.beta == RMassOf(p, summary, doc)
  {
    RScale(p, summary, doc);
    doc as real / Denom(p, summary)
  }

  function SPart(p: Prior, summary: int): (x: real)
    requires Positive(p, summary)
    ensures x * (p.alpha * p.beta) == SMassOf(p, summary)
  {
    SScale(p, summary);
    1.0 / Denom(p, summary)
  }

  /** A dart at or beyond the end can only be caught by the last term. */
  lemma AtMostLast(terms: seq<Term>, dart: real, k: nat)
    requires k < |terms| && (forall i | 0 <= i < |terms| :: terms[i].mass > 0.0) && dart <= Start(terms, k + 1) && dart >= Mass(terms)
    ensures k == |terms| - 1
  {
    if k + 1 < |terms| {
      assert Start(terms, k + 2) == Start(terms, k + 1) + terms[k + 1].mass;
      StartGrows(terms, k + 2, |terms|);
    }
  }

  /** The s bucket: every topic, the dart scaled by alpha times beta. */
  method ThrowAtS(p: Prior, summary: seq<int>, dart: real) returns (topic: int, ghost at: nat)
    requires summary != [] && forall k | 0 <= k < |summary| :: Positive(p, summary[k])
    requires 0.0 <= dart
    ensures 0 <= topic < |summary|
    ensures if dart < Mass(STerms(p, summary)) then Draws(STerms(p, summary), dart, at, topic) else topic == |summary| - 1
  {
    ghost var terms := STerms(p, summary);
    var scale := p.alpha * p.beta;
    Unscaled(dart, scale);
    var sample, k := dart / scale, 0;
    while k < |summary|
      invariant 0 <= k <= |summary| && sample * scale == dart - Start(terms, k) && sample >= 0.0
    {
      var part := SPart(p, summary[k]);
      ScaledStep(sample, part, scale, dart - Start(terms, k), terms[k].mass);
      sample := sample - part;
      if sample <= 0.0 {
        if dart >= Mass(terms) {
          AtMostLast(terms, dart, k);
        }
        return k, k;
      }
      k := k + 1;
    }
    Scaled(sample, 0.0, scale);
    return |summary| - 1, 0;
  }

  ghost predicate RTermAt(p: Prior, summary: seq<int>, doc: seq<int>, idx: seq<int>, terms: seq<Term>, i: nat)
    requires CountsOk(p, summary, doc) && i < |idx| && i < |terms|
  {
    0 <= idx[i] < |doc| && terms[i] == Term(idx[i], RMassOf(p, summary[idx[i]], doc[idx[i]]))
  }

  /** The r terms of the topics the document has. */
  ghost function RList(p: Prior, summary: seq<int>, doc: seq<int>, idx: seq<int>): (r: seq<Term>)
    requires CountsOk(p, summary, doc) && ListsNonZero(idx, doc, |doc|)
    ensures |r| == |idx| && Mass(r) == Mass(RTerms(p, summary, doc))
    ensures forall i {:trigger RTermAt(p, summary, doc, idx, r, i)} | 0 <= i < |idx| :: RTermAt(p, summary, doc, idx, r, i)
  {
    SelectMass(RTerms(p, summary, doc), idx, doc, |doc|);
    Select(RTerms(p, summary, doc), idx)
  }

  /** The choice of bucket, among buckets of terms `q`, `r` and `s`. */
  method Throw(p: Prior, summary: seq<int>, doc: seq<int>, idx: seq<int>, q: seq<Term>, qSum: real, rSum: real, ghost sSum: real, dart: real)
    returns (topic: int, ghost at: nat)
    requires CountsOk(p, summary, doc) && ListsNonZero(idx, doc, |doc|) && doc != [] && TopicsIn(q, |doc|) && qSum == Mass(q)
    requires rSum == Mass(RTerms(p, summary, doc)) && sSum == Mass(STerms(p, summary))
    requires if qSum + rSum + sSum > 0.0 then 0.0 <= dart < qSum + rSum + sSum else qSum + rSum + sSum <= dart
    requires rSum >= 0.0 && sSum > 0.0
    ensures 0 <= topic < |doc|
    ensures if qSum + rSum + sSum > 0.0 then Draws(AllTerms(p, summary, doc, idx, q), dart, at, topic) else topic == |doc| - 1
  {
    ghost var r := RList(p, summary, doc, idx);
    ghost var s := STerms(p, summary);
    if dart < qSum {
      topic, at := ThrowAtQ(q, dart);
      HitsFirst(q, r, s, dart, at, topic);
    } else if dart - qSum < rSum {
      topic, at := ThrowAtR(p, summary, doc, idx, dart - qSum, r);
      HitsSecond(q, r, s, dart - qSum, at, topic);
      assert RTermAt(p, summary, doc, idx, r, at);
      at := |q| + at;
    } else {
      topic, at := ThrowAtS(p, summary, dart - qSum - rSum);
      if dart - qSum - rSum < sSum {
        HitsThird(q, r, s, dart - qSum - rSum, at, topic);
        at := |q| + |r| + at;
      }
    }
  }

  lemma MassNonNegative(terms: seq<Term>)
    requires NonNegative(terms)
    ensures Mass(terms) >= 0.0
  {
    StartGrows(terms, 0, |terms|);
  }

  /** The sum of the q terms, as the sampler accumulates it. */
  method SumOf(q: seq<Term>) returns (sum: real)
    ensures sum == Mass(q)
  {
    sum := 0.0;
    var i := 0;
    while i < |q|
      invariant 0 <= i <= |q| && sum == Start(q, i)
    {
      sum := sum + q[i].mass;
      i := i + 1;
    }
  }

  lemma ScaledStep(x: real, y: real, b: real, left: real, mass: real)
    requires b > 0.0 && x * b == left && y * b == mass
    ensures (x - y) * b == left - mass && (x - y <= 0.0 <==> left <= mass)
  {
    Scaled(x, y, b);
    Scaled(x - y, 0.0, b);
  }

  lemma SPositive(p: Prior, summary: seq<int>)
    requires summary != [] && forall j | 0 <= j < |summary| :: Positive(p, summary[j])
    ensures Mass(STerms(p, summary)) > 0.0
  {
    var terms := STerms(p, summary);
    assert NonNegative(terms);
    StartGrows(terms, 1, |terms|);
    assert Start(terms, 1) == Start(terms, 0) + terms[0].mass;
  }

  /** A uniform draw from [0, 1) stretched over [0, m). */
  function Shot(u: real, m: real): (dart: real)
    requires 0.0 <= u < 1.0 && m > 0.0
    ensures 0.0 <= dart < m
  {
    u * m
  }

  lemma HitsFirst(q: seq<Term>, r: seq<Term>, s: seq<Term>, dart: real, i: nat, topic: int)
    requires Draws(q, dart, i, topic)
    ensures Draws(q + r + s, dart, i, topic)
  {
    StartAppend(q + r, s, i);
    StartAppend(q + r, s, i + 1);
    StartAppend(q, r, i);
    StartAppend(q, r, i + 1);
  }

  lemma HitsSecond(q: seq<Term>, r: seq<Term>, s: seq<Term>, dart: real, i: nat, topic: int)
    requires Draws(r, dart, i, topic)
    ensures Draws(q + r + s, Mass(q) + dart, |q| + i, topic)
  {
    StartAppend(q + r, s, |q| + i);
    StartAppend(q + r, s, |q| + i + 1);
    StartAppend(q, r, |q| + i);
    StartAppend(q, r, |q| + i + 1);
  }

  lemma HitsThird(q: seq<Term>, r: seq<Term>, s: seq<Term>, dart: real, i: nat, topic: int)
    requires Draws(s, dart, i, topic)
    ensures Draws(q + r + s, Mass(q) + Mass(r) + dart, |q| + |r| + i, topic)
  {
    StartAppend(q + r, s, |q| + |r| + i);
    StartAppend(q + r, s, |q| + |r| + i + 1);
    StartAppend(q, r, |q| + |r|);
  }

  /** The old and new r and s terms of a topic and its new coefficient, from its old denominator. */
  method Weights(p: Prior, n: int, d: int, step: int) returns (s0: real, s1: real, r0: real, r1: real, c: real)
    requires CountOk(p, n, d) && 0 <= d + step
    ensures s0 == SMassOf(p, n) && s1 == SMassOf(p, n + step)
    ensures r0 == RMassOf(p, n, d) && r1 == RMassOf(p, n + step, d + step) && c == Coeff(p, n + step, d + step)
  {
    NextDenom(p, n, d, step);
    var denom := Denom(p, n);
    s0 := p.alpha * p.beta / denom;
    s1 := p.alpha * p.beta / (denom + step as real);
    r0 := d as real * p.beta / denom;
    r1 := (d + step) as real * p.beta / (denom + step as real);
    c := (p.alpha + d as real + step as real) / (denom + step as real);
  }

  /** Counts with `step` more of topic `k`. */
  ghost function Moved(counts: seq<int>, k: nat, step: int): seq<int>
    requires k < |counts|
  {
    counts[k := counts[k] + step]
  }
}
