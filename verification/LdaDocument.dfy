/** SampleOneDoc: every token of a document in turn is taken out, resampled and put back. */
module LdaDocument {
  import opened LdaBuckets
  import opened LdaSampler

  datatype Token = Token(word: int, topic: int)

  // ------------------------------------------------ counting topics

  /** Tokens of topic `k` among the first `n`. */
  ghost function Count(tokens: seq<Token>, n: nat, k: int): nat
    requires n <= |tokens|
  {
    if n == 0 then 0 else Count(tokens, n - 1, k) + if tokens[n - 1].topic == k then 1 else 0
  }

  /** `doc` counts the topics of `tokens`. */
  ghost predicate Counted(doc: seq<int>, tokens: seq<Token>) {
    forall k | 0 <= k < |doc| :: doc[k] == Count(tokens, |tokens|, k)
  }

  ghost predicate TopicsOk(tokens: seq<Token>, topics: nat) {
    forall i | 0 <= i < |tokens| :: 0 <= tokens[i].topic < topics
  }

  lemma {:induction false} CountReplaced(tokens: seq<Token>, t: nat, tok: Token, n: nat, k: int)
    requires t < |tokens| && n <= |tokens|
    ensures Count(tokens[t := tok], n, k) ==
            Count(tokens, n, k) + if t < n then (if tok.topic == k then 1 else 0) - (if tokens[t].topic == k then 1 else 0) else 0
  {
    if n > 0 {
      CountReplaced(tokens, t, tok, n - 1, k);
    }
  }

  /** The other tokens. */
  ghost function Others(tokens: seq<Token>, t: nat): seq<Token>
    requires t < |tokens|
  {
    tokens[..t] + tokens[t + 1..]
  }

  lemma {:induction false} CountOthers(tokens: seq<Token>, t: nat, n: nat, k: int)
    requires t < n <= |tokens|
    ensures Count(Others(tokens, t), n - 1, k) == Count(tokens, n, k) - if tokens[t].topic == k then 1 else 0
  {
    if n == t + 1 {
      CountPrefix(tokens, t, t, k);
    } else {
      CountOthers(tokens, t, n - 1, k);
    }
  }

  lemma {:induction false} CountPrefix(tokens: seq<Token>, t: nat, n: nat, k: int)
    requires n <= t < |tokens|
    ensures Count(Others(tokens, t), n, k) == Count(tokens, n, k)
  {
    if n > 0 {
      CountPrefix(tokens, t, n - 1, k);
    }
  }

  ghost function Sum(doc: seq<int>, n: nat): int
    requires n <= |doc|
  {
    if n == 0 then 0 else Sum(doc, n - 1) + doc[n - 1]
  }

  lemma {:induction false} SumMoved(doc: seq<int>, k: nat, more: int, n: nat)
    requires k < |doc| && n <= |doc|
    ensures Sum(Moved(doc, k, more), n) == Sum(doc, n) + if k < n then more else 0
  {
    if n > 0 {
      SumMoved(doc, k, more, n - 1);
    }
  }

  lemma {:induction false} SumZero(doc: seq<int>, n: nat)
    requires n <= |doc| && forall k | 0 <= k < |doc| :: doc[k] == 0
    ensures Sum(doc, n) == 0
  {
    if n > 0 {
      SumZero(doc, n - 1);
    }
  }

  ghost function CountVec(tokens: seq<Token>, n: nat, topics: nat): seq<int>
    requires n <= |tokens|
  {
    seq(topics, k => Count(tokens, n, k))
  }

  /** A document's topic counts add up to its number of tokens. */
  lemma {:induction false} CountsAddUp(tokens: seq<Token>, n: nat, topics: nat)
    requires n <= |tokens| && TopicsOk(tokens, topics)
    ensures Sum(CountVec(tokens, n, topics), topics) == n
  {
    var doc := CountVec(tokens, n, topics);
    if n == 0 {
      SumZero(doc, topics);
    } else {
      var before, k := CountVec(tokens, n - 1, topics), tokens[n - 1].topic;
      CountsAddUp(tokens, n - 1, topics);
      assert doc == Moved(before, k, 1);
      SumMoved(before, k, 1, topics);
    }
  }

  lemma CountedAddsUp(doc: seq<int>, tokens: seq<Token>)
    requires Counted(doc, tokens) && TopicsOk(tokens, |doc|)
    ensures Sum(doc, |doc|) == |tokens|
  {
    CountsAddUp(tokens, |tokens|, |doc|);
    assert doc == CountVec(tokens, |tokens|, |doc|);
  }

  // ------------------------------------------------ one token

  /** `topic` was drawn from the full conditional: on the line of terms that these counts give, the
      dart lies in a term of that topic, any term it lies strictly inside is of that topic, and the
      terms of each topic k have total length (alpha + n_dk)(beta + n_wk) / (n_k + V beta). */
  ghost predicate DrawnFrom(p: Prior, summary: seq<int>, doc: seq<int>, row: seq<WordCount>, out: int, u: real, topic: int)
    requires CountsOk(p, summary, doc) && RowFits(row, |doc|)
  {
    var all := Line(p, summary, doc, row, out);
    && NonNegative(all) && 0.0 <= u < 1.0 && Mass(all) > 0.0
    && (exists at :: Draws(all, Shot(u, Mass(all)), at, topic))
    && (forall i | 0 <= i < |all| && Inside(all, Shot(u, Mass(all)), i) :: all[i].topic == topic)
    && (forall k | 0 <= k < |doc| :: LengthOf(all, |all|, k) == Conditional(p, doc[k], InWord(row, k, out), summary[k]))
  }

  /** Whatever the row, the topic is that of a term the dart hits, or the last one if there is no mass
      to hit; and it is drawn from the full conditional if the row is in order. */
  ghost predicate Drawn(p: Prior, summary: seq<int>, doc: seq<int>, row: seq<WordCount>, out: int, u: real, topic: int) {
    && CountsOk(p, summary, doc) && RowFits(row, |doc|) && 0.0 <= u < 1.0
    && (var all := Line(p, summary, doc, row, out);
        if Mass(all) > 0.0 then exists at :: Draws(all, Shot(u, Mass(all)), at, topic) else topic == |doc| - 1)
    && (RowOk(row, |doc|, out) ==> DrawnFrom(p, summary, doc, row, out, u, topic))
  }

  /** Sample's answer, put together with what its terms weigh. */
  lemma SampleDraws(p: Prior, summary: seq<int>, doc: seq<int>, row: seq<WordCount>, out: int, u: real, topic: int, at: nat)
    requires CountsOk(p, summary, doc) && doc != [] && RowOk(row, |doc|, out) && 0.0 <= u < 1.0
    requires var all := Line(p, summary, doc, row, out); Mass(all) > 0.0 ==> Draws(all, Shot(u, Mass(all)), at, topic)
    ensures DrawnFrom(p, summary, doc, row, out, u, topic)
  {
    var all := Line(p, summary, doc, row, out);
    var idx, coeff := NonZero(doc, |doc|), Coeffs(p, summary, doc);
    NonZeroLists(doc, |doc|);
    QNonNegativeIff(p, summary, doc, coeff, row, out);
    AllNonNegative(p, summary, doc, idx, QTerms(coeff, row, out));
    forall i | 0 <= i < |all| && Inside(all, Shot(u, Mass(all)), i) ensures all[i].topic == topic {
      InsideIsUnique(all, Shot(u, Mass(all)), at, i);
    }
    forall k | 0 <= k < |doc| ensures LengthOf(all, |all|, k) == Conditional(p, doc[k], InWord(row, k, out), summary[k]) {
      LengthIsMass(all, |all|, k);
      assert all[..|all|] == all;
      BucketsMakeConditional(p, summary, doc, idx, coeff, row, out, k);
    }
  }

  /** The q bucket of SampleOneDoc: one pass over the word's sparse row. */
  method FillQ(coeff: seq<real>, row: seq<WordCount>, out: int) returns (q: seq<Term>)
    requires RowFits(row, |coeff|)
    ensures q == QTerms(coeff, row, out)
  {
    q := [];
    while |q| < |row|
      invariant |q| <= |row| && q == QTerms(coeff, row, out)[..|q|]
    {
      var w := row[|q|];
      q := q + [Term(w.topic, QPart(coeff[w.topic], Kept(w, out)))];
    }
  }

  /** No q term is negative if and only if no count of the row is, the current token taken out. */
  lemma QNonNegativeIff(p: Prior, summary: seq<int>, doc: seq<int>, coeff: seq<real>, row: seq<WordCount>, out: int)
    requires CountsOk(p, summary, doc) && CoeffsOk(p, summary, doc, coeff) && RowFits(row, |doc|)
    ensures NonNegative(QTerms(coeff, row, out)) <==> KeptNonNegative(row, out)
  {
    var q := QTerms(coeff, row, out);
    forall i | 0 <= i < |q| ensures q[i].mass >= 0.0 <==> Kept(row[i], out) >= 0 {
      var k := row[i].topic;
      assert CoeffAt(p, summary, doc, coeff, k) && CountOk(p, summary[k], doc[k]);
      CoeffPositive(p, summary[k], doc[k]);
      Times(coeff[k], Kept(row[i], out));
    }
  }

  ghost predicate Lacks(row: seq<WordCount>, k: int) {
    forall i | 0 <= i < |row| :: row[i].topic != k
  }

  /** One increment of ApplyIncUnsafe or ApplyBatchIncUnsafe, the order of entries aside: an entry that becomes zero goes,
      a topic without an entry gets one. */
  ghost function Increased(row: seq<WordCount>, k: int, d: int): seq<WordCount> {
    if row == [] then [WordCount(k, d)]
    else if row[0].topic != k then [row[0]] + Increased(row[1..], k, d)
    else if row[0].count + d == 0 then row[1..]
    else [WordCount(k, row[0].count + d)] + row[1..]
  }

  lemma {:induction false} IncreasedLast(row: seq<WordCount>, k: int, d: int)
    requires Lacks(row, k)
    ensures Increased(row, k, d) == row + [WordCount(k, d)]
  {
    if row != [] {
      IncreasedLast(row[1..], k, d);
    }
  }

  /** A copy inserted past a racing increment of a word's only token of topic `k` lacks `k`. When that
      token moves on, its decrement makes an entry of -1, and so a negative term for later tokens. */
  lemma StaleRowGoesNegative(p: Prior, summary: seq<int>, doc: seq<int>, row: seq<WordCount>, k: nat, out: int)
    requires CountsOk(p, summary, doc) && RowFits(row, |doc|) && Lacks(row, k) && k < |doc|
    ensures var row', coeff := Increased(row, k, -1), Coeffs(p, summary, doc);
      RowFits(row', |doc|) && |row'| == |row| + 1 && QTerms(coeff, row', out)[|row|].topic == k && QTerms(coeff, row', out)[|row|].mass < 0.0
  {
    IncreasedLast(row, k, -1);
    var row', coeff := Increased(row, k, -1), Coeffs(p, summary, doc);
    assert row'[|row|] == WordCount(k, -1);
    assert CoeffAt(p, summary, doc, coeff, k) && CountOk(p, summary[k], doc[k]);
    CoeffPositive(p, summary[k], doc[k]);
    Times(coeff[k], Kept(row'[|row|], out));
  }

  lemma CoeffPositive(p: Prior, n: int, d: int)
    requires CountOk(p, n, d)
    ensures Positive(p, n) && Coeff(p, n, d) > 0.0
  {
  }

  lemma Times(c: real, n: int)
    requires c > 0.0
    ensures QPart(c, n) >= 0.0 <==> n >= 0
  {
  }

  lemma AllNonNegative(p: Prior, summary: seq<int>, doc: seq<int>, idx: seq<int>, q: seq<Term>)
    requires CountsOk(p, summary, doc) && ListsNonZero(idx, doc, |doc|) && NonNegative(q) && doc != []
    ensures NonNegative(AllTerms(p, summary, doc, idx, q)) && Mass(AllTerms(p, summary, doc, idx, q)) > 0.0
  {
    var r, s := RList(p, summary, doc, idx), STerms(p, summary);
    var all := AllTerms(p, summary, doc, idx, q);
    forall i | 0 <= i < |all| ensures all[i].mass >= 0.0 {
      assert |q| <= i < |q| + |r| ==> RTermAt(p, summary, doc, idx, r, i - |q|);
      assert all[i] == if i < |q| then q[i] else if i < |q| + |r| then r[i - |q|] else s[i - |q| - |r|];
    }
    MassNonNegative(q);
    AllMass(p, summary, doc, idx, q);
  }

  /** Fills the q bucket for the counts as they stand and throws the dart. */
  method DrawTopic(sampler: FastDocSampler, row: seq<WordCount>, out: int, u: real) returns (topic: int)
    requires sampler.AuxOk() && RowFits(row, sampler.topics) && 0.0 <= u < 1.0 && sampler.topics > 0
    ensures 0 <= topic < sampler.topics
    ensures Drawn(sampler.prior, sampler.summary, sampler.doc, row, out, u, topic)
  {
    var q := FillQ(sampler.coeff, row, out);
    topic := sampler.Sample(u, q);
    ghost var p, summary, doc := sampler.prior, sampler.summary, sampler.doc;
    LineIs(p, summary, doc, sampler.idx, sampler.coeff, row, out);
    if RowOk(row, sampler.topics, out) {
      ghost var all := Line(p, summary, doc, row, out);
      ghost var at: nat := 0;
      if Mass(all) > 0.0 {
        at :| Draws(all, Shot(u, Mass(all)), at, topic);
      }
      SampleDraws(p, summary, doc, row, out, u, topic, at);
    }
  }

  /** One turn of SampleOneDoc. */
  method SampleToken(sampler: FastDocSampler, row: seq<WordCount>, out: nat, u: real) returns (topic: nat)
    requires sampler.AuxOk() && out < sampler.topics && sampler.doc[out] > 0
    requires RowFits(row, sampler.topics) && 0.0 <= u < 1.0
    modifies sampler
    ensures sampler.AuxOk() && topic < sampler.topics
    ensures Drawn(sampler.prior, Moved(old(sampler.summary), out, -1), Moved(old(sampler.doc), out, -1), row, out, u, topic)
    ensures sampler.doc == Moved(Moved(old(sampler.doc), out, -1), topic, 1)
    ensures sampler.summary == Moved(Moved(old(sampler.summary), out, -1), topic, 1)
  {
    sampler.MoveToken(out, -1);
    topic := DrawTopic(sampler, row, out, u);
    sampler.MoveToken(topic, 1);
  }

  // ------------------------------------------------ the document

  /** The topic counts of the other tokens at token `t`'s turn: those before it have their new topics. */
  ghost function DocOthers(tokens: seq<Token>, now: seq<Token>, t: nat, topics: nat): seq<int>
    requires t < |tokens| == |now|
  {
    CountVec(Others(now[..t] + tokens[t..], t), |tokens| - 1, topics)
  }

  /** A topic's count over all documents: `rest` without this one, and this one's. */
  ghost function Plus(rest: seq<int>, doc: seq<int>): seq<int>
    requires |rest| == |doc|
  {
    seq(|doc|, k requires 0 <= k < |doc| => rest[k] + doc[k])
  }

  /** Token `t` keeps its word and is drawn given the present topics of all other tokens. */
  ghost predicate Resampled(p: Prior, rest: seq<int>, tokens: seq<Token>, now: seq<Token>, rows: seq<seq<WordCount>>, us: seq<real>, t: nat)
    requires t < |tokens| == |now| == |rows| == |us|
  {
    && now[t].word == tokens[t].word
    && var doc := DocOthers(tokens, now, t, |rest|);
       Drawn(p, Plus(rest, doc), doc, rows[t], tokens[t].topic, us[t], now[t].topic)
  }

  /** ComputeDocTopicVector. */
  method ComputeDocTopicVector(tokens: seq<Token>, topics: nat) returns (doc: seq<int>)
    requires TopicsOk(tokens, topics)
    ensures |doc| == topics && Counted(doc, tokens)
  {
    doc := seq(topics, _ => 0);
    var n := 0;
    while n < |tokens|
      invariant n <= |tokens| && |doc| == topics && forall k | 0 <= k < topics :: doc[k] == Count(tokens, n, k)
    {
      var k := tokens[n].topic;
      doc := doc[k := doc[k] + 1];
      n := n + 1;
    }
  }

  lemma {:induction false} CountPositive(tokens: seq<Token>, t: nat, n: nat)
    requires t < n <= |tokens|
    ensures Count(tokens, n, tokens[t].topic) > 0
  {
    if t < n - 1 {
      CountPositive(tokens, t, n - 1);
    }
  }

  lemma CountedOthers(doc: seq<int>, tokens: seq<Token>, t: nat)
    requires Counted(doc, tokens) && t < |tokens| && 0 <= tokens[t].topic < |doc|
    ensures Counted(Moved(doc, tokens[t].topic, -1), Others(tokens, t)) && doc[tokens[t].topic] > 0
  {
    CountPositive(tokens, t, |tokens|);
    forall k | 0 <= k < |doc| ensures Moved(doc, tokens[t].topic, -1)[k] == Count(Others(tokens, t), |tokens| - 1, k) {
      CountOthers(tokens, t, |tokens|, k);
    }
  }

  lemma CountedReplaced(doc: seq<int>, tokens: seq<Token>, t: nat, tok: Token)
    requires Counted(doc, tokens) && t < |tokens| && 0 <= tokens[t].topic < |doc| && 0 <= tok.topic < |doc|
    ensures Counted(Moved(Moved(doc, tokens[t].topic, -1), tok.topic, 1), tokens[t := tok])
  {
    var doc' := Moved(Moved(doc, tokens[t].topic, -1), tok.topic, 1);
    forall k | 0 <= k < |doc| ensures doc'[k] == Count(tokens[t := tok], |tokens|, k) {
      CountReplaced(tokens, t, tok, |tokens|, k);
    }
  }

  /** Tokens already resampled are not touched again. */
  lemma ResampledStays(p: Prior, rest: seq<int>, tokens: seq<Token>, now: seq<Token>, rows: seq<seq<WordCount>>, us: seq<real>,
                       t: nat, j: nat, tok: Token)
    requires j < t < |tokens| == |now| == |rows| == |us| && Resampled(p, rest, tokens, now, rows, us, j)
    ensures Resampled(p, rest, tokens, now[t := tok], rows, us, j)
  {
    assert now[t := tok][..j] == now[..j];
  }

  /** The document in the middle of SampleOneDoc: `t` tokens are done. */
  ghost predicate Halfway(sampler: FastDocSampler, rest: seq<int>, tokens: seq<Token>, now: seq<Token>, rows: seq<seq<WordCount>>,
                          us: seq<real>, t: nat)
    reads sampler
  {
    && sampler.AuxOk() && Counted(sampler.doc, now) && TopicsOk(now, sampler.topics)
    && |rest| == sampler.topics && sampler.summary == Plus(rest, sampler.doc)
    && t <= |tokens| == |now| == |rows| == |us| && now[t..] == tokens[t..]
    && forall j {:trigger Resampled(sampler.prior, rest, tokens, now, rows, us, j)} | 0 <= j < t ::
         Resampled(sampler.prior, rest, tokens, now, rows, us, j)
  }

  ghost predicate InputsOk(tokens: seq<Token>, topics: nat, rows: seq<seq<WordCount>>, us: seq<real>) {
    && TopicsOk(tokens, topics) && |rows| == |us| == |tokens|
    && forall t | 0 <= t < |tokens| :: RowFits(rows[t], topics) && 0.0 <= us[t] < 1.0
  }

  lemma PlusMoved(rest: seq<int>, doc: seq<int>, k: nat, step: int)
    requires k < |doc| == |rest|
    ensures Plus(rest, Moved(doc, k, step)) == Moved(Plus(rest, doc), k, step)
  {
  }

  /** The counts a token is drawn from, as functions of the tokens. */
  lemma DocOthersIs(doc: seq<int>, tokens: seq<Token>, now: seq<Token>, t: nat)
    requires t < |tokens| == |now| && now[t..] == tokens[t..] && Counted(doc, now) && 0 <= now[t].topic < |doc|
    ensures DocOthers(tokens, now, t, |doc|) == Moved(doc, now[t].topic, -1) && doc[now[t].topic] > 0
  {
    assert now[..t] + tokens[t..] == now;
    CountedOthers(doc, now, t);
  }

  /** Token `t`'s turn. */
  method ResampleNext(sampler: FastDocSampler, ghost rest: seq<int>, tokens: seq<Token>, now: seq<Token>, rows: seq<seq<WordCount>>,
                      us: seq<real>, t: nat)
    returns (next: seq<Token>)
    requires InputsOk(tokens, sampler.topics, rows, us) && t < |tokens| && Halfway(sampler, rest, tokens, now, rows, us, t)
    modifies sampler
    ensures Halfway(sampler, rest, tokens, next, rows, us, t + 1)
  {
    assert now[t] == now[t..][0] == tokens[t];
    var out := tokens[t].topic;
    DocOthersIs(sampler.doc, tokens, now, t);
    ghost var doc := sampler.doc;
    PlusMoved(rest, doc, out, -1);
    var topic := SampleToken(sampler, rows[t], out, us[t]);
    PlusMoved(rest, Moved(doc, out, -1), topic, 1);
    var tok := Token(tokens[t].word, topic);
    CountedReplaced(doc, now, t, tok);
    next := now[t := tok];
    ResampledMore(sampler.prior, rest, tokens, now, rows, us, t, tok);
  }

  lemma ResampledMore(p: Prior, rest: seq<int>, tokens: seq<Token>, now: seq<Token>, rows: seq<seq<WordCount>>, us: seq<real>,
                      t: nat, tok: Token)
    requires t < |tokens| == |now| == |rows| == |us| && now[t..] == tokens[t..] && tok.word == tokens[t].word
    requires forall j {:trigger Resampled(p, rest, tokens, now, rows, us, j)} | 0 <= j < t :: Resampled(p, rest, tokens, now, rows, us, j)
    requires var doc := DocOthers(tokens, now, t, |rest|); Drawn(p, Plus(rest, doc), doc, rows[t], tokens[t].topic, us[t], tok.topic)
    ensures var next := now[t := tok];
      && next[t + 1..] == tokens[t + 1..]
      && forall j {:trigger Resampled(p, rest, tokens, next, rows, us, j)} | 0 <= j < t + 1 :: Resampled(p, rest, tokens, next, rows, us, j)
  {
    var next := now[t := tok];
    forall j | 0 <= j < t + 1 ensures Resampled(p, rest, tokens, next, rows, us, j) {
      if j < t {
        ResampledStays(p, rest, tokens, now, rows, us, t, j, tok);
      } else {
        assert next[..t] == now[..t];
      }
    }
    assert next[t + 1..] == now[t..][1..];
  }

  // ------------------------------------------------ the whole corpus

  /** Tokens of word `w` with topic `k` among the first `n`. */
  ghost function CountWord(tokens: seq<Token>, n: nat, w: int, k: int): nat
    requires n <= |tokens|
  {
    if n == 0 then 0 else CountWord(tokens, n - 1, w, k) + if tokens[n - 1].word == w && tokens[n - 1].topic == k then 1 else 0
  }

  lemma {:induction false} CountWordAppend(a: seq<Token>, b: seq<Token>, n: nat, w: int, k: int)
    requires n <= |b|
    ensures CountWord(a + b, |a| + n, w, k) == CountWord(a, |a|, w, k) + CountWord(b, n, w, k)
  {
    if n > 0 {
      CountWordAppend(a, b, n - 1, w, k);
    } else {
      CountWordPrefix(a, b, |a|, w, k);
    }
  }

  lemma {:induction false} CountWordPrefix(a: seq<Token>, b: seq<Token>, n: nat, w: int, k: int)
    requires n <= |a|
    ensures CountWord(a + b, n, w, k) == CountWord(a, n, w, k)
  {
    if n > 0 {
      CountWordPrefix(a, b, n - 1, w, k);
    }
  }

  /** Taking token `t` out takes one out of the count for its word and topic. */
  lemma {:induction false} CountWordOthers(tokens: seq<Token>, t: nat, w: int, k: int)
    requires t < |tokens|
    ensures CountWord(Others(tokens, t), |tokens| - 1, w, k) ==
            CountWord(tokens, |tokens|, w, k) - if tokens[t].word == w && tokens[t].topic == k then 1 else 0
  {
    var a, b := tokens[..t], tokens[t + 1..];
    CountWordAppend(a, b, |b|, w, k);
    CountWordAppend(a, [tokens[t]] + b, |b| + 1, w, k);
    CountWordAppend([tokens[t]], b, |b|, w, k);
    assert tokens == a + ([tokens[t]] + b);
    assert CountWord([tokens[t]], 1, w, k) == CountWord([tokens[t]], 0, w, k) + if tokens[t].word == w && tokens[t].topic == k then 1 else 0;
  }

  lemma {:induction false} CountAppend(a: seq<Token>, b: seq<Token>, n: nat, k: int)
    requires n <= |b|
    ensures Count(a + b, |a| + n, k) == Count(a, |a|, k) + Count(b, n, k)
  {
    if n > 0 {
      CountAppend(a, b, n - 1, k);
    } else {
      CountFront(a, b, |a|, k);
    }
  }

  lemma {:induction false} CountFront(a: seq<Token>, b: seq<Token>, n: nat, k: int)
    requires n <= |a|
    ensures Count(a + b, n, k) == Count(a, n, k)
  {
    if n > 0 {
      CountFront(a, b, n - 1, k);
    }
  }

  /** A word's row is exact for `corpus`: it lists each topic at most once, and its entry, if there is
      one, is the number of tokens of the word with that topic; those without have none. */
  ghost predicate RowExact(row: seq<WordCount>, corpus: seq<Token>, w: int) {
    && (forall i, j | 0 <= i < j < |row| :: row[i].topic != row[j].topic)
    && (forall i | 0 <= i < |row| :: row[i].count == CountWord(corpus, |corpus|, w, row[i].topic))
    && (forall k | Lacks(row, k) :: CountWord(corpus, |corpus|, w, k) == 0)
  }

  lemma {:induction false} InWordAt(row: seq<WordCount>, i: nat, out: int)
    requires i < |row| && forall i, j | 0 <= i < j < |row| :: row[i].topic != row[j].topic
    ensures InWord(row, row[i].topic, out) == Kept(row[i], out)
  {
    if i > 0 {
      InWordAt(row[1..], i - 1, out);
    }
  }

  lemma {:induction false} InWordLacking(row: seq<WordCount>, k: int, out: int)
    requires Lacks(row, k)
    ensures InWord(row, k, out) == 0
  {
    if row != [] {
      InWordLacking(row[1..], k, out);
    }
  }

  /** What the sampler makes of an exact row: how often the word has topic `k` without token `t`. */
  lemma {:induction false} InWordIsOthers(row: seq<WordCount>, corpus: seq<Token>, t: nat, k: int)
    requires t < |corpus| && RowExact(row, corpus, corpus[t].word)
    ensures InWord(row, k, corpus[t].topic) == CountWord(Others(corpus, t), |corpus| - 1, corpus[t].word, k)
  {
    var w, out := corpus[t].word, corpus[t].topic;
    CountWordOthers(corpus, t, w, k);
    if Lacks(row, k) {
      InWordLacking(row, k, out);
    } else {
      var i: nat :| i < |row| && row[i].topic == k;
      InWordAt(row, i, out);
    }
  }

  lemma {:induction false} ExactRowOk(row: seq<WordCount>, corpus: seq<Token>, t: nat, topics: nat)
    requires t < |corpus| && RowExact(row, corpus, corpus[t].word) && RowFits(row, topics)
    ensures RowOk(row, topics, corpus[t].topic)
  {
    forall i | 0 <= i < |row| ensures Kept(row[i], corpus[t].topic) >= 0 {
      InWordAt(row, i, corpus[t].topic);
      InWordIsOthers(row, corpus, t, row[i].topic);
    }
  }

  /** The dart lies in a piece of topic `topic`, and strictly inside pieces of that topic only. */
  ghost predicate Lands(line: seq<Term>, dart: real, topic: int) {
    && (exists at :: Draws(line, dart, at, topic))
    && (forall i | 0 <= i < |line| && Inside(line, dart, i) :: line[i].topic == topic)
  }

  /** The pieces of topic `k` have its collapsed Gibbs conditional as their length, given the other
      tokens of the document and of the corpus. */
  ghost predicate GibbsLength(p: Prior, docOthers: seq<Token>, corpusOthers: seq<Token>, w: int, line: seq<Term>, k: int) {
    var inAll := Count(corpusOthers, |corpusOthers|, k);
    && Positive(p, inAll)
    && LengthOf(line, |line|, k) ==
       Conditional(p, Count(docOthers, |docOthers|, k), CountWord(corpusOthers, |corpusOthers|, w, k), inAll)
  }

  /** The line is cut into pieces, each of one topic, whose lengths add up to that topic's Gibbs
      conditional, and the dart u * (length of the line) lies in a piece of topic `topic`. */
  ghost predicate GibbsDraw(p: Prior, docOthers: seq<Token>, corpusOthers: seq<Token>, w: int, topics: nat, line: seq<Term>,
                            u: real, topic: int)
  {
    && NonNegative(line) && Lands(line, u * Mass(line), topic)
    && forall k | 0 <= k < topics :: GibbsLength(p, docOthers, corpusOthers, w, line, k)
  }

  /** The document at token `t`'s turn. */
  ghost function Current(tokens: seq<Token>, now: seq<Token>, t: nat): seq<Token>
    requires t < |tokens| == |now|
  {
    now[..t] + tokens[t..]
  }

  lemma {:induction false} OthersAppend(a: seq<Token>, b: seq<Token>, t: nat)
    requires t < |b|
    ensures Others(a + b, |a| + t) == a + Others(b, t)
  {
  }

  /** Token `t` is redrawn from the collapsed Gibbs conditional given all other tokens of the corpus, the
      line being the one its counts and its row give. `elsewhere` are the tokens of the other documents. */
  ghost predicate GibbsResampled(p: Prior, elsewhere: seq<Token>, rest: seq<int>, tokens: seq<Token>, now: seq<Token>,
                                 rows: seq<seq<WordCount>>, us: seq<real>, t: nat)
    requires t < |tokens| == |now| == |rows| == |us|
  {
    var doc, others := DocOthers(tokens, now, t, |rest|), Others(Current(tokens, now, t), t);
    && CountsOk(p, Plus(rest, doc), doc) && RowFits(rows[t], |doc|)
    && GibbsDraw(p, others, elsewhere + others, tokens[t].word, |rest|, Line(p, Plus(rest, doc), doc, rows[t], tokens[t].topic), us[t], now[t].topic)
  }

  /** A token whose word's row is exact for the corpus at its turn, while the summary is, is redrawn from
      the collapsed Gibbs conditional given all other tokens of the corpus. */
  lemma {:induction false} ExactRowDraws(p: Prior, elsewhere: seq<Token>, rest: seq<int>, tokens: seq<Token>, now: seq<Token>,
                      rows: seq<seq<WordCount>>, us: seq<real>, t: nat)
    requires t < |tokens| == |now| == |rows| == |us| && Resampled(p, rest, tokens, now, rows, us, t)
    requires forall k | 0 <= k < |rest| :: rest[k] == Count(elsewhere, |elsewhere|, k)
    requires RowExact(rows[t], elsewhere + Current(tokens, now, t), tokens[t].word)
    ensures GibbsResampled(p, elsewhere, rest, tokens, now, rows, us, t)
  {
    var cur := Current(tokens, now, t);
    var doc := DocOthers(tokens, now, t, |rest|);
    assert cur[t] == tokens[t];
    DrawnExactly(p, elsewhere, rest, cur, t, doc, rows[t], us[t], now[t].topic);
  }

  lemma {:induction false} DrawnExactly(p: Prior, elsewhere: seq<Token>, rest: seq<int>, cur: seq<Token>, t: nat, doc: seq<int>,
                                        row: seq<WordCount>, u: real, topic: int)
    requires t < |cur| && doc == CountVec(Others(cur, t), |cur| - 1, |rest|)
    requires forall k | 0 <= k < |rest| :: rest[k] == Count(elsewhere, |elsewhere|, k)
    requires RowExact(row, elsewhere + cur, cur[t].word) && Drawn(p, Plus(rest, doc), doc, row, cur[t].topic, u, topic)
    ensures GibbsDraw(p, Others(cur, t), elsewhere + Others(cur, t), cur[t].word, |rest|, Line(p, Plus(rest, doc), doc, row, cur[t].topic), u, topic)
  {
    ExactRowOk(row, elsewhere + cur, |elsewhere| + t, |rest|);
    DrawnLengths(p, Plus(rest, doc), doc, row, cur[t].topic, u, topic);
    ExactLengths(p, elsewhere, rest, cur, t, doc, row, Line(p, Plus(rest, doc), doc, row, cur[t].topic));
  }

  ghost predicate LengthsAre(p: Prior, summary: seq<int>, doc: seq<int>, row: seq<WordCount>, out: int, line: seq<Term>)
    requires |summary| == |doc|
  {
    forall k | 0 <= k < |doc| ::
      Positive(p, summary[k]) && LengthOf(line, |line|, k) == Conditional(p, doc[k], InWord(row, k, out), summary[k])
  }

  lemma {:induction false} ExactLengths(p: Prior, elsewhere: seq<Token>, rest: seq<int>, cur: seq<Token>, t: nat, doc: seq<int>,
                                        row: seq<WordCount>, line: seq<Term>)
    requires t < |cur| && doc == CountVec(Others(cur, t), |cur| - 1, |rest|)
    requires forall k | 0 <= k < |rest| :: rest[k] == Count(elsewhere, |elsewhere|, k)
    requires RowExact(row, elsewhere + cur, cur[t].word) && LengthsAre(p, Plus(rest, doc), doc, row, cur[t].topic, line)
    ensures forall k | 0 <= k < |rest| :: GibbsLength(p, Others(cur, t), elsewhere + Others(cur, t), cur[t].word, line, k)
  {
    forall k | 0 <= k < |rest| ensures GibbsLength(p, Others(cur, t), elsewhere + Others(cur, t), cur[t].word, line, k) {
      ExactLength(p, elsewhere, rest[k], cur, t, row, line, k);
    }
  }

  lemma {:induction false} ExactLength(p: Prior, elsewhere: seq<Token>, inRest: int, cur: seq<Token>, t: nat, row: seq<WordCount>, line: seq<Term>, k: int)
    requires t < |cur| && RowExact(row, elsewhere + cur, cur[t].word) && inRest == Count(elsewhere, |elsewhere|, k)
    requires var n := Count(Others(cur, t), |cur| - 1, k);
      && Positive(p, inRest + n)
      && LengthOf(line, |line|, k) == Conditional(p, n, InWord(row, k, cur[t].topic), inRest + n)
    ensures GibbsLength(p, Others(cur, t), elsewhere + Others(cur, t), cur[t].word, line, k)
  {
    ExactCounts(elsewhere, cur, t, row, k);
  }

  lemma {:induction false} ExactCounts(elsewhere: seq<Token>, cur: seq<Token>, t: nat, row: seq<WordCount>, k: int)
    requires t < |cur| && RowExact(row, elsewhere + cur, cur[t].word)
    ensures var others := Others(cur, t);
      && InWord(row, k, cur[t].topic) == CountWord(elsewhere + others, |elsewhere + others|, cur[t].word, k)
      && Count(elsewhere + others, |elsewhere + others|, k) == Count(elsewhere, |elsewhere|, k) + Count(others, |others|, k)
  {
    InWordIsOthers(row, elsewhere + cur, |elsewhere| + t, k);
    OthersAppend(elsewhere, cur, t);
    CountAppend(elsewhere, Others(cur, t), |cur| - 1, k);
  }

  lemma {:induction false} DrawnLengths(p: Prior, summary: seq<int>, doc: seq<int>, row: seq<WordCount>, out: int, u: real, topic: int)
    requires Drawn(p, summary, doc, row, out, u, topic) && RowOk(row, |doc|, out)
    ensures |summary| == |doc|
    ensures var line := Line(p, summary, doc, row, out);
      NonNegative(line) && Lands(line, u * Mass(line), topic) && LengthsAre(p, summary, doc, row, out, line)
  {
    forall k | 0 <= k < |doc| ensures Positive(p, summary[k]) {
      assert CountOk(p, summary[k], doc[k]);
    }
  }

  /** What the summary counts outside this document. */
  ghost function Rest(summary: seq<int>, tokens: seq<Token>): seq<int> {
    seq(|summary|, k requires 0 <= k < |summary| => summary[k] - Count(tokens, |tokens|, k))
  }

  /** SampleOneDoc: every token whose word's row is in order is redrawn from the conditional given all
      the others; whatever the rows, the counts stay those of the document, the summary moves with
      them, and at the end the auxiliary variables are what they would be if computed afresh.
      `rows[t]` and `us[t]` are the word-topic row and the random number token `t` gets. If the summary
      counts this document and the tokens `elsewhere`, every token whose row does so too at its turn is
      redrawn from the collapsed Gibbs conditional of the corpus. */
  method SampleOneDoc(sampler: FastDocSampler, tokens: seq<Token>, rows: seq<seq<WordCount>>, us: seq<real>, ghost elsewhere: seq<Token>)
    returns (now: seq<Token>)
    requires |sampler.summary| == |sampler.coeff| == sampler.topics && InputsOk(tokens, sampler.topics, rows, us)
    requires forall k | 0 <= k < sampler.topics :: Positive(sampler.prior, sampler.summary[k] - Count(tokens, |tokens|, k))
    modifies sampler
    ensures sampler.AuxOk() && Counted(sampler.doc, now) && Sum(sampler.doc, sampler.topics) == |tokens|
    ensures sampler.summary == Plus(Rest(old(sampler.summary), tokens), sampler.doc)
    ensures |now| == |tokens| && TopicsOk(now, sampler.topics)
    ensures forall t | 0 <= t < |tokens| :: Resampled(sampler.prior, Rest(old(sampler.summary), tokens), tokens, now, rows, us, t)
    ensures CountsCorpus(old(sampler.summary), elsewhere, tokens) ==>
      forall t | 0 <= t < |tokens| && RowExact(rows[t], elsewhere + Current(tokens, now, t), tokens[t].word) ::
        GibbsResampled(sampler.prior, elsewhere, Rest(old(sampler.summary), tokens), tokens, now, rows, us, t)
  {
    ghost var rest := Rest(sampler.summary, tokens);
    sampler.doc := ComputeDocTopicVector(tokens, sampler.topics);
    assert sampler.summary == Plus(rest, sampler.doc);
    sampler.ComputeAuxVariables();
    now := tokens;
    var t := 0;
    while t < |tokens|
      invariant t <= |tokens| && Halfway(sampler, rest, tokens, now, rows, us, t)
    {
      now := ResampleNext(sampler, rest, tokens, now, rows, us, t);
      t := t + 1;
    }
    CountedAddsUp(sampler.doc, now);
    if CountsCorpus(old(sampler.summary), elsewhere, tokens) {
      AllGibbs(sampler.prior, elsewhere, rest, tokens, now, rows, us);
    }
  }

  /** The summary row counts the tokens of this document and those elsewhere. */
  ghost predicate CountsCorpus(summary: seq<int>, elsewhere: seq<Token>, tokens: seq<Token>) {
    forall k | 0 <= k < |summary| :: summary[k] == Count(elsewhere, |elsewhere|, k) + Count(tokens, |tokens|, k)
  }

  lemma {:induction false} AllGibbs(p: Prior, elsewhere: seq<Token>, rest: seq<int>, tokens: seq<Token>, now: seq<Token>,
                                    rows: seq<seq<WordCount>>, us: seq<real>)
    requires |tokens| == |now| == |rows| == |us| && forall t | 0 <= t < |tokens| :: Resampled(p, rest, tokens, now, rows, us, t)
    requires forall k | 0 <= k < |rest| :: rest[k] == Count(elsewhere, |elsewhere|, k)
    ensures forall t | 0 <= t < |tokens| && RowExact(rows[t], elsewhere + Current(tokens, now, t), tokens[t].word) ::
              GibbsResampled(p, elsewhere, rest, tokens, now, rows, us, t)
  {
    forall t | 0 <= t < |tokens| && RowExact(rows[t], elsewhere + Current(tokens, now, t), tokens[t].word)
      ensures GibbsResampled(p, elsewhere, rest, tokens, now, rows, us, t)
    {
      ExactRowDraws(p, elsewhere, rest, tokens, now, rows, us, t);
    }
  }
}
