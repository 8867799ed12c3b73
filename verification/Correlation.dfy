/** Sparse columns and the correlation of two of them, in exact reals. */
module Correlation {

  datatype Column = Column(idx: seq<nat>, val: seq<real>)

  /** Row numbers strictly increase, each paired with its value. */
  ghost predicate Valid(c: Column) {
    |c.idx| == |c.val| && forall i, j | 0 <= i < j < |c.idx| :: c.idx[i] < c.idx[j]
  }

  ghost predicate Below(c: Column, n: nat) {
    forall i | 0 <= i < |c.idx| :: c.idx[i] < n
  }

  /** The value in row `r`; rows not listed hold zero. */
  ghost function At(c: Column, r: nat): real
    requires Valid(c)
  {
    if exists i :: 0 <= i < |c.idx| && c.idx[i] == r
    then var i :| 0 <= i < |c.idx| && c.idx[i] == r; c.val[i]
    else 0.0
  }

  lemma AtListed(c: Column, i: nat)
    requires Valid(c) && i < |c.idx|
    ensures At(c, c.idx[i]) == c.val[i]
  {
    var j :| 0 <= j < |c.idx| && c.idx[j] == c.idx[i] && At(c, c.idx[i]) == c.val[j];
    assert j == i;
  }

  /** spmat_vector: a column that is filled one entry at a time, in any order. */
  class SparseVector {
    var idx: seq<nat>
    var val: seq<real>

    ghost function Col(): Column
      reads this
    {
      Column(idx, val)
    }

    constructor ()
      ensures Col() == Column([], [])
    {
      idx, val := [], [];
    }

    /** add_with_sorting: the column stays sorted, and exactly row `id` changes. */
    method AddWithSorting(id: nat, value: real)
      requires Valid(Col()) && id !in idx
      modifies this
      ensures Valid(Col()) && At(Col(), id) == value
      ensures forall r: nat | r != id :: At(Col(), r) == old(At(Col(), r))
    {
      ghost var was := Col();
      var p := 0;
      while p < |idx| && idx[p] < id
        invariant p <= |idx| && forall i | 0 <= i < p :: idx[i] < id
      {
        p := p + 1;
      }
      idx, val := idx[..p] + [id] + idx[p..], val[..p] + [value] + val[p..];
      Inserted(was, Col(), p, id, value);
    }
  }

  lemma Inserted(c: Column, c': Column, p: nat, id: nat, value: real)
    requires Valid(c) && p <= |c.idx| && id !in c.idx
    requires (forall i | 0 <= i < p :: c.idx[i] < id) && (p < |c.idx| ==> id < c.idx[p])
    requires c'.idx == c.idx[..p] + [id] + c.idx[p..] && c'.val == c.val[..p] + [value] + c.val[p..]
    ensures Valid(c') && At(c', id) == value && forall r: nat | r != id :: At(c', r) == At(c, r)
  {
    assert c'.idx[p] == id;
    forall i, j | 0 <= i < j < |c'.idx| ensures c'.idx[i] < c'.idx[j] {
      assert j > p ==> c'.idx[j] == c.idx[j - 1] && c.idx[j - 1] >= c.idx[p];
      assert i > p ==> c'.idx[i] == c.idx[i - 1];
    }
    AtListed(c', p);
    forall r: nat | r != id ensures At(c', r) == At(c, r) {
      if i :| 0 <= i < |c.idx| && c.idx[i] == r {
        AtListed(c, i);
        var j := if i < p then i else i + 1;
        assert c'.idx[j] == r;
        AtListed(c', j);
      } else {
        forall j | 0 <= j < |c'.idx| ensures c'.idx[j] != r {
          assert j < p ==> c'.idx[j] == c.idx[j];
          assert j > p ==> c'.idx[j] == c.idx[j - 1];
        }
      }
    }
  }

  // ------------------------------------------------ dense sums

  /** The dot product of two columns over the first `n` rows. */
  ghost function Dot(x: Column, y: Column, n: nat): real
    requires Valid(x) && Valid(y)
  {
    if n == 0 then 0.0 else Dot(x, y, n - 1) + At(x, n - 1) * At(y, n - 1)
  }

  ghost function Sum(x: Column, n: nat): real
    requires Valid(x)
  {
    if n == 0 then 0.0 else Sum(x, n - 1) + At(x, n - 1)
  }

  lemma {:induction false} DotSkip(x: Column, y: Column, lo: nat, hi: nat)
    requires Valid(x) && Valid(y) && lo <= hi && forall r: nat | lo <= r < hi :: At(x, r) == 0.0 || At(y, r) == 0.0
    ensures Dot(x, y, hi) == Dot(x, y, lo)
  {
    if lo < hi {
      DotSkip(x, y, lo, hi - 1);
    }
  }

  lemma {:induction false} SumSkip(x: Column, lo: nat, hi: nat)
    requires Valid(x) && lo <= hi && forall r: nat | lo <= r < hi :: At(x, r) == 0.0
    ensures Sum(x, hi) == Sum(x, lo)
  {
    if lo < hi {
      SumSkip(x, lo, hi - 1);
    }
  }

  /** The entries before `a` are those of rows below `lim`. */
  ghost predicate ReadTo(c: Column, a: nat, lim: nat) {
    a <= |c.idx| && (forall i | 0 <= i < a :: c.idx[i] < lim) && (forall i | a <= i < |c.idx| :: lim <= c.idx[i])
  }

  /** Up to the next entry the column is zero. */
  lemma GapIsZero(c: Column, a: nat, lim: nat, r: nat)
    requires Valid(c) && ReadTo(c, a, lim) && lim <= r && (a < |c.idx| ==> r < c.idx[a])
    ensures At(c, r) == 0.0
  {
    forall i | 0 <= i < |c.idx| ensures c.idx[i] != r {
      if a <= i {
        assert c.idx[a] <= c.idx[i];
      }
    }
  }

  lemma ReadMore(c: Column, a: nat, lim: nat)
    requires Valid(c) && ReadTo(c, a, lim) && a < |c.idx|
    ensures ReadTo(c, a + 1, c.idx[a] + 1)
  {
  }

  /** The first two loops: sum and sum of squares of a column. */
  method Sums(x: Column, n: nat) returns (sum: real, squares: real)
    requires Valid(x) && Below(x, n)
    ensures sum == Sum(x, n) && squares == Dot(x, x, n)
  {
    sum, squares := 0.0, 0.0;
    var i := 0;
    ghost var lim: nat := 0;
    while i < |x.idx|
      invariant 0 <= i <= |x.idx| && lim <= n && ReadTo(x, i, lim) && sum == Sum(x, lim) && squares == Dot(x, x, lim)
    {
      TakeBoth(x, x, i, i, lim);
      sum, squares := sum + x.val[i], squares + x.val[i] * x.val[i];
      lim := x.idx[i] + 1;
      i := i + 1;
    }
    SkipTo(x, x, i, lim, n);
  }

  /** From `lim` to just before the next entry of `x` nothing is added. */
  lemma SkipTo(x: Column, y: Column, a: nat, lim: nat, r: nat)
    requires Valid(x) && Valid(y) && ReadTo(x, a, lim) && lim <= r && (a < |x.idx| ==> r <= x.idx[a])
    ensures Sum(x, r) == Sum(x, lim) && Dot(x, y, r) == Dot(x, y, lim) && Dot(y, x, r) == Dot(y, x, lim)
  {
    forall q: nat | lim <= q < r ensures At(x, q) == 0.0 {
      GapIsZero(x, a, lim, q);
    }
    SumSkip(x, lim, r);
    DotSkip(x, y, lim, r);
    DotSkip(y, x, lim, r);
  }

  /** Both columns have an entry in the same row. */
  lemma TakeBoth(x: Column, y: Column, a: nat, b: nat, lim: nat)
    requires Valid(x) && Valid(y) && ReadTo(x, a, lim) && ReadTo(y, b, lim)
    requires a < |x.idx| && b < |y.idx| && x.idx[a] == y.idx[b]
    ensures var r := x.idx[a] + 1;
      && ReadTo(x, a + 1, r) && ReadTo(y, b + 1, r)
      && Sum(x, r) == Sum(x, lim) + x.val[a] && Dot(x, y, r) == Dot(x, y, lim) + x.val[a] * y.val[b]
  {
    SkipTo(x, y, a, lim, x.idx[a]);
    AtListed(x, a);
    AtListed(y, b);
    ReadMore(x, a, lim);
    ReadMore(y, b, lim);
  }

  /** The next entry of `x` has no partner in `y`. */
  lemma PassOne(x: Column, y: Column, a: nat, b: nat, lim: nat)
    requires Valid(x) && Valid(y) && ReadTo(x, a, lim) && ReadTo(y, b, lim)
    requires a < |x.idx| && b < |y.idx| && x.idx[a] < y.idx[b]
    ensures var r := x.idx[a] + 1;
      ReadTo(x, a + 1, r) && ReadTo(y, b, r) && Dot(x, y, r) == Dot(x, y, lim) && Dot(y, x, r) == Dot(y, x, lim)
  {
    SkipTo(y, x, b, lim, x.idx[a] + 1);
    ReadMore(x, a, lim);
    forall i | b <= i < |y.idx| ensures x.idx[a] + 1 <= y.idx[i] {
      assert y.idx[b] <= y.idx[i];
    }
  }

  /** The merge loop: one pass over both sorted columns computes their dense dot product. */
  method MergeDot(x: Column, y: Column, n: nat) returns (dot: real)
    requires Valid(x) && Valid(y) && Below(x, n) && Below(y, n)
    ensures dot == Dot(x, y, n)
  {
    dot := 0.0;
    var a, b := 0, 0;
    ghost var lim: nat := 0;
    while a != |x.idx| && b != |y.idx|
      invariant 0 <= a <= |x.idx| && 0 <= b <= |y.idx| && lim <= n
      invariant ReadTo(x, a, lim) && ReadTo(y, b, lim) && dot == Dot(x, y, lim)
      decreases |x.idx| - a + |y.idx| - b
    {
      if x.idx[a] == y.idx[b] {
        TakeBoth(x, y, a, b, lim);
        dot := dot + x.val[a] * y.val[b];
        lim := x.idx[a] + 1;
        a, b := a + 1, b + 1;
      } else if x.idx[a] > y.idx[b] {
        PassOne(y, x, b, a, lim);
        lim := y.idx[b] + 1;
        b := b + 1;
      } else {
        PassOne(x, y, a, b, lim);
        lim := x.idx[a] + 1;
        a := a + 1;
      }
    }
    if a == |x.idx| {
      SkipTo(x, y, a, lim, n);
    } else {
      SkipTo(y, x, b, lim, n);
    }
  }

  // ------------------------------------------------ the coefficient is at most one

  /** The rows of s * x + t * y, their sum and their sum of squares. */
  ghost function Z(x: Column, y: Column, s: real, t: real, i: nat): real
    requires Valid(x) && Valid(y)
  {
    s * At(x, i) + t * At(y, i)
  }

  ghost function ZSum(x: Column, y: Column, s: real, t: real, n: nat): real
    requires Valid(x) && Valid(y)
  {
    if n == 0 then 0.0 else ZSum(x, y, s, t, n - 1) + Z(x, y, s, t, n - 1)
  }

  ghost function ZSquares(x: Column, y: Column, s: real, t: real, n: nat): real
    requires Valid(x) && Valid(y)
  {
    if n == 0 then 0.0 else ZSquares(x, y, s, t, n - 1) + Z(x, y, s, t, n - 1) * Z(x, y, s, t, n - 1)
  }

  lemma {:induction false} ZSumIs(x: Column, y: Column, s: real, t: real, n: nat)
    requires Valid(x) && Valid(y)
    ensures Linear(ZSum(x, y, s, t, n), s, t, Sum(x, n), Sum(y, n))
  {
    if n > 0 {
      ZSumIs(x, y, s, t, n - 1);
    }
  }

  ghost predicate Linear(sum: real, s: real, t: real, x: real, y: real) {
    sum == s * x + t * y
  }

  ghost predicate Expands(squares: real, s: real, t: real, xx: real, xy: real, yy: real) {
    squares == s * s * xx + 2.0 * s * t * xy + t * t * yy
  }

  lemma Square(s: real, t: real, a: real, b: real)
    ensures Expands((s * a + t * b) * (s * a + t * b), s, t, a * a, a * b, b * b)
  {
    assert (s * a) * (s * a) == s * s * (a * a);
    assert (s * a) * (t * b) == s * t * (a * b);
    assert (t * b) * (t * b) == t * t * (b * b);
  }

  lemma ExpandsSum(u: real, v: real, w: real, s: real, t: real, xx: real, xy: real, yy: real, aa: real, ab: real, bb: real,
                   xx': real, xy': real, yy': real)
    requires Expands(u, s, t, xx, xy, yy) && Expands(v, s, t, aa, ab, bb)
    requires w == u + v && xx' == xx + aa && xy' == xy + ab && yy' == yy + bb
    ensures Expands(w, s, t, xx', xy', yy')
  {
    var p, q, r := s * s, 2.0 * s * t, t * t;
    assert p * (xx + aa) == p * xx + p * aa;
    assert q * (xy + ab) == q * xy + q * ab;
    assert r * (yy + bb) == r * yy + r * bb;
  }

  lemma {:induction false} ZSquaresIs(x: Column, y: Column, s: real, t: real, n: nat)
    requires Valid(x) && Valid(y)
    ensures Expands(ZSquares(x, y, s, t, n), s, t, Dot(x, x, n), Dot(x, y, n), Dot(y, y, n))
  {
    if n > 0 {
      ZSquaresIs(x, y, s, t, n - 1);
      var a, b := At(x, n - 1), At(y, n - 1);
      Square(s, t, a, b);
      ExpandsSum(ZSquares(x, y, s, t, n - 1), (s * a + t * b) * (s * a + t * b), ZSquares(x, y, s, t, n), s, t,
                 Dot(x, x, n - 1), Dot(x, y, n - 1), Dot(y, y, n - 1), a * a, a * b, b * b,
                 Dot(x, x, n), Dot(x, y, n), Dot(y, y, n));
    }
  }

  /** The squared distance of n rows from `c`, and n times their variance, are not negative. */
  ghost predicate Spaced(squares: real, sum: real, c: real, n: real) {
    squares - 2.0 * c * sum + n * (c * c) >= 0.0
  }

  ghost predicate Varied(squares: real, sum: real, n: real) {
    n * squares >= sum * sum
  }

  lemma {:induction false} Deviation(x: Column, y: Column, s: real, t: real, c: real, n: nat)
    requires Valid(x) && Valid(y)
    ensures Spaced(ZSquares(x, y, s, t, n), ZSum(x, y, s, t, n), c, n as real)
  {
    if n > 0 {
      Deviation(x, y, s, t, c, n - 1);
      SpacedStep(ZSquares(x, y, s, t, n - 1), ZSum(x, y, s, t, n - 1), Z(x, y, s, t, n - 1), c, (n - 1) as real, n as real,
                 ZSquares(x, y, s, t, n), ZSum(x, y, s, t, n));
    }
  }

  lemma SpacedStep(squares: real, sum: real, z: real, c: real, n: real, n': real, squares': real, sum': real)
    requires Spaced(squares, sum, c, n) && n' == n + 1.0 && squares' == squares + z * z && sum' == sum + z
    ensures Spaced(squares', sum', c, n')
  {
    SquareOfDifference(z, c);
    assert 2.0 * c * (sum + z) == 2.0 * c * sum + 2.0 * c * z;
    assert (n + 1.0) * (c * c) == n * (c * c) + c * c;
  }

  lemma SquareOfDifference(z: real, c: real)
    ensures z * z - 2.0 * c * z + c * c >= 0.0
  {
    var d := z - c;
    assert d * d == z * d - c * d;
    assert z * d == z * z - z * c && c * d == c * z - c * c;
    SquarePositive(d);
  }

  lemma SquarePositive(d: real)
    ensures d * d >= 0.0
  {
  }

  /** n times the sum of squares is at least the square of the sum. */
  lemma {:induction false} Variance(x: Column, y: Column, s: real, t: real, n: nat)
    requires Valid(x) && Valid(y)
    ensures Varied(ZSquares(x, y, s, t, n), ZSum(x, y, s, t, n), n as real)
  {
    if n > 0 {
      Variance(x, y, s, t, n - 1);
      Deviation(x, y, s, t, Z(x, y, s, t, n - 1), n - 1);
      VariedStep(ZSquares(x, y, s, t, n - 1), ZSum(x, y, s, t, n - 1), Z(x, y, s, t, n - 1), (n - 1) as real, n as real,
                 ZSquares(x, y, s, t, n), ZSum(x, y, s, t, n));
    }
  }

  lemma VariedStep(squares: real, sum: real, z: real, n: real, n': real, squares': real, sum': real)
    requires Varied(squares, sum, n) && Spaced(squares, sum, z, n)
    requires n' == n + 1.0 && squares' == squares + z * z && sum' == sum + z
    ensures Varied(squares', sum', n')
  {
    assert (n + 1.0) * (squares + z * z) == n * squares + squares + n * (z * z) + z * z;
    assert (sum + z) * (sum + z) == sum * sum + 2.0 * z * sum + z * z;
  }

  /** n * sum(xy) - sum(x) sum(y): the numerator, and with x == y a factor of the divisor. */
  function Cov(n: real, xy: real, x: real, y: real): real {
    n * xy - x * y
  }

  ghost function Covariance(x: Column, y: Column, n: nat): real
    requires Valid(x) && Valid(y)
  {
    Cov(n as real, Dot(x, y, n), Sum(x, n), Sum(y, n))
  }

  lemma Quadratic(x: Column, y: Column, n: nat, s: real, t: real)
    requires Valid(x) && Valid(y)
    ensures Form(Covariance(x, x, n), Covariance(y, y, n), Covariance(x, y, n), s, t)
  {
    var squares, sum := ZSquares(x, y, s, t, n), ZSum(x, y, s, t, n);
    assert Linear(sum, s, t, Sum(x, n), Sum(y, n)) by {
      ZSumIs(x, y, s, t, n);
    }
    assert Expands(squares, s, t, Dot(x, x, n), Dot(x, y, n), Dot(y, y, n)) by {
      ZSquaresIs(x, y, s, t, n);
    }
    assert Varied(squares, sum, n as real) by {
      Variance(x, y, s, t, n);
    }
    QuadraticStep(n as real, s, t, Dot(x, x, n), Dot(x, y, n), Dot(y, y, n), Sum(x, n), Sum(y, n),
                  squares, sum, Covariance(x, x, n), Covariance(y, y, n), Covariance(x, y, n));
  }

  lemma QuadraticStep(n: real, s: real, t: real, xx: real, xy: real, yy: real, sx: real, sy: real, squares: real, sum: real,
                      a: real, b: real, c: real)
    requires Expands(squares, s, t, xx, xy, yy) && Linear(sum, s, t, sx, sy) && Varied(squares, sum, n)
    requires a == Cov(n, xx, sx, sx) && b == Cov(n, yy, sy, sy) && c == Cov(n, xy, sx, sy)
    ensures Form(a, b, c, s, t)
  {
    Square(s, t, sx, sy);
    var p, q, r := s * s, 2.0 * s * t, t * t;
    Scale(n, p * xx, q * xy, r * yy, squares);
    Share(p, n, xx, sx * sx, a);
    Share(q, n, xy, sx * sy, c);
    Share(r, n, yy, sy * sy, b);
    assert sum * sum == p * (sx * sx) + q * (sx * sy) + r * (sy * sy);
    assert p * a + q * c + r * b == n * squares - sum * sum;
  }

  lemma Scale(n: real, u: real, v: real, w: real, total: real)
    requires total == u + v + w
    ensures n * total == n * u + n * v + n * w
  {
  }

  lemma Share(p: real, n: real, xy: real, xsys: real, cov: real)
    requires cov == n * xy - xsys
    ensures p * cov == n * (p * xy) - p * xsys
  {
  }

  ghost predicate SquareAtMost(c: real, a: real, b: real) {
    a >= 0.0 && b >= 0.0 && c * c <= a * b
  }

  /** Cauchy-Schwarz: the squared numerator of the coefficient is at most its squared divisor. */
  lemma CoefficientAtMostOne(x: Column, y: Column, n: nat)
    requires Valid(x) && Valid(y)
    ensures SquareAtMost(Covariance(x, y, n), Covariance(x, x, n), Covariance(y, y, n))
  {
    var a, b, c := Covariance(x, x, n), Covariance(y, y, n), Covariance(x, y, n);
    Quadratic(x, y, n, 1.0, 0.0);
    Quadratic(x, y, n, 0.0, 1.0);
    Diagonal(a, b, c);
    Quadratic(x, y, n, b, -c);
    if c != 0.0 {
      Quadratic(x, y, n, 1.0, -(a + 1.0) / c);
    }
    Discriminant(a, b, c);
  }

  ghost predicate Form(a: real, b: real, c: real, s: real, t: real) {
    s * s * a + 2.0 * s * t * c + t * t * b >= 0.0
  }

  lemma Diagonal(a: real, b: real, c: real)
    requires Form(a, b, c, 1.0, 0.0) && Form(a, b, c, 0.0, 1.0)
    ensures a >= 0.0 && b >= 0.0
  {
  }

  lemma Discriminant(a: real, b: real, c: real)
    requires a >= 0.0 && b >= 0.0 && Form(a, b, c, b, -c) && (c != 0.0 ==> Form(a, b, c, 1.0, -(a + 1.0) / c))
    ensures SquareAtMost(c, a, b)
  {
    if c != 0.0 {
      FlatForm(a, c);
    }
    if b > 0.0 {
      assert b * b * a + 2.0 * b * -c * c + -c * -c * b == b * (a * b - c * c);
      Factor(b, a * b - c * c);
    }
  }

  /** Without a square in t, a cross term would make the form negative somewhere. */
  lemma FlatForm(a: real, c: real)
    requires a >= 0.0 && c != 0.0
    ensures !Form(a, 0.0, c, 1.0, -(a + 1.0) / c)
  {
    var t := -(a + 1.0) / c;
    assert t * c == -(a + 1.0);
    assert 2.0 * 1.0 * t * c == 2.0 * (t * c);
  }

  lemma Factor(b: real, d: real)
    requires b > 0.0 && b * d >= 0.0
    ensures d >= 0.0
  {
  }

  /** It does not matter which column comes first. */
  lemma {:induction false} DotSymmetric(x: Column, y: Column, n: nat)
    requires Valid(x) && Valid(y)
    ensures Dot(x, y, n) == Dot(y, x, n)
  {
    if n > 0 {
      DotSymmetric(x, y, n - 1);
    }
  }

  lemma CovarianceSymmetric(x: Column, y: Column, n: nat)
    requires Valid(x) && Valid(y)
    ensures Covariance(x, y, n) == Covariance(y, x, n)
  {
    DotSymmetric(x, y, n);
  }

  /** getcorr_pair_sparse_vmat up to its square root: the numerator, and the two factors whose
      roots are multiplied into the divisor. The coefficient is |numerator| / sqrt(xx * yy). */
  method Correlate(x: Column, y: Column, n: nat) returns (numerator: real, xx: real, yy: real)
    requires Valid(x) && Valid(y) && Below(x, n) && Below(y, n)
    ensures numerator == Covariance(x, y, n) && xx == Covariance(x, x, n) && yy == Covariance(y, y, n)
    ensures SquareAtMost(numerator, xx, yy)
  {
    var xsum, xsqsum := Sums(x, n);
    var ysum, ysqsum := Sums(y, n);
    var xysum := MergeDot(x, y, n);
    numerator := Cov(n as real, xysum, xsum, ysum);
    xx := Cov(n as real, xsqsum, xsum, xsum);
    yy := Cov(n as real, ysqsum, ysum, ysum);
    CoefficientAtMostOne(x, y, n);
  }

  // ------------------------------------------------ the coefficient itself

  type Sqrt = real -> real

  ghost predicate Root(a: real, r: real) {
    r >= 0.0 && r * r == a
  }

  /** A column the code can correlate: sorted, within `n` rows, its variance rooted and not zero, as
      the code asserts of its divisor. */
  ghost predicate Usable(x: Column, n: nat, sqrt: Sqrt) {
    && Valid(x) && Below(x, n)
    && Root(Covariance(x, x, n), sqrt(Covariance(x, x, n))) && sqrt(Covariance(x, x, n)) != 0.0
  }

  lemma VariancePositive(x: Column, n: nat, sqrt: Sqrt)
    requires Usable(x, n, sqrt)
    ensures Covariance(x, x, n) > 0.0
  {
    var r := sqrt(Covariance(x, x, n));
    assert Root(Covariance(x, x, n), r) && r != 0.0;
    RootPositive(Covariance(x, x, n), r);
  }

  lemma RootPositive(a: real, r: real)
    requires Root(a, r) && r != 0.0
    ensures a > 0.0
  {
    if a <= 0.0 {
      Smaller(0.0, r);
    }
  }

  function Abs(x: real): real {
    if x < 0.0 then -x else x
  }

  function Ratio(numerator: real, rx: real, ry: real): real
    requires rx > 0.0 && ry > 0.0
  {
    Product(rx, ry);
    Abs(numerator) / (rx * ry)
  }

  lemma Product(a: real, b: real)
    requires a > 0.0 && b > 0.0
    ensures a * b > 0.0
  {
  }

  /** The absolute correlation coefficient of two columns. */
  ghost function Coefficient(x: Column, y: Column, n: nat, sqrt: Sqrt): real
    requires Usable(x, n, sqrt) && Usable(y, n, sqrt)
  {
    Ratio(Covariance(x, y, n), sqrt(Covariance(x, x, n)), sqrt(Covariance(y, y, n)))
  }

  lemma RatioAtMostOne(c: real, a: real, b: real, rx: real, ry: real)
    requires SquareAtMost(c, a, b) && Root(a, rx) && Root(b, ry) && rx > 0.0 && ry > 0.0
    ensures 0.0 <= Ratio(c, rx, ry) <= 1.0
  {
    var d := rx * ry;
    Product(rx, ry);
    assert d * d == a * b by {
      assert (rx * ry) * (rx * ry) == (rx * rx) * (ry * ry);
    }
    assert Abs(c) * Abs(c) == c * c;
    Compare(Abs(c), d);
    Quotient(Abs(c), d);
  }

  lemma Compare(x: real, d: real)
    requires x >= 0.0 && d > 0.0 && x * x <= d * d
    ensures x <= d
  {
    if x > d {
      Smaller(d, x);
    }
  }

  lemma Quotient(x: real, d: real)
    requires 0.0 <= x <= d && d > 0.0
    ensures 0.0 <= x / d <= 1.0
  {
  }

  /** `r` is the absolute correlation of `n` pairs with these sums, said without roots and division. */
  ghost predicate CorrelationIs(r: real, n: real, xx: real, xy: real, yy: real, sx: real, sy: real) {
    r >= 0.0 && (r * r) * ((n * xx - sx * sx) * (n * yy - sy * sy)) == (n * xy - sx * sy) * (n * xy - sx * sy)
  }

  lemma RatioIs(c: real, a: real, b: real, rx: real, ry: real)
    requires Root(a, rx) && Root(b, ry) && rx > 0.0 && ry > 0.0
    ensures var r := Ratio(c, rx, ry); r >= 0.0 && (r * r) * (a * b) == c * c
  {
    var d, r := rx * ry, Ratio(c, rx, ry);
    Product(rx, ry);
    NotNegative(Abs(c), d);
    assert r * d == Abs(c);
    assert d * d == a * b by {
      assert (rx * ry) * (rx * ry) == (rx * rx) * (ry * ry);
    }
    assert (r * r) * (d * d) == (r * d) * (r * d);
  }

  lemma NotNegative(x: real, d: real)
    requires x >= 0.0 && d > 0.0
    ensures x / d >= 0.0
  {
  }

  lemma CorrelationFrom(r: real, n: real, xx: real, xy: real, yy: real, sx: real, sy: real)
    requires r >= 0.0 && (r * r) * (Cov(n, xx, sx, sx) * Cov(n, yy, sy, sy)) == Cov(n, xy, sx, sy) * Cov(n, xy, sx, sy)
    ensures CorrelationIs(r, n, xx, xy, yy, sx, sy)
  {
  }

  /** The coefficient is the absolute correlation of the dense columns; it lies between zero and one
      and does not depend on the order of the columns. */
  lemma CoefficientOk(x: Column, y: Column, n: nat, sqrt: Sqrt)
    requires Usable(x, n, sqrt) && Usable(y, n, sqrt)
    ensures CorrelationIs(Coefficient(x, y, n, sqrt), n as real, Dot(x, x, n), Dot(x, y, n), Dot(y, y, n), Sum(x, n), Sum(y, n))
    ensures 0.0 <= Coefficient(x, y, n, sqrt) <= 1.0 && Coefficient(x, y, n, sqrt) == Coefficient(y, x, n, sqrt)
  {
    CoefficientAtMostOne(x, y, n);
    CovarianceSymmetric(x, y, n);
    var rx, ry := sqrt(Covariance(x, x, n)), sqrt(Covariance(y, y, n));
    RatioAtMostOne(Covariance(x, y, n), Covariance(x, x, n), Covariance(y, y, n), rx, ry);
    RatioIs(Covariance(x, y, n), Covariance(x, x, n), Covariance(y, y, n), rx, ry);
    CorrelationFrom(Coefficient(x, y, n, sqrt), n as real, Dot(x, x, n), Dot(x, y, n), Dot(y, y, n), Sum(x, n), Sum(y, n));
    assert rx * ry == ry * rx;
  }

  /** The squared covariance reaches the square of a positive threshold times both variances. */
  ghost predicate Reaches(threshold: real, n: real, xx: real, xy: real, yy: real, sx: real, sy: real) {
    threshold <= 0.0 ||
    (n * xy - sx * sy) * (n * xy - sx * sy) >= (threshold * threshold) * ((n * xx - sx * sx) * (n * yy - sy * sy))
  }

  lemma ReachesIff(r: real, threshold: real, n: real, xx: real, xy: real, yy: real, sx: real, sy: real)
    requires CorrelationIs(r, n, xx, xy, yy, sx, sy) && Cov(n, xx, sx, sx) > 0.0 && Cov(n, yy, sy, sy) > 0.0
    ensures r >= threshold <==> Reaches(threshold, n, xx, xy, yy, sx, sy)
  {
    Product(Cov(n, xx, sx, sx), Cov(n, yy, sy, sy));
    var ab := (n * xx - sx * sx) * (n * yy - sy * sy);
    if threshold > 0.0 {
      if r >= threshold {
        Squares(threshold, r);
        Scales(threshold * threshold, r * r, ab);
      } else {
        Smaller(r, threshold);
        ScalesLess(r * r, threshold * threshold, ab);
      }
    }
  }

  lemma Squares(x: real, y: real)
    requires 0.0 <= x <= y
    ensures x * x <= y * y
  {
    if x < y {
      Smaller(x, y);
    }
  }

  lemma Smaller(x: real, y: real)
    requires 0.0 <= x < y
    ensures x * x < y * y
  {
    assert y * y - x * x == (y - x) * (y + x);
    Product(y - x, y + x);
  }

  lemma Scales(x: real, y: real, d: real)
    requires x <= y && d > 0.0
    ensures x * d <= y * d
  {
  }

  lemma ScalesLess(x: real, y: real, d: real)
    requires x < y && d > 0.0
    ensures x * d < y * d
  {
  }

  /** getcorr_pair_sparse_vmat; `sqrt` is the square root, which is all that is asked of it. */
  method GetCorrelation(x: Column, y: Column, n: nat, sqrt: Sqrt) returns (coefficient: real)
    requires Usable(x, n, sqrt) && Usable(y, n, sqrt)
    ensures coefficient == Coefficient(x, y, n, sqrt) && 0.0 <= coefficient <= 1.0
    ensures CorrelationIs(coefficient, n as real, Dot(x, x, n), Dot(x, y, n), Dot(y, y, n), Sum(x, n), Sum(y, n))
  {
    CoefficientOk(x, y, n, sqrt);
    var numerator, xx, yy := Correlate(x, y, n);
    coefficient := Ratio(numerator, sqrt(xx), sqrt(yy));
  }
}
