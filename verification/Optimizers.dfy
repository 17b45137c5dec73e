/** The server's update rules for logistic regression, on streams of gradients that arrive in any order. */
module Optimizers {
  import opened Repeats
  import opened Sets

  type Term = (int, real)

  function Product(a: real, b: real): real {
    a * b
  }

  /** Products are kept folded in the proofs below. */
  lemma ProductIs(a: real, b: real)
    ensures Product(a, b) == a * b
  {
  }

  /** What an entry of value v adds to a weight under SGD, and to the history under AdaGrad. */
  function Scale(rate: real): real -> real {
    v => rate * v
  }

  function Squared(): real -> real {
    v => v * v
  }

  ghost predicate Named(terms: seq<Term>, n: nat) {
    forall i | 0 <= i < |terms| :: 0 <= terms[i].0 < n
  }

  /** The sum of f over the values at index k. */
  ghost function SumBy(terms: seq<Term>, k: int, f: real -> real): real {
    if terms == [] then 0.0 else
      var last := terms[|terms| - 1];
      SumBy(terms[..|terms| - 1], k, f) + if last.0 == k then f(last.1) else 0.0
  }

  /** How many entries name index k. */
  ghost function Count(terms: seq<Term>, k: int): nat {
    if terms == [] then 0 else Count(terms[..|terms| - 1], k) + if terms[|terms| - 1].0 == k then 1 else 0
  }

  /** No entry is counted exactly where none names the index. */
  lemma {:induction false} CountIsZero(terms: seq<Term>, k: int)
    ensures Count(terms, k) == 0 <==> forall i | 0 <= i < |terms| :: terms[i].0 != k
  {
    if terms != [] {
      var n := |terms| - 1;
      CountIsZero(terms[..n], k);
      assert forall i | 0 <= i < n :: terms[..n][i] == terms[i];
    }
  }

  /** What n moves can add up to, each shorter than the rate. */
  ghost predicate Within(move: real, n: nat, rate: real) {
    if n == 0 then move == 0.0 else -Product(n as real, rate) < move < Product(n as real, rate)
  }

  /** All entries of a stream of gradients, in arrival order. */
  ghost function Flatten(stream: seq<seq<Term>>): seq<Term> {
    if stream == [] then [] else Flatten(stream[..|stream| - 1]) + stream[|stream| - 1]
  }

  lemma SumBySnoc(terms: seq<Term>, e: Term, k: int, f: real -> real)
    ensures SumBy(terms + [e], k, f) == SumBy(terms, k, f) + if e.0 == k then f(e.1) else 0.0
  {
    assert (terms + [e])[..|terms|] == terms;
  }

  lemma {:induction false} SumByAppend(a: seq<Term>, b: seq<Term>, k: int, f: real -> real)
    ensures SumBy(a + b, k, f) == SumBy(a, k, f) + SumBy(b, k, f)
  {
    if b == [] {
      assert a + b == a;
    } else {
      var n := |b| - 1;
      SumByAppend(a, b[..n], k, f);
      SumBySnoc(a + b[..n], b[n], k, f);
      assert a + b == (a + b[..n]) + [b[n]];
    }
  }

  /** Sums per index do not depend on the order of the entries. */
  lemma {:induction false} OrderIsIrrelevant(a: seq<Term>, b: seq<Term>, k: int, f: real -> real)
    requires multiset(a) == multiset(b)
    ensures SumBy(a, k, f) == SumBy(b, k, f)
    decreases |a|
  {
    assert |multiset(a)| == |a| && |multiset(b)| == |b|;
    if a != [] {
      var n := |a| - 1;
      var x := a[n];
      assert x in multiset(b);
      var i :| 0 <= i < |b| && b[i] == x;
      var rest := b[..i] + b[i + 1..];
      assert a == a[..n] + [x] && b == b[..i] + [x] + b[i + 1..];
      assert multiset(a) == multiset(a[..n]) + multiset{x};
      assert multiset(b) == multiset(rest) + multiset{x};
      SameRest(multiset(a[..n]), multiset(rest), x);
      OrderIsIrrelevant(a[..n], rest, k, f);
      SumByAppend(b[..i], b[i + 1..], k, f);
      SumByAppend(b[..i] + [x], b[i + 1..], k, f);
      SumBySnoc(b[..i], x, k, f);
    }
  }

  ghost predicate NoNegative(s: seq<real>) {
    forall k | 0 <= k < |s| :: s[k] >= 0.0
  }

  lemma NoNegativeAt(s: seq<real>, k: int)
    requires NoNegative(s) && 0 <= k < |s|
    ensures s[k] >= 0.0
  {
  }

  ghost predicate IsRoot(root: real -> real) {
    forall x: real | x >= 0.0 :: root(x) >= 0.0 && root(x) * root(x) == x
  }

  lemma SquareNonNegative(v: real)
    ensures Product(v, v) >= 0.0
  {
  }

  lemma SquareGrows(a: real, b: real)
    requires 0.0 <= b < a
    ensures b * b < a * a
  {
    var d, t := a - b, a + b;
    assert d * t > 0.0;
    assert a * a - b * b == d * t;
  }

  lemma RootDominates(v: real, r: real, extra: real)
    requires r >= 0.0 && extra >= 0.0 && r * r == extra + v * v
    ensures -r <= v <= r
  {
    if v > r {
      SquareGrows(v, r);
    }
    if v < -r {
      SquareGrows(-v, r);
    }
  }

  lemma QuotientBound(v: real, d: real, rate: real)
    requires d > 0.0 && -d < v < d && rate > 0.0
    ensures -rate < rate * v / d < rate
  {
    var q := v / d;
    assert q * d == v;
    assert -1.0 < q < 1.0;
    assert rate * v / d == rate * q;
  }

  /** One AdaGrad move, along the value and always shorter than the learning rate. */
  function AdaMove(value: real, hist: real, rate: real, epsilon: real, root: real -> real): (move: real)
    requires rate > 0.0 && epsilon > 0.0 && IsRoot(root) && hist >= Product(value, value)
    ensures move * (epsilon + root(hist)) == rate * value
    ensures -rate < move < rate
  {
    SquareNonNegative(value);
    RootDominates(value, root(hist), hist - value * value);
    QuotientBound(value, epsilon + root(hist), rate);
    QuotientIs(rate * value, epsilon + root(hist));
    rate * value / (epsilon + root(hist))
  }

  lemma QuotientIs(x: real, d: real)
    requires d != 0.0
    ensures x / d * d == x
  {
  }

  /** The root is at hand for what is in the history. */
  function Damped(value: real, hist: real, rate: real, epsilon: real, root: real -> real): real {
    var d := epsilon + root(hist);
    if d == 0.0 then 0.0 else rate * value / d
  }

  /** What the entries that name k add to its weight, in order: each the rate times its value, over epsilon
      plus the root of the history summed up to and with it. */
  ghost function AdaSum(entries: seq<Term>, k: int, h0: real, rate: real, epsilon: real, root: real -> real): real {
    if entries == [] then 0.0 else
      var n := |entries| - 1;
      AdaSum(entries[..n], k, h0, rate, epsilon, root) +
      if entries[n].0 == k then Damped(entries[n].1, h0 + SumBy(entries, k, Squared()), rate, epsilon, root) else 0.0
  }

  lemma AdaSumSnoc(entries: seq<Term>, e: Term, k: int, h0: real, rate: real, epsilon: real, root: real -> real)
    ensures AdaSum(entries + [e], k, h0, rate, epsilon, root) == AdaSum(entries, k, h0, rate, epsilon, root) +
      if e.0 == k then Damped(e.1, h0 + SumBy(entries + [e], k, Squared()), rate, epsilon, root) else 0.0
  {
    assert (entries + [e])[..|entries|] == entries;
  }

  /** The rate, epsilon and root of the optimizer. */
  datatype Ada = Ada(rate: real, epsilon: real, root: real -> real)

  /** After the entries: the history is the start plus the squares, and the weights moved by the sum of the
      damped entries that name them, which is less than the learning rate for each. */
  ghost predicate AdaAfter(w: seq<real>, h: seq<real>, w0: seq<real>, h0: seq<real>, entries: seq<Term>, a: Ada) {
    && |w| == |h| == |w0| == |h0| && NoNegative(h)
    && (forall k | 0 <= k < |w| :: w[k] == w0[k] + AdaSum(entries, k, h0[k], a.rate, a.epsilon, a.root))
    && (forall k | 0 <= k < |h| :: h[k] == h0[k] + SumBy(entries, k, Squared()))
    && (forall k | 0 <= k < |w| :: Within(w[k] - w0[k], Count(entries, k), a.rate))
  }

  /** After the entries every weight moved by the sum of its scaled values. */
  ghost predicate SgdAfter(w: seq<real>, w0: seq<real>, entries: seq<Term>, rate: real) {
    && |w| == |w0|
    && forall k | 0 <= k < |w| :: w[k] == w0[k] + SumBy(entries, k, Scale(rate))
  }

  lemma SgdNext(w: seq<real>, w0: seq<real>, entries: seq<Term>, rate: real, e: Term)
    requires SgdAfter(w, w0, entries, rate) && 0 <= e.0 < |w|
    ensures SgdAfter(w[e.0 := w[e.0] + Product(rate, e.1)], w0, entries + [e], rate)
  {
    ProductIs(rate, e.1);
    hide SumBy, Product;
    forall k ensures SumBy(entries + [e], k, Scale(rate)) ==
                     SumBy(entries, k, Scale(rate)) + if e.0 == k then Product(rate, e.1) else 0.0
    {
      SumBySnoc(entries, e, k, Scale(rate));
    }
  }

  lemma CountSnoc(entries: seq<Term>, e: Term, k: int)
    ensures Count(entries + [e], k) == Count(entries, k) + if e.0 == k then 1 else 0
  {
    assert (entries + [e])[..|entries|] == entries;
  }

  lemma WithinNext(before: real, n: nat, rate: real, move: real)
    requires Within(before, n, rate) && -rate < move < rate
    ensures Within(before + move, n + 1, rate)
  {
    assert Product((n + 1) as real, rate) == Product(n as real, rate) + rate;
  }

  lemma AdaNext(w: seq<real>, h: seq<real>, w0: seq<real>, h0: seq<real>, entries: seq<Term>, a: Ada,
                e: Term, move: real)
    requires AdaAfter(w, h, w0, h0, entries, a) && 0 <= e.0 < |w| && -a.rate < move < a.rate
    requires move == Damped(e.1, h[e.0] + Product(e.1, e.1), a.rate, a.epsilon, a.root)
    ensures AdaAfter(w[e.0 := w[e.0] + move], h[e.0 := h[e.0] + Product(e.1, e.1)], w0, h0, entries + [e], a)
  {
    SquareNonNegative(e.1);
    ProductIs(e.1, e.1);
    hide SumBy, Product, Count, Within, AdaSum, Damped;
    forall k
      ensures SumBy(entries + [e], k, Squared()) ==
              SumBy(entries, k, Squared()) + if e.0 == k then Product(e.1, e.1) else 0.0
      ensures Count(entries + [e], k) == Count(entries, k) + if e.0 == k then 1 else 0
    {
      SumBySnoc(entries, e, k, Squared());
      CountSnoc(entries, e, k);
    }
    forall k | 0 <= k < |w|
      ensures AdaSum(entries + [e], k, h0[k], a.rate, a.epsilon, a.root) ==
              AdaSum(entries, k, h0[k], a.rate, a.epsilon, a.root) + if e.0 == k then move else 0.0
    {
      AdaSumSnoc(entries, e, k, h0[k], a.rate, a.epsilon, a.root);
    }
    WithinNext(w[e.0] - w0[e.0], Count(entries, e.0), a.rate, move);
    assert w[e.0] - w0[e.0] + move == w[e.0] + move - w0[e.0];
  }

  /** The weights and the history that the server keeps under its model lock. */
  class LRWeights {
    var weights: seq<real>
    var weightsHist: seq<real>

    constructor (w: seq<real>)
      ensures weights == w && weightsHist == Zeros(|w|)
    {
      weights, weightsHist := w, Zeros(|w|);
    }

    /** SGD::sgd_update */
    method Sgd(g: seq<Term>, rate: real, ghost w0: seq<real>, ghost before: seq<Term>)
      requires Named(g, |weights|) && SgdAfter(weights, w0, before, rate)
      modifies `weights
      ensures |weights| == |old(weights)| && SgdAfter(weights, w0, before + g, rate)
    {
      hide SgdAfter, Product;
      assert before + g[..0] == before;
      for i := 0 to |g|
        invariant |weights| == |old(weights)| && SgdAfter(weights, w0, before + g[..i], rate)
      {
        SgdNext(weights, w0, before + g[..i], rate, g[i]);
        assert before + g[..i + 1] == (before + g[..i]) + [g[i]];
        weights := weights[g[i].0 := weights[g[i].0] + Product(rate, g[i].1)];
      }
      assert g[..|g|] == g;
    }

    /** process_send_lr_gradient for each message of a stream, one at a time under the model lock: the
        final weights are those that any other order of the same entries gives. */
    method SgdStream(stream: seq<seq<Term>>, rate: real)
      requires forall m | 0 <= m < |stream| :: Named(stream[m], |weights|)
      modifies `weights
      ensures |weights| == |old(weights)|
      ensures forall k, other | 0 <= k < |weights| && multiset(other) == multiset(Flatten(stream)) ::
                weights[k] == old(weights)[k] + SumBy(other, k, Scale(rate))
    {
      for m := 0 to |stream|
        invariant |weights| == |old(weights)|
        invariant SgdAfter(weights, old(weights), Flatten(stream[..m]), rate)
      {
        hide SgdAfter;
        assert stream[..m + 1][..m] == stream[..m];
        Sgd(stream[m], rate, old(weights), Flatten(stream[..m]));
      }
      assert stream[..|stream|] == stream;
      forall k, other | 0 <= k < |weights| && multiset(other) == multiset(Flatten(stream))
        ensures weights[k] == old(weights)[k] + SumBy(other, k, Scale(rate))
      {
        OrderIsIrrelevant(other, Flatten(stream), k, Scale(rate));
      }
    }

    /** AdaGrad::sgd_update, with the square root as a parameter. */
    method AdaGrad(g: seq<Term>, a: Ada, ghost w0: seq<real>, ghost h0: seq<real>, ghost before: seq<Term>)
      requires Named(g, |weights|) && a.rate > 0.0 && a.epsilon > 0.0 && IsRoot(a.root)
      requires AdaAfter(weights, weightsHist, w0, h0, before, a)
      modifies `weights, `weightsHist
      ensures |weights| == |old(weights)| && AdaAfter(weights, weightsHist, w0, h0, before + g, a)
    {
      assert before + g[..0] == before;
      hide IsRoot, AdaMove, Product, NoNegative, SumBy, Count, Within, AdaSum, Damped;
      for i := 0 to |g|
        invariant |weights| == |old(weights)|
        invariant AdaAfter(weights, weightsHist, w0, h0, before + g[..i], a)
      {
        var index, value := g[i].0, g[i].1;
        NoNegativeAt(weightsHist, index);
        var hist := weightsHist[index] + Product(value, value);
        var move := AdaMove(value, hist, a.rate, a.epsilon, a.root);
        MoveIsDamped(value, hist, a);
        AdaNext(weights, weightsHist, w0, h0, before + g[..i], a, g[i], move);
        assert before + g[..i + 1] == (before + g[..i]) + [g[i]];
        weightsHist := weightsHist[index := hist];
        weights := weights[index := weights[index] + move];
      }
      assert g[..|g|] == g;
    }

    /** A stream of messages under AdaGrad: the history is the sum of squares in any order, and each
        weight moved by its damped entries in the order of arrival, less than the learning rate each. */
    method AdaGradStream(stream: seq<seq<Term>>, a: Ada)
      requires forall m | 0 <= m < |stream| :: Named(stream[m], |weights|)
      requires |weights| == |weightsHist| && NoNegative(weightsHist)
      requires a.rate > 0.0 && a.epsilon > 0.0 && IsRoot(a.root)
      modifies `weights, `weightsHist
      ensures AdaAfter(weights, weightsHist, old(weights), old(weightsHist), Flatten(stream), a)
      ensures forall k, other | 0 <= k < |weightsHist| && multiset(other) == multiset(Flatten(stream)) ::
                weightsHist[k] == old(weightsHist)[k] + SumBy(other, k, Squared())
    {
      for m := 0 to |stream|
        invariant |weights| == |old(weights)|
        invariant AdaAfter(weights, weightsHist, old(weights), old(weightsHist), Flatten(stream[..m]), a)
      {
        hide AdaAfter, IsRoot;
        assert stream[..m + 1][..m] == stream[..m];
        AdaGrad(stream[m], a, old(weights), old(weightsHist), Flatten(stream[..m]));
      }
      assert stream[..|stream|] == stream;
      forall k, other | 0 <= k < |weightsHist| && multiset(other) == multiset(Flatten(stream))
        ensures weightsHist[k] == old(weightsHist)[k] + SumBy(other, k, Squared())
      {
        OrderIsIrrelevant(other, Flatten(stream), k, Squared());
      }
    }
  }

  /** A move is the damped value, since the divisor is positive. */
  lemma MoveIsDamped(value: real, hist: real, a: Ada)
    requires a.rate > 0.0 && a.epsilon > 0.0 && IsRoot(a.root) && hist >= Product(value, value)
    ensures AdaMove(value, hist, a.rate, a.epsilon, a.root) == Damped(value, hist, a.rate, a.epsilon, a.root)
  {
    SquareNonNegative(value);
    hide Product;
    assert a.root(hist) >= 0.0;
  }

  /** A move has its value's sign. */
  lemma MoveIsAlong(value: real, hist: real, a: Ada)
    requires a.rate > 0.0 && a.epsilon > 0.0 && IsRoot(a.root) && hist >= Product(value, value)
    ensures var move := AdaMove(value, hist, a.rate, a.epsilon, a.root);
      (value > 0.0 <==> move > 0.0) && (value < 0.0 <==> move < 0.0)
  {
    var move := AdaMove(value, hist, a.rate, a.epsilon, a.root);
    SquareNonNegative(value);
    hide Product;
    SameSign(move, a.epsilon + a.root(hist), a.rate, value);
  }

  lemma SameSign(move: real, d: real, rate: real, value: real)
    requires d > 0.0 && rate > 0.0 && move * d == rate * value
    ensures (value > 0.0 <==> move > 0.0) && (value < 0.0 <==> move < 0.0)
  {
    assert value > 0.0 ==> rate * value > 0.0;
    assert value < 0.0 ==> rate * value < 0.0;
    assert move > 0.0 ==> move * d > 0.0;
    assert move < 0.0 ==> move * d < 0.0;
  }
}
