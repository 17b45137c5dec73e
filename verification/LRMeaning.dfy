/** What the logistic-regression gradient computes: linear predictions, residuals against the labels, and
    a regularization term. */
module LRMeaning {
  import opened LRGradients
  import opened Repeats
  import opened SparseDatasets

  ghost predicate Within(row: Row, n: nat) {
    forall j | 0 <= j < |row| :: 0 <= row[j].0 < n
  }

  lemma WithinFront(row: Row, n: nat)
    requires Within(row, n) && row != []
    ensures Within(row[..|row| - 1], n)
  {
  }

  /** Raising one weight raises the dot product by the row's sum at its index. */
  lemma {:induction false} DotRaise(row: Row, w: seq<real>, k: nat, t: real)
    requires Within(row, |w|) && k < |w|
    ensures DotRow(row, w[k := w[k] + t]) == DotRow(row, w) + t * SumAt(row, k)
  {
    if row != [] {
      var n := |row| - 1;
      var last := row[n];
      WithinFront(row, |w|);
      DotRaise(row[..n], w, k, t);
      var front := SumAt(row[..n], k);
      if last.0 == k {
        assert t * (front + last.1) == t * front + last.1 * t;
        assert last.1 * (w[k] + t) == last.1 * w[k] + last.1 * t;
      }
    }
  }

  lemma {:induction false} DotOfZeros(row: Row, n: nat)
    requires Within(row, n)
    ensures DotRow(row, Zeros(n)) == 0.0
  {
    if row != [] {
      WithinFront(row, n);
      DotOfZeros(row[..|row| - 1], n);
    }
  }

  /** The dot product with the k-th unit vector is the row's sum at k. */
  lemma DotOfUnit(row: Row, n: nat, k: nat)
    requires Within(row, n) && k < n
    ensures DotRow(row, Zeros(n)[k := 1.0]) == SumAt(row, k)
  {
    DotOfZeros(row, n);
    DotRaise(row, Zeros(n), k, 1.0);
    hide DotRow, SumAt;
  }

  /** The contributions of a row to an index: the row's sum there, times the residual. */
  lemma {:induction false} RowTermsSum(row: Row, residual: real, k: int)
    ensures SumAt(RowTerms(row, residual), k) == Weighted(SumAt(row, k), residual)
  {
    Distributes(0.0, 0.0, residual);
    if row != [] {
      var n := |row| - 1;
      var term := (row[n].0, Weighted(row[n].1, residual));
      assert RowTerms(row, residual) == RowTerms(row[..n], residual) + [term];
      hide *;
      RowTermsSum(row[..n], residual, k);
      SumAtSnoc(RowTerms(row[..n], residual), term, k);
      SumAtSnoc(row[..n], row[n], k);
      assert row == row[..n] + [row[n]];
      if row[n].0 == k {
        Distributes(SumAt(row[..n], k), row[n].1, residual);
      } else {
        assert SumAt(row, k) == SumAt(row[..n], k);
      }
    }
  }

  lemma Distributes(x: real, y: real, r: real)
    ensures Weighted(x + y, r) == Weighted(x, r) + Weighted(y, r) && Weighted(0.0, r) == 0.0
  {
  }

  lemma {:induction false} SumAppend(a: seq<(int, real)>, b: seq<(int, real)>, k: int)
    ensures SumAt(a + b, k) == SumAt(a, k) + SumAt(b, k)
  {
    if b == [] {
      assert a + b == a;
    } else {
      var n := |b| - 1;
      SumAppend(a, b[..n], k);
      SumAtSnoc(a + b[..n], b[n], k);
      SumAtSnoc(b[..n], b[n], k);
      assert a + b == (a + b[..n]) + [b[n]] && b == b[..n] + [b[n]];
    }
  }

  /** What a sample holds at an index, times how far its label y is above its prediction p. */
  function Share(held: real, y: real, p: real): real {
    held * (y - p)
  }

  lemma ShareIs(held: real, y: real, p: real)
    ensures Weighted(held, y - p) == Share(held, y, p)
  {
  }

  lemma SampleTermIs(row: Row, y: real, p: real, k: int)
    ensures SumAt(RowTerms(row, y - p), k) == Share(SumAt(row, k), y, p)
  {
    hide *;
    RowTermsSum(row, y - p, k);
    ShareIs(SumAt(row, k), y, p);
  }

  /** The data term, over the first i samples. */
  ghost function DataTerm(d: Dataset, i: nat, w: seq<real>, sigma: real -> real, k: int): real
    requires Indexed(d, |w|) && i <= |d.rows|
  {
    if i == 0 then 0.0
    else
      var row, y := d.rows[i - 1], d.labels[i - 1];
      DataTerm(d, i - 1, w, sigma, k) + Share(SumAt(row, k), y, sigma(DotRow(row, w)))
  }

  lemma {:induction false} TermsSum(d: Dataset, i: nat, w: seq<real>, sigma: real -> real, k: int)
    requires Indexed(d, |w|) && i <= |d.rows|
    ensures SumAt(Terms(d, i, w, sigma), k) == DataTerm(d, i, w, sigma, k)
  {
    if i > 0 {
      var row, y, p := d.rows[i - 1], d.labels[i - 1], sigma(DotRow(d.rows[i - 1], w));
      assert Terms(d, i, w, sigma) == Terms(d, i - 1, w, sigma) + RowTerms(row, y - p);
      assert DataTerm(d, i, w, sigma, k) == DataTerm(d, i - 1, w, sigma, k) + Share(SumAt(row, k), y, p);
      hide *;
      TermsSum(d, i - 1, w, sigma, k);
      SumAppend(Terms(d, i - 1, w, sigma), RowTerms(row, y - p), k);
      SampleTermIs(row, y, p, k);
    }
  }

  /** The gradient at an index is the data term and twice epsilon times the weight. */
  lemma GradientIs(d: Dataset, w: seq<real>, sigma: real -> real, epsilon: real, k: int)
    requires Indexed(d, |w|) && 0 <= k < |w|
    ensures SumAt(All(d, w, sigma), k) == DataTerm(d, |d.rows|, w, sigma, k)
    ensures GradAt(d, w, sigma, epsilon, k) == DataTerm(d, |d.rows|, w, sigma, k) + 2.0 * epsilon * w[k]
  {
    TermsSum(d, |d.rows|, w, sigma, k);
    hide SumAt, Terms, DataTerm;
    assert w[k] * 2.0 * epsilon == 2.0 * epsilon * w[k];
  }

  /** Raising the label of one sample raises the gradient at every index by as much, times what the sample
      holds there. */
  lemma {:induction false} LabelRaises(d: Dataset, n: nat, i: nat, t: real, w: seq<real>, sigma: real -> real, k: int)
    requires Indexed(d, |w|) && i < |d.rows| && n <= |d.rows|
    ensures var more := d.(labels := d.labels[i := d.labels[i] + t]);
      && Indexed(more, |w|)
      && DataTerm(more, n, w, sigma, k) == DataTerm(d, n, w, sigma, k) + if i < n then t * SumAt(d.rows[i], k) else 0.0
  {
    if n > 0 {
      var more := d.(labels := d.labels[i := d.labels[i] + t]);
      var row, p := d.rows[n - 1], sigma(DotRow(d.rows[n - 1], w));
      assert DataTerm(more, n, w, sigma, k) ==
             DataTerm(more, n - 1, w, sigma, k) + Share(SumAt(row, k), more.labels[n - 1], p);
      assert DataTerm(d, n, w, sigma, k) == DataTerm(d, n - 1, w, sigma, k) + Share(SumAt(row, k), d.labels[n - 1], p);
      hide DataTerm, SumAt, DotRow, Share;
      LabelRaises(d, n - 1, i, t, w, sigma, k);
      RaisedShare(SumAt(row, k), d.labels[n - 1], p, t);
    }
  }

  lemma RaisedShare(x: real, y: real, p: real, t: real)
    ensures Share(x, y + t, p) == Share(x, y, p) + t * x
  {
  }

  /** Where every prediction is its label nothing is left but the regularization. */
  lemma {:induction false} PerfectFit(d: Dataset, n: nat, w: seq<real>, sigma: real -> real, k: int)
    requires Indexed(d, |w|) && n <= |d.rows|
    requires forall i | 0 <= i < |d.rows| :: sigma(DotRow(d.rows[i], w)) == d.labels[i]
    ensures DataTerm(d, n, w, sigma, k) == 0.0
  {
    if n > 0 {
      PerfectFit(d, n - 1, w, sigma, k);
    }
  }

  /** Where every prediction is its label, the gradient has the weight's sign, so that adding it moves the
      weight away from zero. */
  lemma RegularizationGrows(d: Dataset, w: seq<real>, sigma: real -> real, epsilon: real, k: int)
    requires Indexed(d, |w|) && 0 <= k < |w| && epsilon > 0.0
    requires forall i | 0 <= i < |d.rows| :: sigma(DotRow(d.rows[i], w)) == d.labels[i]
    ensures var g := GradAt(d, w, sigma, epsilon, k); (w[k] > 0.0 ==> g > 0.0) && (w[k] < 0.0 ==> g < 0.0)
  {
    hide *;
    GradientIs(d, w, sigma, epsilon, k);
    PerfectFit(d, |d.rows|, w, sigma, k);
    SignOfRegularization(epsilon, w[k]);
  }

  lemma SignOfRegularization(epsilon: real, x: real)
    requires epsilon > 0.0
    ensures (x > 0.0 ==> 2.0 * epsilon * x > 0.0) && (x < 0.0 ==> 2.0 * epsilon * x < 0.0)
  {
  }

  /** The sparse gradient's threshold: the size of an entry decides, and an entry as large is dropped. */
  lemma PassesIff(cut: Cut, x: real)
    ensures !cut.used ==> Passes(cut, x)
    ensures cut.used && cut.threshold >= 0.0 ==> (Passes(cut, x) <==> x > cut.threshold || x < -cut.threshold)
  {
  }
}
