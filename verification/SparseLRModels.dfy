/** The logistic-regression worker's model: a stale weight cache and scratch vectors that survive
    from one minibatch to the next. */
module SparseLRModels {
  import opened LRGradients
  import opened Repeats
  import opened Sets
  import opened SparseDatasets
  import opened Words

  const MAX_MSG_SIZE := 1024 * 1024

  /** A request fits the message buffer up to exactly 262,143 indices. */
  lemma RequestFits(indices: nat)
    ensures WORD_BYTES * (1 + indices) <= MAX_MSG_SIZE <==> indices <= 262_143
  {
  }

  ghost predicate AllZero(s: seq<real>) {
    forall k | 0 <= k < |s| :: s[k] == 0.0
  }

  /** What the second pass leaves behind: sums per index, and the indices in the order met. */
  ghost predicate Accumulated(sums: seq<real>, indices: seq<int>, terms: seq<(int, real)>) {
    && |indices| == |terms|
    && (forall i | 0 <= i < |terms| :: indices[i] == terms[i].0)
    && (forall k | 0 <= k < |sums| :: sums[k] == SumAt(terms, k))
  }

  /** The third pass after the indices `seen`: their sums have become entries, and their cells zero. */
  ghost predicate Collected(res: seq<(int, real)>, left: seq<real>, seen: seq<int>,
                            sums: seq<real>, w: seq<real>, epsilon: real, cut: Cut)
    requires |sums| == |w|
  {
    && |left| == |sums|
    && (forall k | 0 <= k < |sums| :: left[k] == if k in seen then 0.0 else sums[k])
    && (forall i, j | 0 <= i < j < |res| :: res[i].0 != res[j].0)
    && (forall i | 0 <= i < |res| ::
          0 <= res[i].0 < |w| && res[i].1 == Regularize(sums[res[i].0], w[res[i].0], epsilon))
    && (forall k | 0 <= k < |w| ::
          (Names(res, k) <==> k in seen && sums[k] != 0.0 && Passes(cut, Regularize(sums[k], w[k], epsilon))))
  }

  lemma NamesSnoc(res: seq<(int, real)>, e: (int, real), k: int)
    ensures Names(res + [e], k) <==> Names(res, k) || k == e.0
  {
    if Names(res, k) {
      var i :| 0 <= i < |res| && res[i].0 == k;
      assert (res + [e])[i].0 == k;
    }
    assert (res + [e])[|res|] == e;
  }

  lemma EntryNamed(res: seq<(int, real)>, i: nat)
    requires i < |res|
    ensures Names(res, res[i].0)
  {
  }

  lemma NothingNamed(k: int)
    ensures !Names([], k)
  {
  }

  /** One step of the third pass, as minibatch_grad_sparse takes it. */
  method CollectOne(res: seq<(int, real)>, left: seq<real>, k: int, ghost seen: seq<int>,
                    ghost sums: seq<real>, w: seq<real>, epsilon: real, cut: Cut)
    returns (res': seq<(int, real)>, left': seq<real>)
    requires |sums| == |w| && 0 <= k < |w|
    requires Collected(res, left, seen, sums, w, epsilon, cut)
    ensures Collected(res', left', seen + [k], sums, w, epsilon, cut)
  {
    hide Names, Passes, Regularize;
    res', left' := res, left;
    var value := left[k];
    if value == 0.0 {
      return;
    }
    left' := left[k := 0.0];
    var grad := Regularize(value, w[k], epsilon);
    assert !Names(res, k);
    forall i | 0 <= i < |res| ensures res[i].0 != k {
      EntryNamed(res, i);
    }
    if Passes(cut, grad) {
      res' := res + [(k, grad)];
      forall j ensures Names(res', j) <==> Names(res, j) || j == k {
        NamesSnoc(res, (k, grad), j);
      }
    }
  }

  method Collect(indices: seq<int>, sums: seq<real>, w: seq<real>, epsilon: real, cut: Cut)
    returns (res: seq<(int, real)>, left: seq<real>)
    requires |sums| == |w|
    requires forall i | 0 <= i < |indices| :: 0 <= indices[i] < |w|
    ensures Collected(res, left, indices, sums, w, epsilon, cut)
  {
    res, left := [], sums;
    var i := 0;
    while i < |indices|
      invariant 0 <= i <= |indices|
      invariant Collected(res, left, indices[..i], sums, w, epsilon, cut)
    {
      hide *;
      res, left := CollectOne(res, left, indices[i], indices[..i], sums, w, epsilon, cut);
      assert indices[..i + 1] == indices[..i] + [indices[i]];
      i := i + 1;
    }
    assert indices[..i] == indices;
  }

  lemma {:induction false} UnnamedInRest(terms: seq<(int, real)>, indices: seq<int>, sums: seq<real>)
    requires Accumulated(sums, indices, terms)
    ensures forall k | 0 <= k < |sums| :: (k in indices <==> Names(terms, k)) && (k !in indices ==> sums[k] == 0.0)
  {
    forall k | 0 <= k < |sums| ensures (k in indices <==> Names(terms, k)) && (k !in indices ==> sums[k] == 0.0) {
      if k in indices {
        var i :| 0 <= i < |indices| && indices[i] == k;
        assert terms[i].0 == k;
      }
      if Names(terms, k) {
        var i :| 0 <= i < |terms| && terms[i].0 == k;
        assert indices[i] == k;
      } else {
        SumUnnamed(terms, k);
      }
    }
  }

  lemma CollectedIsSparse(res: seq<(int, real)>, left: seq<real>, indices: seq<int>, sums: seq<real>,
                          d: Dataset, w: seq<real>, sigma: real -> real, epsilon: real, cut: Cut)
    requires Indexed(d, |w|) && |sums| == |w|
    requires Accumulated(sums, indices, All(d, w, sigma))
    requires Collected(res, left, indices, sums, w, epsilon, cut)
    ensures IsSparseGradient(res, d, w, sigma, epsilon, cut) && AllZero(left) && |left| == |sums|
  {
    hide All, SumAt, Names, Indexed, Regularize, Passes;
    UnnamedInRest(All(d, w, sigma), indices, sums);
    forall i | 0 <= i < |res| ensures 0 <= res[i].0 < |w| && res[i].1 == GradAt(d, w, sigma, epsilon, res[i].0) {
      assert sums[res[i].0] == SumAt(All(d, w, sigma), res[i].0);
    }
    forall k | 0 <= k < |w|
      ensures (Names(res, k) <==> SumAt(All(d, w, sigma), k) != 0.0 && Passes(cut, GradAt(d, w, sigma, epsilon, k)))
    {
      assert sums[k] == SumAt(All(d, w, sigma), k);
    }
  }

  /** One row of the second pass. */
  method AccumulateRow(row: Row, residual: real, sums: seq<real>, indices: seq<int>, ghost terms: seq<(int, real)>)
    returns (sums': seq<real>, indices': seq<int>)
    requires forall j | 0 <= j < |row| :: 0 <= row[j].0 < |sums|
    requires Accumulated(sums, indices, terms)
    ensures |sums'| == |sums| && Accumulated(sums', indices', terms + RowTerms(row, residual))
  {
    hide Accumulated, Weighted;
    sums', indices' := sums, indices;
    assert terms + RowTerms(row[..0], residual) == terms;
    for j := 0 to |row|
      invariant |sums'| == |sums|
      invariant Accumulated(sums', indices', terms + RowTerms(row[..j], residual))
    {
      var index, value := row[j].0, row[j].1;
      assert row[..j + 1][..j] == row[..j];
      ghost var before, after := terms + RowTerms(row[..j], residual), terms + RowTerms(row[..j + 1], residual);
      assert after == before + [(index, Weighted(value, residual))];
      AccumulatedSnoc(sums', indices', before, index, Weighted(value, residual));
      indices' := indices' + [index];
      sums' := sums'[index := sums'[index] + Weighted(value, residual)];
    }
    assert row[..|row|] == row;
  }

  lemma AccumulatedSnoc(sums: seq<real>, indices: seq<int>, terms: seq<(int, real)>, index: int, value: real)
    requires 0 <= index < |sums| && Accumulated(sums, indices, terms)
    ensures Accumulated(sums[index := sums[index] + value], indices + [index], terms + [(index, value)])
  {
    hide SumAt;
    forall k ensures SumAt(terms + [(index, value)], k) == SumAt(terms, k) + if index == k then value else 0.0 {
      SumAtSnoc(terms, (index, value), k);
    }
  }

  /** A row's dot product with the weights, feature by feature. */
  method DotProduct(row: Row, w: seq<real>) returns (res: real)
    requires forall j | 0 <= j < |row| :: 0 <= row[j].0 < |w|
    ensures res == DotRow(row, w)
  {
    hide Weighted;
    res := 0.0;
    for j := 0 to |row|
      invariant res == DotRow(row[..j], w)
    {
      assert row[..j + 1][..j] == row[..j];
      res := res + Weighted(row[j].1, w[row[j].0]);
    }
    assert row[..|row|] == row;
  }

  /** The indices in the order the request names them. */
  function RowIndices(row: Row): (ids: seq<int>)
    ensures |ids| == |row| && forall j | 0 <= j < |row| :: ids[j] == row[j].0
  {
    if row == [] then [] else RowIndices(row[..|row| - 1]) + [row[|row| - 1].0]
  }

  function Indices(rows: seq<Row>): seq<int> {
    if rows == [] then [] else Indices(rows[..|rows| - 1]) + RowIndices(rows[|rows| - 1])
  }

  /** The request names the index of every feature of every sample, repetitions included. */
  lemma {:induction false} IndicesAre(rows: seq<Row>)
    ensures forall k :: k in Indices(rows) <==>
            exists i, j :: 0 <= i < |rows| && 0 <= j < |rows[i]| && rows[i][j].0 == k
  {
    if rows != [] {
      var n := |rows| - 1;
      var last := rows[n];
      IndicesAre(rows[..n]);
      forall k
        ensures k in Indices(rows) <==>
                exists i, j :: 0 <= i < |rows| && 0 <= j < |rows[i]| && rows[i][j].0 == k
      {
        if k in Indices(rows[..n]) {
          var i, j :| 0 <= i < n && 0 <= j < |rows[..n][i]| && rows[..n][i][j].0 == k;
          assert rows[i][j].0 == k;
        }
        if k in RowIndices(last) {
          var j :| 0 <= j < |last| && RowIndices(last)[j] == k;
          assert rows[n][j].0 == k;
        }
        if i, j :| 0 <= i < |rows| && 0 <= j < |rows[i]| && rows[i][j].0 == k {
          if i < n {
            assert rows[..n][i][j].0 == k;
          } else {
            assert RowIndices(last)[j] == k;
          }
        }
      }
    }
  }

  /** Weights the dataset does not name have no part in its gradient. */
  ghost predicate AgreeOn(rows: seq<Row>, a: seq<real>, b: seq<real>) {
    && |a| == |b|
    && forall i, j | 0 <= i < |rows| && 0 <= j < |rows[i]| ::
         0 <= rows[i][j].0 < |a| ==> a[rows[i][j].0] == b[rows[i][j].0]
  }

  lemma {:induction false} DotRowLocal(row: Row, a: seq<real>, b: seq<real>)
    requires |a| == |b| && forall j | 0 <= j < |row| :: 0 <= row[j].0 < |a| && a[row[j].0] == b[row[j].0]
    ensures DotRow(row, a) == DotRow(row, b)
  {
    hide Weighted;
    if row != [] {
      DotRowLocal(row[..|row| - 1], a, b);
    }
  }

  lemma {:induction false} TermsLocal(d: Dataset, i: nat, a: seq<real>, b: seq<real>, sigma: real -> real)
    requires Indexed(d, |a|) && AgreeOn(d.rows, a, b) && i <= |d.rows|
    ensures Terms(d, i, a, sigma) == Terms(d, i, b, sigma)
  {
    if i > 0 {
      TermsLocal(d, i - 1, a, b, sigma);
      DotRowLocal(d.rows[i - 1], a, b);
    }
  }

  lemma {:induction false} RowTermsNamed(row: Row, residual: real, k: int)
    requires Names(RowTerms(row, residual), k)
    ensures exists j :: 0 <= j < |row| && row[j].0 == k
  {
    hide Weighted;
    var n := |row| - 1;
    var i :| 0 <= i < |row| && RowTerms(row, residual)[i].0 == k;
    if i < n {
      assert Names(RowTerms(row[..n], residual), k) by {
        assert RowTerms(row[..n], residual)[i].0 == k;
      }
      RowTermsNamed(row[..n], residual, k);
      var j :| 0 <= j < n && row[..n][j].0 == k;
      assert row[j].0 == k;
    } else {
      assert row[n].0 == k;
    }
  }

  lemma {:induction false} TermsNamed(d: Dataset, i: nat, w: seq<real>, sigma: real -> real, k: int)
    requires Indexed(d, |w|) && i <= |d.rows|
    requires Names(Terms(d, i, w, sigma), k)
    ensures exists r: nat, j: nat :: r < |d.rows| && j < |d.rows[r]| && d.rows[r][j].0 == k
  {
    var before: seq<(int, real)> := Terms(d, i - 1, w, sigma);
    var row: seq<(int, real)> := RowTerms(d.rows[i - 1], Residual(d, i - 1, w, sigma));
    hide RowTerms, Residual;
    var t: nat :| t < |before + row| && (before + row)[t].0 == k;
    if t < |before| {
      assert before[t].0 == k;
      assert Names(before, k);
      TermsNamed(d, i - 1, w, sigma, k);
    } else {
      assert row[t - |before|].0 == k;
      assert Names(row, k);
      RowTermsNamed(d.rows[i - 1], Residual(d, i - 1, w, sigma), k);
      var j :| 0 <= j < |d.rows[i - 1]| && d.rows[i - 1][j].0 == k;
      assert d.rows[i - 1][j].0 == k;
    }
  }

  /** The gradient restricted to what the threshold and the data term let through. */
  lemma SparseIsFilteredFull(sparse: seq<(int, real)>, full: seq<(int, real)>, d: Dataset, w: seq<real>,
                             sigma: real -> real, epsilon: real, cut: Cut, k: int)
    requires Indexed(d, |w|) && 0 <= k < |w|
    requires IsSparseGradient(sparse, d, w, sigma, epsilon, cut)
    requires IsFullGradient(full, d, w, sigma, epsilon)
    ensures Names(sparse, k) <==> (exists i :: 0 <= i < |full| && full[i].0 == k
                                     && SumAt(All(d, w, sigma), k) != 0.0 && Passes(cut, full[i].1))
    ensures forall i, j | 0 <= i < |sparse| && 0 <= j < |full| && sparse[i].0 == full[j].0 :: sparse[i].1 == full[j].1
  {
    hide All, GradAt, Passes, SumAt;
    if SumAt(All(d, w, sigma), k) != 0.0 {
      if !Names(All(d, w, sigma), k) {
        SumUnnamed(All(d, w, sigma), k);
        assert false;
      }
      assert Names(full, k);
      var i :| 0 <= i < |full| && full[i].0 == k;
      assert full[i].1 == GradAt(d, w, sigma, epsilon, k);
    }
  }

  ghost predicate IsSumMap(sums: map<int, real>, terms: seq<(int, real)>) {
    forall k :: (k in sums <==> Names(terms, k)) && (k in sums ==> sums[k] == SumAt(terms, k))
  }

  method AccumulateMapRow(row: Row, residual: real, was: map<int, real>, ghost terms: seq<(int, real)>)
    returns (sums: map<int, real>)
    requires IsSumMap(was, terms)
    ensures IsSumMap(sums, terms + RowTerms(row, residual))
  {
    hide IsSumMap, Weighted;
    sums := was;
    assert terms + RowTerms(row[..0], residual) == terms;
    for j := 0 to |row|
      invariant IsSumMap(sums, terms + RowTerms(row[..j], residual))
    {
      var index, value := row[j].0, row[j].1;
      assert row[..j + 1][..j] == row[..j];
      ghost var before, after := terms + RowTerms(row[..j], residual), terms + RowTerms(row[..j + 1], residual);
      assert after == before + [(index, Weighted(value, residual))];
      SumMapSnoc(sums, before, index, Weighted(value, residual));
      sums := sums[index := (if index in sums then sums[index] else 0.0) + Weighted(value, residual)];
    }
    assert row[..|row|] == row;
  }

  lemma SumMapSnoc(sums: map<int, real>, terms: seq<(int, real)>, index: int, value: real)
    requires IsSumMap(sums, terms)
    ensures IsSumMap(sums[index := (if index in sums then sums[index] else 0.0) + value], terms + [(index, value)])
  {
    if index !in sums {
      SumUnnamed(terms, index);
    }
    hide Names, SumAt;
    forall k
      ensures Names(terms + [(index, value)], k) <==> Names(terms, k) || k == index
      ensures SumAt(terms + [(index, value)], k) == SumAt(terms, k) + if index == k then value else 0.0
    {
      NamesSnoc(terms, (index, value), k);
      SumAtSnoc(terms, (index, value), k);
    }
  }

  lemma KeysFit(sums: map<int, real>, d: Dataset, w: seq<real>, sigma: real -> real)
    requires Indexed(d, |w|) && IsSumMap(sums, All(d, w, sigma))
    ensures forall k <- sums :: 0 <= k < |w|
  {
    hide Names, Terms, SumAt;
    forall k | k in sums ensures 0 <= k < |w| {
      assert Names(All(d, w, sigma), k);
      TermsNamed(d, |d.rows|, w, sigma, k);
    }
  }

  lemma IndicesFit(sums: seq<real>, indices: seq<int>, d: Dataset, w: seq<real>, sigma: real -> real)
    requires Indexed(d, |w|) && Accumulated(sums, indices, All(d, w, sigma))
    ensures forall i | 0 <= i < |indices| :: 0 <= indices[i] < |w|
  {
    hide Terms, SumAt;
    forall i | 0 <= i < |indices| ensures 0 <= indices[i] < |w| {
      assert Names(All(d, w, sigma), indices[i]);
      TermsNamed(d, |d.rows|, w, sigma, indices[i]);
    }
  }

  lemma IndicesWithin(d: Dataset, n: nat)
    requires Indexed(d, n)
    ensures forall i | 0 <= i < |Indices(d.rows)| :: 0 <= Indices(d.rows)[i] < n
  {
    IndicesAre(d.rows);
    hide Indices;
    forall i | 0 <= i < |Indices(d.rows)| ensures 0 <= Indices(d.rows)[i] < n {
      var k := Indices(d.rows)[i];
      assert k in Indices(d.rows);
    }
  }

  /** The cache after a fetch: the server's weights at the ids, stale weights elsewhere. */
  ghost predicate IsRefreshed(now: seq<real>, was: seq<real>, server: seq<real>, ids: seq<int>) {
    && |now| == |was| == |server|
    && forall k | 0 <= k < |now| :: now[k] == if k in ids then server[k] else was[k]
  }

  lemma RefreshedAgrees(rows: seq<Row>, now: seq<real>, was: seq<real>, server: seq<real>)
    requires IsRefreshed(now, was, server, Indices(rows))
    ensures AgreeOn(rows, now, server)
  {
    IndicesAre(rows);
  }

  lemma SparseLocal(g: seq<(int, real)>, d: Dataset, a: seq<real>, b: seq<real>, sigma: real -> real, epsilon: real,
                    cut: Cut)
    requires Indexed(d, |a|) && AgreeOn(d.rows, a, b)
    requires IsSparseGradient(g, d, a, sigma, epsilon, cut)
    ensures IsSparseGradient(g, d, b, sigma, epsilon, cut)
  {
    TermsLocal(d, |d.rows|, a, b, sigma);
    hide Terms, SumAt, Passes, Regularize;
    forall k | 0 <= k < |a| && SumAt(All(d, a, sigma), k) != 0.0
      ensures GradAt(d, a, sigma, epsilon, k) == GradAt(d, b, sigma, epsilon, k)
    {
      if !Names(All(d, a, sigma), k) {
        SumUnnamed(All(d, a, sigma), k);
        assert false;
      }
      TermsNamed(d, |d.rows|, a, sigma, k);
    }
    forall i | 0 <= i < |g| ensures g[i].1 == GradAt(d, b, sigma, epsilon, g[i].0) {
      assert Names(g, g[i].0);
    }
  }

  /** Whether some index has a data term, and a gradient behind the threshold. */
  ghost predicate Worthwhile(d: Dataset, w: seq<real>, sigma: real -> real, epsilon: real, cut: Cut)
    requires Indexed(d, |w|)
  {
    exists k :: 0 <= k < |w| && SumAt(All(d, w, sigma), k) != 0.0 && Passes(cut, GradAt(d, w, sigma, epsilon, k))
  }

  /** The server accepts a gradient exactly when it holds something: residuals that are zero or cancel
      out, and a threshold above every entry, leave it empty. */
  lemma AcceptedIff(g: seq<(int, real)>, d: Dataset, w: seq<real>, sigma: real -> real, epsilon: real, cut: Cut)
    requires Indexed(d, |w|) && |Indices(d.rows)| < MAX_WEIGHTS
    requires IsSparseGradient(g, d, w, sigma, epsilon, cut)
    ensures 0 < |g| < MAX_WEIGHTS <==> Worthwhile(d, w, sigma, epsilon, cut)
  {
    IndicesAre(d.rows);
    hide Terms, SumAt, Passes, Regularize, Indices;
    forall i | 0 <= i < |g| ensures g[i].0 in Indices(d.rows) {
      EntryNamed(g, i);
      var k := g[i].0;
      if !Names(All(d, w, sigma), k) {
        SumUnnamed(All(d, w, sigma), k);
        assert false;
      }
      TermsNamed(d, |d.rows|, w, sigma, k);
    }
    DistinctWithin(RowIndices(g), Indices(d.rows));
    if g != [] {
      EntryNamed(g, 0);
    }
    if k :| 0 <= k < |w| && SumAt(All(d, w, sigma), k) != 0.0 && Passes(cut, GradAt(d, w, sigma, epsilon, k)) {
      assert Names(g, k);
    }
  }

  lemma IndicesNext(rows: seq<Row>, i: nat)
    requires i < |rows|
    ensures Indices(rows[..i + 1]) == Indices(rows[..i]) + RowIndices(rows[i])
  {
    assert rows[..i + 1][..i] == rows[..i];
  }

  method BuildRequest(rows: seq<Row>) returns (msg: seq<Word>)
    ensures msg == [StoreInt(|Indices(rows)|)] + IdWords(Indices(rows))
  {
    var count := 0;
    msg := [StoreInt(count)];
    ghost var head := msg;
    for i := 0 to |rows|
      invariant count == |Indices(rows[..i])|
      invariant msg == head + IdWords(Indices(rows[..i]))
    {
      assert rows[..i + 1][..i] == rows[..i];
      ghost var done := Indices(rows[..i]);
      hide Indices;
      var row := rows[i];
      for j := 0 to |row|
        invariant count == |done| + j
        invariant msg == head + IdWords(done + RowIndices(row[..j]))
      {
        assert row[..j + 1][..j] == row[..j];
        msg := msg + [StoreInt(row[j].0)];
        count := count + 1;
      }
      assert row[..|row|] == row;
      IndicesNext(rows, i);
    }
    assert rows[..|rows|] == rows;
    msg := msg[0 := StoreInt(count)];
  }

  /** process_get_lr_sparse_model.  The reply never outgrows its buffer when the request fitted its own. */
  method AnswerRequest(server: seq<real>, msg: seq<Word>, ghost ids: seq<int>) returns (reply: seq<Word>)
    requires |server| < TWO_32 && 4 * (1 + |ids|) <= 1_048_576
    requires forall i | 0 <= i < |ids| :: 0 <= ids[i] < |server|
    requires msg == [StoreInt(|ids|)] + IdWords(ids)
    ensures |reply| == |ids| && 4 * |reply| < 1_048_576
    ensures forall i | 0 <= i < |ids| :: reply[i] == Feature(server[ids[i]])
  {
    LoadStore(|ids|);
    var count := LoadUnsigned(msg[0]);
    reply := [];
    for i := 0 to count
      invariant |reply| == i
      invariant forall k | 0 <= k < i :: reply[k] == Feature(server[ids[k]])
    {
      LoadStore(ids[i]);
      assert msg[1 + i] == IdWords(ids)[i];
      reply := reply + [Feature(server[LoadUnsigned(msg[1 + i])])];
    }
  }

  /** The worker's model object.  The configuration is fixed for its lifetime. */
  class SparseLRModel {
    const cells: nat
    const minibatch: nat
    const epsilon: real
    const cut: Cut
    const sigma: real -> real

    var weights: seq<real>
    var isSparse: bool
    var weightsSparse: seq<real>
    var part2: seq<real>
    var part3: seq<real>
    var uniqueIndices: seq<int>

    constructor (cells: nat, minibatch: nat, epsilon: real, cut: Cut, sigma: real -> real, weights: seq<real>)
      requires 0 < cells && 0 < minibatch
      ensures this.cells == cells && this.minibatch == minibatch && this.epsilon == epsilon
      ensures this.cut == cut && this.sigma == sigma && this.weights == weights
      ensures Valid() && !isSparse
    {
      this.cells, this.minibatch, this.epsilon, this.cut, this.sigma := cells, minibatch, epsilon, cut, sigma;
      this.weights, isSparse, weightsSparse := weights, false, Zeros(cells);
      part2, part3, uniqueIndices := [], [], [];
    }

    /** Between calls every cell of part3 is zero. */
    ghost predicate Valid()
      reads this
    {
      && 0 < cells
      && |weightsSparse| == cells
      && (part2 == [] || |part2| == minibatch)
      && (part3 == [] || |part3| == cells)
      && AllZero(part3)
    }

    method EnsurePreallocated()
      requires Valid()
      modifies `part2, `part3, `uniqueIndices
      ensures Valid() && uniqueIndices == [] && |part2| == minibatch && |part3| == cells
    {
      uniqueIndices := [];
      if part3 == [] {
        part3 := Zeros(cells);
      }
      if part2 == [] {
        part2 := Zeros(minibatch);
      }
    }

    /** The first pass: a residual for each sample. */
    method FillResiduals(d: Dataset)
      requires Indexed(d, |weightsSparse|) && |d.rows| <= |part2|
      modifies `part2
      ensures |part2| == |old(part2)|
      ensures forall i | 0 <= i < |d.rows| :: part2[i] == Residual(d, i, weightsSparse, sigma)
    {
      hide DotRow;
      for i := 0 to |d.rows|
        invariant |part2| == |old(part2)|
        invariant forall r | 0 <= r < i :: part2[r] == Residual(d, r, weightsSparse, sigma)
      {
        var dot := DotProduct(d.rows[i], weightsSparse);
        part2 := part2[i := d.labels[i] - sigma(dot)];
      }
    }

    /** The second pass: sums per index into part3. */
    method Accumulate(d: Dataset)
      requires Indexed(d, |weightsSparse|) && |part3| == |weightsSparse| && |d.rows| <= |part2|
      requires AllZero(part3) && uniqueIndices == []
      requires forall i | 0 <= i < |d.rows| :: part2[i] == Residual(d, i, weightsSparse, sigma)
      modifies `part3, `uniqueIndices
      ensures |part3| == |weightsSparse|
      ensures Accumulated(part3, uniqueIndices, All(d, weightsSparse, sigma))
    {
      assert Accumulated(part3, uniqueIndices, Terms(d, 0, weightsSparse, sigma));
      hide Accumulated, AllZero, RowTerms, Residual;
      for i := 0 to |d.rows|
        invariant |part3| == |weightsSparse|
        invariant Accumulated(part3, uniqueIndices, Terms(d, i, weightsSparse, sigma))
      {
        part3, uniqueIndices :=
          AccumulateRow(d.rows[i], part2[i], part3, uniqueIndices, Terms(d, i, weightsSparse, sigma));
      }
    }

    /** minibatch_grad_sparse: the gradient at the cached weights, and clean scratch for the next call. */
    method MinibatchGradSparse(d: Dataset) returns (g: LRGradient)
      requires Valid() && Indexed(d, cells) && |d.rows| <= minibatch
      modifies `part2, `part3, `uniqueIndices
      ensures Valid()
      ensures IsSparseGradient(g.weights, d, weightsSparse, sigma, epsilon, cut)
    {
      hide Indexed, AllZero, Accumulated, Collected, IsSparseGradient, Residual, All;
      EnsurePreallocated();
      FillResiduals(d);
      Accumulate(d);
      ghost var sums := part3;
      IndicesFit(sums, uniqueIndices, d, weightsSparse, sigma);
      var res, left := Collect(uniqueIndices, part3, weightsSparse, epsilon, cut);
      CollectedIsSparse(res, left, uniqueIndices, sums, d, weightsSparse, sigma, epsilon, cut);
      part3 := left;
      g := LRGradient(0, res);
    }

    /** get_lr_sparse_model_inplace: request the weights the dataset names, and write them into the cache.
        A dataset without features fails an assertion; the buffer bounds the number of features. */
    method Fetch(d: Dataset, server: seq<real>) returns (ok: bool)
      requires Valid() && Indexed(d, cells) && |server| == cells && cells < TWO_32
      requires WORD_BYTES * (1 + |Indices(d.rows)|) <= MAX_MSG_SIZE
      modifies `weightsSparse, `isSparse
      ensures Valid()
      ensures ok <==> Indices(d.rows) != []
      ensures !ok ==> weightsSparse == old(weightsSparse)
      ensures ok ==> isSparse && IsRefreshed(weightsSparse, old(weightsSparse), server, Indices(d.rows))
    {
      hide AllZero, Indices;
      IndicesWithin(d, cells);
      var msg := BuildRequest(d.rows);
      var reply := AnswerRequest(server, msg, Indices(d.rows));
      ok := LoadSerializedSparse(reply, msg, server, Indices(d.rows));
    }

    /** loadSerializedSparse: the values arrive in the order the indices were sent. */
    method LoadSerializedSparse(values: seq<Word>, msg: seq<Word>, ghost server: seq<real>, ghost ids: seq<int>)
      returns (ok: bool)
      requires Valid() && |server| == cells && cells < TWO_32
      requires WORD_BYTES * |ids| < MAX_MSG_SIZE && forall i | 0 <= i < |ids| :: 0 <= ids[i] < cells
      requires msg == [StoreInt(|ids|)] + IdWords(ids)
      requires |values| == |ids| && forall i | 0 <= i < |ids| :: values[i] == Feature(server[ids[i]])
      modifies `weightsSparse, `isSparse
      ensures Valid()
      ensures ok <==> ids != []
      ensures !ok ==> weightsSparse == old(weightsSparse)
      ensures ok ==> isSparse && IsRefreshed(weightsSparse, old(weightsSparse), server, ids)
    {
      hide AllZero;
      isSparse := true;
      ok := 0 < |values| < MAX_WEIGHTS;
      if ok {
        for i := 0 to |values|
          invariant isSparse && |weightsSparse| == cells
          invariant IsRefreshed(weightsSparse, old(weightsSparse), server, ids[..i])
        {
          LoadStore(ids[i]);
          assert msg[1 + i] == IdWords(ids)[i];
          var index := LoadUnsigned(msg[1 + i]);
          assert ids[..i + 1] == ids[..i] + [index];
          weightsSparse := weightsSparse[index := values[i].value];
        }
        assert ids[..|ids|] == ids;
      }
    }

    /** One iteration of the worker: the gradient it ships is the gradient at the weights the server
        held when it answered, whatever the cache and the scratch vectors held before. */
    method Step(d: Dataset, server: seq<real>) returns (ok: bool, g: LRGradient)
      requires Valid() && Indexed(d, cells) && |d.rows| <= minibatch && |server| == cells && cells < TWO_32
      requires WORD_BYTES * (1 + |Indices(d.rows)|) <= MAX_MSG_SIZE
      modifies `part2, `part3, `uniqueIndices, `weightsSparse, `isSparse
      ensures Valid()
      ensures ok <==> Indices(d.rows) != []
      ensures ok ==> IsSparseGradient(g.weights, d, server, sigma, epsilon, cut)
    {
      hide IsSparseGradient, Indices, Indexed, AllZero;
      g := LRGradient(0, []);
      ok := Fetch(d, server);
      if ok {
        g := MinibatchGradSparse(d);
        RefreshedAgrees(d.rows, weightsSparse, old(weightsSparse), server);
        SparseLocal(g.weights, d, weightsSparse, server, sigma, epsilon, cut);
      }
    }

    /** The worker's loop on one reused model: every gradient of every run is right, up to the first
        minibatch without a feature, and the server accepts exactly the ones that hold an entry. */
    method Session(rounds: seq<(Dataset, seq<real>)>) returns (shipped: seq<LRGradient>)
      requires Valid() && cells < TWO_32
      requires forall i | 0 <= i < |rounds| ::
        && Indexed(rounds[i].0, cells) && |rounds[i].0.rows| <= minibatch && |rounds[i].1| == cells
        && WORD_BYTES * (1 + |Indices(rounds[i].0.rows)|) <= MAX_MSG_SIZE
      modifies `part2, `part3, `uniqueIndices, `weightsSparse, `isSparse
      ensures Valid()
      ensures |shipped| <= |rounds|
      ensures forall i | 0 <= i < |shipped| ::
        && Indices(rounds[i].0.rows) != []
        && IsSparseGradient(shipped[i].weights, rounds[i].0, rounds[i].1, sigma, epsilon, cut)
        && (0 < |shipped[i].weights| < MAX_WEIGHTS <==> Worthwhile(rounds[i].0, rounds[i].1, sigma, epsilon, cut))
      ensures |shipped| < |rounds| ==> Indices(rounds[|shipped|].0.rows) == []
    {
      hide IsSparseGradient, Indices, Indexed, AllZero, Worthwhile;
      shipped := [];
      while |shipped| < |rounds|
        invariant Valid()
        invariant |shipped| <= |rounds|
        invariant forall i | 0 <= i < |shipped| ::
          && Indices(rounds[i].0.rows) != []
          && IsSparseGradient(shipped[i].weights, rounds[i].0, rounds[i].1, sigma, epsilon, cut)
          && (0 < |shipped[i].weights| < MAX_WEIGHTS <==> Worthwhile(rounds[i].0, rounds[i].1, sigma, epsilon, cut))
        decreases |rounds| - |shipped|
      {
        var round := rounds[|shipped|];
        var ok, g := Step(round.0, round.1);
        if !ok {
          return;
        }
        AcceptedIff(g.weights, round.0, round.1, sigma, epsilon, cut);
        shipped := shipped + [g];
      }
    }

    /** dot_product with the bounds check that throws. */
    method CheckedDot(row: Row) returns (ok: bool, res: real)
      ensures ok <==> forall j | 0 <= j < |row| :: 0 <= row[j].0 < |weights|
      ensures ok ==> res == DotRow(row, weights)
    {
      hide Weighted;
      ok, res := true, 0.0;
      for j := 0 to |row|
        invariant ok && (forall i | 0 <= i < j :: 0 <= row[i].0 < |weights|) && res == DotRow(row[..j], weights)
      {
        if !(0 <= row[j].0 < |weights|) {
          return false, res;
        }
        assert row[..j + 1][..j] == row[..j];
        res := res + Weighted(row[j].1, weights[row[j].0]);
      }
      assert row[..|row|] == row;
    }

    /** minibatch_grad on the full weight vector.  It throws on a model that was ever loaded sparsely
        and on an index the model does not have. */
    method MinibatchGrad(d: Dataset) returns (ok: bool, g: LRGradient)
      requires |d.labels| == |d.rows|
      ensures ok <==> !isSparse && Indexed(d, |weights|)
      ensures ok ==> IsFullGradient(g.weights, d, weights, sigma, epsilon)
    {
      g := LRGradient(0, []);
      ok := !isSparse;
      if !ok {
        return;
      }
      var residuals := [];
      for i := 0 to |d.rows|
        invariant |residuals| == i && Indexed(Dataset(d.rows[..i], d.labels[..i]), |weights|)
        invariant forall r | 0 <= r < i :: residuals[r] == d.labels[r] - sigma(DotRow(d.rows[r], weights))
      {
        hide DotRow;
        var dot;
        ok, dot := CheckedDot(d.rows[i]);
        if !ok {
          ghost var j :| 0 <= j < |d.rows[i]| && !(0 <= d.rows[i][j].0 < |weights|);
          return;
        }
        residuals := residuals + [d.labels[i] - sigma(dot)];
      }
      assert Dataset(d.rows[..|d.rows|], d.labels[..|d.rows|]) == d;
      forall i | 0 <= i < |d.rows| ensures residuals[i] == Residual(d, i, weights, sigma) {
      }
      hide IsFullGradient, Residual, IsSumMap;
      var sums := AccumulateMap(d, residuals);
      var entries := Emit(sums, d);
      g := LRGradient(0, entries);
    }

    /** The map of sums per index, built in the order of the samples. */
    method AccumulateMap(d: Dataset, residuals: seq<real>) returns (sums: map<int, real>)
      requires Indexed(d, |weights|) && |residuals| == |d.rows|
      requires forall i | 0 <= i < |d.rows| :: residuals[i] == Residual(d, i, weights, sigma)
      ensures IsSumMap(sums, All(d, weights, sigma))
    {
      sums := map[];
      assert IsSumMap(sums, Terms(d, 0, weights, sigma));
      hide IsSumMap, Residual, RowTerms, Weighted, Indexed;
      for i := 0 to |d.rows|
        invariant IsSumMap(sums, Terms(d, i, weights, sigma))
      {
        sums := AccumulateMapRow(d.rows[i], residuals[i], sums, Terms(d, i, weights, sigma));
      }
    }

    /** One entry for each key, in whatever order the map yields them. */
    method Emit(sums: map<int, real>, ghost d: Dataset) returns (entries: seq<(int, real)>)
      requires Indexed(d, |weights|) && IsSumMap(sums, All(d, weights, sigma))
      ensures IsFullGradient(entries, d, weights, sigma, epsilon)
    {
      KeysFit(sums, d, weights, sigma);
      hide Names, Indexed, Regularize, SumAt, All;
      entries := [];
      var keys := sums.Keys;
      forall k ensures !Names([], k) {
        NothingNamed(k);
      }
      while keys != {}
        invariant keys <= sums.Keys
        invariant forall i, j | 0 <= i < j < |entries| :: entries[i].0 != entries[j].0
        invariant forall k :: Names(entries, k) <==> k in sums && k !in keys
        invariant forall i | 0 <= i < |entries| ::
          0 <= entries[i].0 < |weights| && entries[i].1 == GradAt(d, weights, sigma, epsilon, entries[i].0)
        decreases |keys|
      {
        ghost var some := Pick(keys);
        var k :| k in keys;
        var e := (k, Regularize(sums[k], weights[k], epsilon));
        forall i | 0 <= i < |entries| ensures entries[i].0 != k {
          EntryNamed(entries, i);
        }
        forall j ensures Names(entries + [e], j) <==> Names(entries, j) || j == k {
          NamesSnoc(entries, e, j);
        }
        entries, keys := entries + [e], keys - {k};
      }
    }
  }
}
