/** What a logistic-regression gradient is, what it means on values, and its wire format. */
module LRGradients {
  import opened SparseDatasets
  import opened Words

  datatype LRGradient = LRGradient(version: int, weights: seq<(int, real)>)

  const MAX_WEIGHTS := 10_000_000

  /** getSerializedSize */
  function SerializedSize(g: LRGradient): nat {
    |g.weights| * (4 + 4) + 4 * 2
  }

  ghost function Image(g: LRGradient): seq<Word> {
    [StoreInt(g.version), StoreInt(|g.weights|)] + EntryWords(g.weights, 0)
  }

  /** LRSparseGradient::serialize */
  method Serialize(g: LRGradient) returns (mem: seq<Word>)
    ensures mem == Image(g)
    ensures WORD_BYTES * |mem| == SerializedSize(g)
  {
    mem := [StoreInt(g.version), StoreInt(|g.weights|)];
    mem := StoreEntries(mem, g.weights);
    EntryLength(g.weights, 0);
  }

  /** LRSparseGradient::loadSerialized on a buffer that serialize wrote.  An empty gradient does not
      survive the trip: the receiver asserts that there is a weight. */
  method LoadSerialized(mem: seq<Word>, ghost g: LRGradient) returns (ok: bool, loaded: LRGradient)
    requires FitsInt(g.version) && |g.weights| < TWO_31
    requires forall i | 0 <= i < |g.weights| :: FitsInt(g.weights[i].0)
    requires mem == Image(g)
    ensures ok <==> 0 < |g.weights| < 10_000_000
    ensures ok ==> loaded == g
  {
    LoadStore(g.version);
    LoadStore(|g.weights|);
    ok, loaded := false, LRGradient(LoadInt(mem[0]), []);
    var count := LoadInt(mem[1]);
    if 0 < count < MAX_WEIGHTS {
      Past(mem, 0, [StoreInt(g.version), StoreInt(|g.weights|)], EntryWords(g.weights, 0));
      assert mem[2..] == EntryWords(g.weights, 0) + [];
      var weights, next := LoadEntries(mem, 2, count, g.weights, []);
      ok, loaded := true, LRGradient(loaded.version, weights);
    }
  }

  /** One feature's contribution. */
  function Weighted(value: real, x: real): real {
    value * x
  }

  /** Whether every index of the dataset names one of n weights. */
  ghost predicate Indexed(d: Dataset, n: nat) {
    && |d.labels| == |d.rows|
    && forall i, j | 0 <= i < |d.rows| && 0 <= j < |d.rows[i]| :: 0 <= d.rows[i][j].0 < n
  }

  /** The dot product of a row with the weights. */
  function DotRow(row: Row, w: seq<real>): real
    requires forall j | 0 <= j < |row| :: 0 <= row[j].0 < |w|
  {
    if row == [] then 0.0 else
      var last := row[|row| - 1]; DotRow(row[..|row| - 1], w) + Weighted(last.1, w[last.0])
  }

  /** How far the prediction for sample i is from its label. */
  function Residual(d: Dataset, i: nat, w: seq<real>, sigma: real -> real): real
    requires Indexed(d, |w|) && i < |d.rows|
  {
    d.labels[i] - sigma(DotRow(d.rows[i], w))
  }

  /** The contributions of a row, given its residual. */
  ghost function RowTerms(row: Row, residual: real): (t: seq<(int, real)>)
    ensures |t| == |row|
  {
    if row == [] then [] else
      var last := row[|row| - 1]; RowTerms(row[..|row| - 1], residual) + [(last.0, Weighted(last.1, residual))]
  }

  /** The contributions of the first i rows, in the order they are added. */
  ghost function Terms(d: Dataset, i: nat, w: seq<real>, sigma: real -> real): seq<(int, real)>
    requires Indexed(d, |w|) && i <= |d.rows|
  {
    if i == 0 then [] else Terms(d, i - 1, w, sigma) + RowTerms(d.rows[i - 1], Residual(d, i - 1, w, sigma))
  }

  /** The sum of the contributions to index k. */
  ghost function SumAt(terms: seq<(int, real)>, k: int): real {
    if terms == [] then 0.0 else
      var last := terms[|terms| - 1];
      SumAt(terms[..|terms| - 1], k) + if last.0 == k then last.1 else 0.0
  }

  lemma SumAtSnoc(terms: seq<(int, real)>, t: (int, real), k: int)
    ensures SumAt(terms + [t], k) == SumAt(terms, k) + if t.0 == k then t.1 else 0.0
  {
    assert (terms + [t])[..|terms|] == terms;
  }

  /** The indices the dataset names. */
  ghost predicate Names(terms: seq<(int, real)>, k: int) {
    exists i :: 0 <= i < |terms| && terms[i].0 == k
  }

  lemma {:induction false} SumUnnamed(terms: seq<(int, real)>, k: int)
    requires !Names(terms, k)
    ensures SumAt(terms, k) == 0.0
  {
    if terms != [] {
      var n := |terms| - 1;
      assert terms[n].0 != k;
      assert forall i | 0 <= i < n :: terms[..n][i] == terms[i];
      SumUnnamed(terms[..n], k);
    }
  }

  /** The gradient of the regularized loss at one index. */
  function Regularize(data: real, weight: real, epsilon: real): real {
    data + weight * 2.0 * epsilon
  }

  ghost function All(d: Dataset, w: seq<real>, sigma: real -> real): seq<(int, real)>
    requires Indexed(d, |w|)
  {
    Terms(d, |d.rows|, w, sigma)
  }

  ghost function GradAt(d: Dataset, w: seq<real>, sigma: real -> real, epsilon: real, k: int): real
    requires Indexed(d, |w|) && 0 <= k < |w|
  {
    Regularize(SumAt(All(d, w, sigma), k), w[k], epsilon)
  }

  /** The map-based gradient: one entry for each index the dataset names. */
  ghost predicate IsFullGradient(g: seq<(int, real)>, d: Dataset, w: seq<real>, sigma: real -> real, epsilon: real)
    requires Indexed(d, |w|)
  {
    && (forall i, j | 0 <= i < j < |g| :: g[i].0 != g[j].0)
    && (forall k :: Names(g, k) <==> Names(All(d, w, sigma), k))
    && (forall i | 0 <= i < |g| :: 0 <= g[i].0 < |w| && g[i].1 == GradAt(d, w, sigma, epsilon, g[i].0))
  }

  datatype Cut = Cut(used: bool, threshold: real)

  predicate Passes(cut: Cut, x: real) {
    !cut.used || (if x < 0.0 then -x else x) > cut.threshold
  }

  /** The scratch-vector gradient: only indices whose data term is not zero and whose gradient
      passes the threshold. */
  ghost predicate IsSparseGradient(g: seq<(int, real)>, d: Dataset, w: seq<real>, sigma: real -> real, epsilon: real,
                                   cut: Cut)
    requires Indexed(d, |w|)
  {
    && (forall i, j | 0 <= i < j < |g| :: g[i].0 != g[j].0)
    && (forall i | 0 <= i < |g| :: 0 <= g[i].0 < |w| && g[i].1 == GradAt(d, w, sigma, epsilon, g[i].0))
    && (forall k | 0 <= k < |w| ::
          (Names(g, k) <==> SumAt(All(d, w, sigma), k) != 0.0 && Passes(cut, GradAt(d, w, sigma, epsilon, k))))
  }
}
