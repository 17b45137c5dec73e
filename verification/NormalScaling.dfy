/** Normal scaling of a dataset that is split into chunks: sums per column and chunk, added up, then
    every column shifted by its mean and divided by its deviation. */
module NormalScaling {
  import opened Sets

  type Row = seq<(int, real)>

  const EPSILON := 0.0001

  /** The sums that stand for a column: of squares, of values, and how many values. */
  datatype Moments = Moments(squares: real, sum: real, count: nat)

  function Square(x: real): real {
    x * x
  }

  function Plus(a: Moments, b: Moments): Moments {
    Moments(a.squares + b.squares, a.sum + b.sum, a.count + b.count)
  }

  function MomentsOf(values: seq<real>): (m: Moments)
    ensures m.count == |values|
  {
    if values == [] then Moments(0.0, 0.0, 0) else
      var last := values[|values| - 1];
      Plus(MomentsOf(values[..|values| - 1]), Moments(Square(last), last, 1))
  }

  /** The values of a column, in the order of the data. */
  ghost function RowValues(row: Row, c: int): seq<real> {
    if row == [] then [] else
      var last := row[|row| - 1];
      RowValues(row[..|row| - 1], c) + if last.0 == c then [last.1] else []
  }

  ghost function Values(data: seq<Row>, c: int): seq<real> {
    if data == [] then [] else Values(data[..|data| - 1], c) + RowValues(data[|data| - 1], c)
  }

  /** All rows of all chunks. */
  ghost function Whole(chunks: seq<seq<Row>>): seq<Row> {
    if chunks == [] then [] else Whole(chunks[..|chunks| - 1]) + chunks[|chunks| - 1]
  }

  lemma MomentsSnoc(values: seq<real>, x: real)
    ensures MomentsOf(values + [x]) == Plus(MomentsOf(values), Moments(Square(x), x, 1))
  {
    assert (values + [x])[..|values|] == values;
  }

  lemma {:induction false} MomentsAppend(a: seq<real>, b: seq<real>)
    ensures MomentsOf(a + b) == Plus(MomentsOf(a), MomentsOf(b))
  {
    hide Square;
    if b == [] {
      assert a + b == a && MomentsOf(b) == Moments(0.0, 0.0, 0);
      hide MomentsOf;
    } else {
      hide MomentsOf;
      var n := |b| - 1;
      MomentsAppend(a, b[..n]);
      MomentsSnoc(a + b[..n], b[n]);
      MomentsSnoc(b[..n], b[n]);
      assert a + b == (a + b[..n]) + [b[n]] && b == b[..n] + [b[n]];
    }
  }

  lemma {:induction false} ValuesAppend(a: seq<Row>, b: seq<Row>, c: int)
    ensures Values(a + b, c) == Values(a, c) + Values(b, c)
  {
    hide RowValues;
    if b == [] {
      assert a + b == a;
    } else {
      var n := |b| - 1;
      ValuesAppend(a, b[..n], c);
      assert (a + b)[..|a + b| - 1] == a + b[..n];
    }
  }

  /** m holds the sums of exactly the columns that occur. */
  ghost predicate Sums(m: map<int, Moments>, data: seq<Row>) {
    forall c :: (c in m <==> Values(data, c) != []) && (c in m ==> m[c] == MomentsOf(Values(data, c)))
  }

  /** As Sums, with the first entries of another row. */
  ghost predicate SumsAnd(m: map<int, Moments>, data: seq<Row>, row: Row) {
    forall c :: var v := Values(data, c) + RowValues(row, c);
      (c in m <==> v != []) && (c in m ==> m[c] == MomentsOf(v))
  }

  lemma SumsNext(m: map<int, Moments>, data: seq<Row>, row: Row, idx: int, val: real)
    requires SumsAnd(m, data, row)
    ensures var was := if idx in m then m[idx] else Moments(0.0, 0.0, 0);
      SumsAnd(m[idx := Plus(was, Moments(Square(val), val, 1))], data, row + [(idx, val)])
  {
    hide Square;
    assert (row + [(idx, val)])[..|row|] == row;
    assert MomentsOf([]) == Moments(0.0, 0.0, 0);
    MomentsSnoc(Values(data, idx) + RowValues(row, idx), val);
    hide Values, MomentsOf, Plus;
    forall c
      ensures var v := Values(data, c) + RowValues(row, c);
        Values(data, c) + RowValues(row + [(idx, val)], c) == if c == idx then v + [val] else v
    {
    }
  }

  lemma RowStarts(m: map<int, Moments>, data: seq<Row>)
    ensures SumsAnd(m, data, []) <==> Sums(m, data)
  {
    hide MomentsOf;
    forall c ensures Values(data, c) + RowValues([], c) == Values(data, c) {
    }
    hide Values, RowValues;
    if Sums(m, data) {
      forall c ensures var v := Values(data, c) + RowValues([], c);
        (c in m <==> v != []) && (c in m ==> m[c] == MomentsOf(v))
      {
      }
    }
  }

  lemma RowEnds(m: map<int, Moments>, data: seq<Row>, row: Row)
    requires SumsAnd(m, data, row)
    ensures Sums(m, data + [row])
  {
    assert (data + [row])[..|data|] == data;
    hide MomentsOf, RowValues;
    forall c ensures Values(data + [row], c) == Values(data, c) + RowValues(row, c) {
    }
  }

  /** The loop of get_data_ranges over one row. */
  method AddRow(was: map<int, Moments>, row: Row, ghost data: seq<Row>) returns (m: map<int, Moments>)
    requires Sums(was, data)
    ensures Sums(m, data + [row])
  {
    m := was;
    RowStarts(m, data);
    hide *;
    assert row[..0] == [];
    for j := 0 to |row|
      invariant SumsAnd(m, data, row[..j])
    {
      var idx, val := row[j].0, row[j].1;
      SumsNext(m, data, row[..j], idx, val);
      assert row[..j + 1] == row[..j] + [(idx, val)];
      var sums := if idx in m then m[idx] else Moments(0.0, 0.0, 0);
      m := m[idx := Plus(sums, Moments(Square(val), val, 1))];
    }
    assert row[..|row|] == row;
    RowEnds(m, data, row);
  }

  /** get_data_ranges */
  method GetDataRanges(data: seq<Row>) returns (m: map<int, Moments>)
    ensures Sums(m, data)
  {
    m := map[];
    assert Sums(m, data[..0]);
    hide *;
    for i := 0 to |data|
      invariant Sums(m, data[..i])
    {
      m := AddRow(m, data[i], data[..i]);
      assert data[..i + 1] == data[..i] + [data[i]];
    }
    assert data[..|data|] == data;
  }

  /** Adding up two parts of the data adds up their sums, column by column. */
  lemma SumsAppend(a: map<int, Moments>, da: seq<Row>, b: map<int, Moments>, db: seq<Row>, m: map<int, Moments>)
    requires Sums(a, da) && Sums(b, db)
    requires forall c :: c in m <==> c in a || c in b
    requires forall c <- m :: m[c] == if c !in b then a[c] else if c !in a then b[c] else Plus(a[c], b[c])
    ensures Sums(m, da + db)
  {
    hide MomentsOf, Values, Plus;
    forall c
      ensures (c in m <==> Values(da + db, c) != []) && (c in m ==> m[c] == MomentsOf(Values(da + db, c)))
    {
      var va, vb := Values(da, c), Values(db, c);
      ValuesAppend(da, db, c);
      MomentsAppend(va, vb);
      assert va == [] ==> va + vb == vb;
      assert vb == [] ==> va + vb == va;
    }
  }

  /** The loop of get_global_map over the columns of one chunk. */
  method AddLocal(ranges: map<int, Moments>, local: map<int, Moments>) returns (m: map<int, Moments>)
    ensures forall c :: c in m <==> c in ranges || c in local
    ensures forall c <- m ::
              m[c] == if c !in local then ranges[c] else if c !in ranges then local[c] else Plus(ranges[c], local[c])
  {
    m := ranges;
    var left := local.Keys;
    while left != {}
      invariant left <= local.Keys
      invariant forall c :: c in m <==> c in ranges || (c in local && c !in left)
      invariant forall c <- m ::
                  m[c] == if c !in local || c in left then ranges[c]
                          else if c !in ranges then local[c] else Plus(ranges[c], local[c])
      decreases |left|
    {
      hide Plus;
      ghost var some := Pick(left);
      var c :| c in left;
      m := m[c := if c in m then Plus(m[c], local[c]) else local[c]];
      left := left - {c};
    }
  }

  /** get_global_map: however the data is cut into chunks, the sums are those of the whole. */
  method GetGlobalMap(chunks: seq<seq<Row>>) returns (ranges: map<int, Moments>)
    ensures Sums(ranges, Whole(chunks))
  {
    ranges := map[];
    for i := 0 to |chunks|
      invariant Sums(ranges, Whole(chunks[..i]))
    {
      hide Sums;
      var local := GetDataRanges(chunks[i]);
      var more := AddLocal(ranges, local);
      SumsAppend(ranges, Whole(chunks[..i]), local, chunks[i], more);
      assert chunks[..i + 1][..i] == chunks[..i];
      ranges := more;
    }
    assert chunks[..|chunks|] == chunks;
  }

  function Mean(m: Moments): real
    requires m.count > 0
  {
    m.sum / m.count as real
  }

  /** E[X^2] - E[X]^2 */
  function Variance(m: Moments): real
    requires m.count > 0
  {
    m.squares / m.count as real - Square(Mean(m))
  }

  /** Deviation as update_local_maps stores it; zero when the variance is tiny. */
  function Deviation(m: Moments, root: real -> real): real
    requires m.count > 0
  {
    if Variance(m) > EPSILON || -Variance(m) > EPSILON then root(Variance(m)) else 0.0
  }

  function Standard(x: real, mean: real, dev: real): real {
    if dev != 0.0 then (x - mean) / dev else 0.0
  }

  /** A column after scale_data. */
  function Standards(values: seq<real>, mean: real, dev: real): (s: seq<real>)
    ensures |s| == |values| && forall i | 0 <= i < |s| :: s[i] == Standard(values[i], mean, dev)
  {
    if values == [] then [] else
      Standards(values[..|values| - 1], mean, dev) + [Standard(values[|values| - 1], mean, dev)]
  }

  function Move(x: real, a: real, t: real): real {
    (x - a) * t
  }

  /** The values shifted by a and stretched by t. */
  function Moved(values: seq<real>, a: real, t: real): (s: seq<real>)
    ensures |s| == |values|
  {
    if values == [] then [] else Moved(values[..|values| - 1], a, t) + [Move(values[|values| - 1], a, t)]
  }

  /** The sums of the moved values, in terms of the sums of the values. */
  function MovedSum(m: Moments, a: real, t: real): real {
    (m.sum - m.count as real * a) * t
  }

  function MovedSquares(m: Moments, a: real, t: real): real {
    (m.squares - 2.0 * a * m.sum + m.count as real * (a * a)) * (t * t)
  }

  lemma OneMore(m: Moments, x: real, a: real, t: real)
    ensures MovedSum(Plus(m, Moments(Square(x), x, 1)), a, t) == MovedSum(m, a, t) + Move(x, a, t)
  {
    var n := m.count as real;
    assert (m.sum + x - (n + 1.0) * a) * t == (m.sum - n * a) * t + (x - a) * t;
  }

  lemma OneMoreSquare(m: Moments, x: real, a: real, t: real)
    ensures MovedSquares(Plus(m, Moments(Square(x), x, 1)), a, t) == MovedSquares(m, a, t) + Square(Move(x, a, t))
  {
    var n, q, p := m.count as real, m.squares, m.sum;
    var u := x * x - 2.0 * a * x + a * a;
    assert (x - a) * (x - a) == u;
    assert ((x - a) * t) * ((x - a) * t) == u * (t * t);
    assert q + x * x - 2.0 * a * (p + x) + (n + 1.0) * (a * a) == (q - 2.0 * a * p + n * (a * a)) + u;
  }

  lemma {:induction false} MovedSums(values: seq<real>, a: real, t: real)
    ensures MomentsOf(Moved(values, a, t)).sum == MovedSum(MomentsOf(values), a, t)
    ensures MomentsOf(Moved(values, a, t)).squares == MovedSquares(MomentsOf(values), a, t)
  {
    if values != [] {
      hide Move, MovedSum, MovedSquares, Square;
      var n := |values| - 1;
      var before, x := values[..n], values[n];
      MovedSums(before, a, t);
      MomentsSnoc(Moved(before, a, t), Move(x, a, t));
      OneMore(MomentsOf(before), x, a, t);
      OneMoreSquare(MomentsOf(before), x, a, t);
    }
  }

  lemma {:induction false} SquaresNonNegative(values: seq<real>)
    ensures MomentsOf(values).squares >= 0.0
  {
    if values != [] {
      SquaresNonNegative(values[..|values| - 1]);
    }
  }

  /** The spread around the mean is the variance times the count. */
  lemma SpreadIsVariance(m: Moments, t: real)
    requires m.count > 0
    ensures MovedSum(m, Mean(m), t) == 0.0
    ensures MovedSquares(m, Mean(m), t) == m.count as real * Variance(m) * (t * t)
  {
    var n, mean := m.count as real, Mean(m);
    assert n * mean == m.sum;
    var v := m.squares / n;
    assert n * v == m.squares;
    assert 2.0 * mean * m.sum == 2.0 * (n * (mean * mean));
    assert m.squares - 2.0 * mean * m.sum + n * (mean * mean) == n * (v - mean * mean);
  }

  lemma Negative(n: real, x: real, square: real)
    requires n > 0.0 && square > 0.0 && x < 0.0
    ensures n * x * square < 0.0
  {
    assert n * x < 0.0;
  }

  lemma Positive(n: real, x: real, square: real)
    requires n > 0.0 && square > 0.0 && n * x * square >= 0.0
    ensures x >= 0.0
  {
    if x < 0.0 {
      Negative(n, x, square);
      assert false;
    }
  }

  /** E[X^2] - E[X]^2 is never negative. */
  lemma VarianceNonNegative(values: seq<real>)
    requires values != []
    ensures Variance(MomentsOf(values)) >= 0.0
  {
    var m := MomentsOf(values);
    assert m.count > 0;
    hide *;
    var moved := MovedSquares(m, Mean(m), 1.0);
    assert moved >= 0.0 by {
      MovedSums(values, Mean(m), 1.0);
      SquaresNonNegative(Moved(values, Mean(m), 1.0));
    }
    assert moved == m.count as real * Variance(m) * (1.0 * 1.0) by {
      SpreadIsVariance(m, 1.0);
    }
    Positive(m.count as real, Variance(m), 1.0 * 1.0);
  }

  lemma StandardIsMove(x: real, mean: real, dev: real)
    requires dev != 0.0
    ensures Standard(x, mean, dev) == Move(x, mean, 1.0 / dev)
  {
  }

  lemma {:induction false} StandardsAreMoved(values: seq<real>, mean: real, dev: real)
    requires dev != 0.0
    ensures Standards(values, mean, dev) == Moved(values, mean, 1.0 / dev)
  {
    hide Standard, Move;
    if values != [] {
      var n := |values| - 1;
      StandardsAreMoved(values[..n], mean, dev);
      StandardIsMove(values[n], mean, dev);
    }
  }

  lemma Inverse(d: real, v: real)
    requires d != 0.0 && d * d == v
    ensures v * ((1.0 / d) * (1.0 / d)) == 1.0
  {
    var t := 1.0 / d;
    assert t * d == 1.0;
    assert (d * d) * (t * t) == (t * d) * (t * d);
  }

  lemma StandardMoments(m: Moments, scaled: Moments, dev: real)
    requires m.count > 0 && dev != 0.0 && dev * dev == Variance(m) && scaled.count == m.count
    requires scaled.sum == MovedSum(m, Mean(m), 1.0 / dev) && scaled.squares == MovedSquares(m, Mean(m), 1.0 / dev)
    ensures Mean(scaled) == 0.0 && Variance(scaled) == 1.0
  {
    SpreadIsVariance(m, 1.0 / dev);
    Inverse(dev, Variance(m));
    Cancel(m.count as real, Variance(m), (1.0 / dev) * (1.0 / dev));
    hide MovedSum, MovedSquares, Mean, Variance;
    ZeroOne(scaled);
  }

  lemma RootNonZero(x: real, r: real)
    requires x > 0.0 && r * r == x
    ensures r != 0.0
  {
  }

  /** A column whose variance is not tiny has mean 0 and variance 1 after scaling. */
  lemma ScaledIsStandard(values: seq<real>, root: real -> real)
    requires values != []
    requires var m := MomentsOf(values); Variance(m) > 0.0001 && root(Variance(m)) * root(Variance(m)) == Variance(m)
    ensures var m := MomentsOf(values);
      var scaled := MomentsOf(Standards(values, Mean(m), Deviation(m, root)));
      scaled.count == m.count && Mean(scaled) == 0.0 && Variance(scaled) == 1.0
  {
    var m := MomentsOf(values);
    var dev := root(Variance(m));
    hide MomentsOf, Variance, Mean, MovedSum, MovedSquares, Standards;
    assert Deviation(m, root) == dev;
    RootNonZero(Variance(m), dev);
    StandardsAreMoved(values, Mean(m), dev);
    MovedSums(values, Mean(m), 1.0 / dev);
    StandardMoments(m, MomentsOf(Standards(values, Mean(m), dev)), dev);
  }

  lemma Cancel(n: real, v: real, w: real)
    requires v * w == 1.0
    ensures n * v * w == n
  {
    assert n * v * w == n * (v * w);
  }

  lemma ZeroOne(m: Moments)
    requires m.count > 0 && m.sum == 0.0 && m.squares == m.count as real
    ensures Mean(m) == 0.0 && Variance(m) == 1.0
  {
    var n := m.count as real;
    assert n / n == 1.0;
    assert 0.0 / n == 0.0;
  }

  /** A column whose variance is tiny becomes all zero. */
  lemma ScaledIsFlat(values: seq<real>, root: real -> real, i: nat)
    requires i < |values| && Variance(MomentsOf(values)) <= 0.0001
    ensures var m := MomentsOf(values); Standards(values, Mean(m), Deviation(m, root))[i] == 0.0
  {
    VarianceNonNegative(values);
  }

  /** With a root that is not negative, scaling keeps the order of a column. */
  lemma ScalingKeepsOrder(values: seq<real>, root: real -> real, i: nat, j: nat)
    requires i < |values| && j < |values| && values[i] < values[j]
    requires var v := Variance(MomentsOf(values)); v > 0.0001 && root(v) >= 0.0 && root(v) * root(v) == v
    ensures var m := MomentsOf(values);
      var scaled := Standards(values, Mean(m), Deviation(m, root));
      scaled[i] < scaled[j]
  {
    var m := MomentsOf(values);
    var dev := root(Variance(m));
    RootNonZero(Variance(m), dev);
    assert Deviation(m, root) == dev;
    hide MomentsOf, Variance, Mean, Standards;
    Ordered(values[i] - Mean(m), values[j] - Mean(m), dev);
  }

  lemma Ordered(x: real, y: real, d: real)
    requires x < y && d > 0.0
    ensures x / d < y / d
  {
    var p, q := x / d, y / d;
    assert p * d == x && q * d == y;
    assert (q - p) * d > 0.0;
  }

  lemma {:induction false} StandardsAppend(a: seq<real>, b: seq<real>, mean: real, dev: real)
    ensures Standards(a + b, mean, dev) == Standards(a, mean, dev) + Standards(b, mean, dev)
  {
  }

  /** What a worker scales a column with: deviation and mean. */
  datatype Stat = Stat(dev: real, mean: real)

  ghost function Column(values: seq<real>, g: map<int, Stat>, c: int): seq<real> {
    if c in g then Standards(values, g[c].mean, g[c].dev) else []
  }

  /** The columns of the output are the standards of the columns of the input. */
  ghost predicate RowScaled(out: Row, row: Row, g: map<int, Stat>) {
    forall c :: RowValues(out, c) == Column(RowValues(row, c), g, c)
  }

  ghost predicate Covered(data: seq<Row>, g: map<int, Stat>) {
    forall i, j | 0 <= i < |data| && 0 <= j < |data[i]| :: data[i][j].0 in g
  }

  lemma RowScaledNext(out: Row, row: Row, g: map<int, Stat>, idx: int, val: real)
    requires RowScaled(out, row, g) && idx in g
    ensures RowScaled(out + [(idx, Standard(val, g[idx].mean, g[idx].dev))], row + [(idx, val)], g)
  {
    var e := (idx, Standard(val, g[idx].mean, g[idx].dev));
    assert (out + [e])[..|out|] == out && (row + [(idx, val)])[..|row|] == row;
    hide Standard;
    forall c ensures RowValues(out + [e], c) == Column(RowValues(row + [(idx, val)], c), g, c) {
      if c in g {
        StandardsAppend(RowValues(row, c), if c == idx then [val] else [], g[c].mean, g[c].dev);
      }
    }
  }

  /** The inner loop of scale_data, which overwrites the row entry by entry. */
  method ScaleRow(was: Row, g: map<int, Stat>) returns (row: Row)
    requires forall j | 0 <= j < |was| :: was[j].0 in g
    ensures RowScaled(row, was, g)
  {
    row := was;
    assert RowScaled(row[..0], was[..0], g);
    hide *;
    for j := 0 to |was|
      invariant |row| == |was| && forall k | j <= k < |was| :: row[k] == was[k]
      invariant RowScaled(row[..j], was[..j], g)
    {
      var idx, val := row[j].0, row[j].1;
      RowScaledNext(row[..j], was[..j], g, idx, val);
      ghost var done := row[..j];
      row := row[j := (idx, Standard(val, g[idx].mean, g[idx].dev))];
      assert row[..j + 1] == done + [row[j]] && was[..j + 1] == was[..j] + [(idx, val)];
    }
    assert row[..|was|] == row && was[..|was|] == was;
  }

  ghost predicate DataScaled(out: seq<Row>, data: seq<Row>, g: map<int, Stat>) {
    forall c :: Values(out, c) == Column(Values(data, c), g, c)
  }

  /** scale_data */
  method ScaleData(data: seq<Row>, g: map<int, Stat>) returns (scaled: seq<Row>)
    requires Covered(data, g)
    ensures DataScaled(scaled, data, g)
  {
    scaled := [];
    assert DataScaled([], data[..0], g);
    for i := 0 to |data|
      invariant DataScaled(scaled, data[..i], g)
    {
      var row := ScaleRow(data[i], g);
      DataScaledNext(scaled, data[..i], g, row, data[i]);
      assert data[..i + 1] == data[..i] + [data[i]];
      hide DataScaled;
      scaled := scaled + [row];
    }
    assert data[..|data|] == data;
  }

  lemma DataScaledNext(out: seq<Row>, data: seq<Row>, g: map<int, Stat>, row: Row, was: Row)
    requires DataScaled(out, data, g) && RowScaled(row, was, g)
    ensures DataScaled(out + [row], data + [was], g)
  {
    assert (out + [row])[..|out|] == out && (data + [was])[..|data|] == data;
    hide RowValues, Standards;
    forall c ensures Values(out + [row], c) == Column(Values(data + [was], c), g, c) {
      if c in g {
        StandardsAppend(Values(data, c), RowValues(was, c), g[c].mean, g[c].dev);
      }
    }
  }

  ghost predicate StatsOf(g: map<int, Stat>, local: map<int, Moments>, ranges: map<int, Moments>, root: real -> real) {
    && (forall c :: c in g <==> c in local)
    && (forall c <- g :: c in ranges && ranges[c].count > 0
          && g[c] == Stat(Deviation(ranges[c], root), Mean(ranges[c])))
  }

  /** update_local_maps for one chunk. */
  method UpdateLocal(local: map<int, Moments>, ranges: map<int, Moments>, root: real -> real)
    returns (g: map<int, Stat>)
    requires forall c <- local :: c in ranges && ranges[c].count > 0
    ensures StatsOf(g, local, ranges, root)
  {
    g := map[];
    var left := local.Keys;
    while left != {}
      invariant left <= local.Keys
      invariant forall c :: c in g <==> c in local && c !in left
      invariant forall c <- g :: g[c] == Stat(Deviation(ranges[c], root), Mean(ranges[c]))
      decreases |left|
    {
      hide Deviation, Mean;
      ghost var some := Pick(left);
      var c :| c in left;
      g := g[c := Stat(Deviation(ranges[c], root), Mean(ranges[c]))];
      left := left - {c};
    }
  }

  /** A column of the scaled chunks against the same column of the data. */
  ghost predicate ColumnScaled(scaled: seq<Row>, part: seq<Row>, whole: seq<Row>, c: int, root: real -> real) {
    Values(whole, c) != [] ==>
      var m := MomentsOf(Values(whole, c));
      Values(scaled, c) == Standards(Values(part, c), Mean(m), Deviation(m, root))
  }

  lemma {:induction false} RowOccurs(row: Row, j: nat)
    requires j < |row|
    ensures RowValues(row, row[j].0) != []
  {
    if j < |row| - 1 {
      RowOccurs(row[..|row| - 1], j);
    }
  }

  lemma {:induction false} Occurs(data: seq<Row>, i: nat, j: nat)
    requires i < |data| && j < |data[i]|
    ensures Values(data, data[i][j].0) != []
  {
    hide RowValues;
    if i < |data| - 1 {
      Occurs(data[..|data| - 1], i, j);
    } else {
      RowOccurs(data[i], j);
    }
  }

  lemma {:induction false} WholeHas(chunks: seq<seq<Row>>, i: nat, c: int)
    requires i < |chunks| && Values(chunks[i], c) != []
    ensures Values(Whole(chunks), c) != []
  {
    hide Values;
    var n := |chunks| - 1;
    ValuesAppend(Whole(chunks[..n]), chunks[n], c);
    if i < n {
      WholeHas(chunks[..n], i, c);
    }
  }

  lemma ChunkScaled(scaled: seq<Row>, chunk: seq<Row>, whole: seq<Row>, g: map<int, Stat>, local: map<int, Moments>,
                    ranges: map<int, Moments>, root: real -> real, c: int)
    requires Sums(local, chunk) && Sums(ranges, whole) && StatsOf(g, local, ranges, root)
    requires DataScaled(scaled, chunk, g)
    ensures ColumnScaled(scaled, chunk, whole, c, root)
  {
    hide Values, Standard, MomentsOf, Deviation, Mean;
    if Values(whole, c) != [] && Values(chunk, c) == [] {
      var m := MomentsOf(Values(whole, c));
      assert Standards([], Mean(m), Deviation(m, root)) == [];
    }
  }

  /** The columns of all scaled chunks against the columns of the whole data. */
  ghost predicate AllScaled(scaled: seq<seq<Row>>, chunks: seq<seq<Row>>, whole: seq<Row>, root: real -> real) {
    forall c :: ColumnScaled(Whole(scaled), Whole(chunks), whole, c, root)
  }

  lemma AllScaledNext(scaled: seq<seq<Row>>, chunks: seq<seq<Row>>, whole: seq<Row>, root: real -> real,
                      out: seq<Row>, chunk: seq<Row>)
    requires AllScaled(scaled, chunks, whole, root)
    requires forall c :: ColumnScaled(out, chunk, whole, c, root)
    ensures AllScaled(scaled + [out], chunks + [chunk], whole, root)
  {
    assert (scaled + [out])[..|scaled|] == scaled && (chunks + [chunk])[..|chunks|] == chunks;
    hide Values, MomentsOf, Mean, Deviation, Standards;
    forall c ensures ColumnScaled(Whole(scaled + [out]), Whole(chunks + [chunk]), whole, c, root) {
      assert ColumnScaled(out, chunk, whole, c, root) && ColumnScaled(Whole(scaled), Whole(chunks), whole, c, root);
      ValuesAppend(Whole(scaled), out, c);
      ValuesAppend(Whole(chunks), chunk, c);
      if Values(whole, c) != [] {
        var m := MomentsOf(Values(whole, c));
        StandardsAppend(Values(Whole(chunks), c), Values(chunk, c), Mean(m), Deviation(m, root));
      }
    }
  }

  lemma NothingScaled(whole: seq<Row>, root: real -> real)
    ensures AllScaled([], [], whole, root)
  {
    hide MomentsOf, Mean, Deviation;
  }

  lemma ColumnIs(scaled: seq<Row>, whole: seq<Row>, c: int, root: real -> real)
    requires ColumnScaled(scaled, whole, whole, c, root) && Values(whole, c) != []
    ensures var m := MomentsOf(Values(whole, c));
      Values(scaled, c) == Standards(Values(whole, c), Mean(m), Deviation(m, root))
  {
  }

  lemma LocalIsGlobal(chunks: seq<seq<Row>>, i: nat, local: map<int, Moments>, ranges: map<int, Moments>)
    requires i < |chunks| && Sums(local, chunks[i]) && Sums(ranges, Whole(chunks))
    ensures forall c <- local :: c in ranges && ranges[c].count > 0
  {
    hide Values, Whole;
    forall c | c in local ensures c in ranges && ranges[c].count > 0 {
      WholeHas(chunks, i, c);
    }
  }

  lemma ChunkCovered(chunk: seq<Row>, local: map<int, Moments>, g: map<int, Stat>, ranges: map<int, Moments>,
                     root: real -> real)
    requires Sums(local, chunk) && StatsOf(g, local, ranges, root)
    ensures Covered(chunk, g)
  {
    hide Values, MomentsOf;
    forall i, j | 0 <= i < |chunk| && 0 <= j < |chunk[i]| ensures chunk[i][j].0 in g {
      Occurs(chunk, i, j);
    }
  }

  /** The whole scaling of a dataset cut into chunks: whatever the cut, every column of the output is the
      column of the input minus its mean over its deviation, both taken over the whole data. */
  method ScaleAll(chunks: seq<seq<Row>>, root: real -> real) returns (scaled: seq<seq<Row>>)
    ensures |scaled| == |chunks|
    ensures forall c | Values(Whole(chunks), c) != [] ::
              var m := MomentsOf(Values(Whole(chunks), c));
              Values(Whole(scaled), c) == Standards(Values(Whole(chunks), c), Mean(m), Deviation(m, root))
  {
    NothingScaled(Whole(chunks), root);
    assert chunks[..0] == [];
    hide Sums, Covered, StatsOf, DataScaled, ColumnScaled, Values, MomentsOf, Mean, Deviation, Standards;
    var ranges := GetGlobalMap(chunks);
    scaled := [];
    for i := 0 to |chunks|
      invariant |scaled| == i && AllScaled(scaled, chunks[..i], Whole(chunks), root)
    {
      hide AllScaled, Whole;
      var local := GetDataRanges(chunks[i]);
      LocalIsGlobal(chunks, i, local, ranges);
      var g := UpdateLocal(local, ranges, root);
      ChunkCovered(chunks[i], local, g, ranges, root);
      var out := ScaleData(chunks[i], g);
      forall c ensures ColumnScaled(out, chunks[i], Whole(chunks), c, root) {
        ChunkScaled(out, chunks[i], Whole(chunks), g, local, ranges, root, c);
      }
      AllScaledNext(scaled, chunks[..i], Whole(chunks), root, out, chunks[i]);
      assert chunks[..i + 1] == chunks[..i] + [chunks[i]];
      scaled := scaled + [out];
    }
    assert chunks[..|chunks|] == chunks;
    forall c | Values(Whole(chunks), c) != []
      ensures var m := MomentsOf(Values(Whole(chunks), c));
        Values(Whole(scaled), c) == Standards(Values(Whole(chunks), c), Mean(m), Deviation(m, root))
    {
      assert ColumnScaled(Whole(scaled), Whole(chunks), Whole(chunks), c, root);
      ColumnIs(Whole(scaled), Whole(chunks), c, root);
    }
  }
}
