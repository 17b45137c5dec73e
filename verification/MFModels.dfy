/** The dense matrix-factorization model the parameter server holds: flat weight vectors
    updated in place. */
module MFModels {
  import opened Factorization
  import opened GradientShift
  import opened MFGradients
  import opened Multiples
  import opened Repeats
  import opened Sets
  import opened Slices
  import opened Words

  /** The factors of entity e. */
  ghost function Factors(weights: seq<real>, e: nat, factors: nat): (w: seq<real>)
    requires Times(e, factors) + factors <= |weights|
    ensures |w| == factors
  {
    weights[Times(e, factors)..Times(e, factors) + factors]
  }

  /** The entities stored in a bias vector and a flat weight vector. */
  ghost function Table(bias: seq<real>, weights: seq<real>, factors: nat): (t: map<int, Entity>)
    requires |weights| == Times(|bias|, factors)
    ensures forall e :: e in t <==> 0 <= e < |bias|
    ensures forall e <- t :: |t[e].weights| == factors
  {
    map e: int | 0 <= e < |bias| :: TimesApart(e, |bias|, factors); Entity(bias[e], Factors(weights, e, factors))
  }

  /** The weight vector after entity e's factors have been replaced. */
  ghost function Patched(weights: seq<real>, e: nat, w: seq<real>): (r: seq<real>)
    requires Times(e, |w|) + |w| <= |weights|
    ensures |r| == |weights|
  {
    weights[..Times(e, |w|)] + w + weights[Times(e, |w|) + |w|..]
  }

  ghost function Splice(left: seq<real>, middle: seq<real>, right: seq<real>): seq<real> {
    left + middle + right
  }

  /** Overwriting the element after the middle part grows the middle part. */
  lemma SpliceNext(left: seq<real>, middle: seq<real>, right: seq<real>, x: real)
    requires right != []
    ensures |left| + |middle| < |Splice(left, middle, right)|
    ensures Splice(left, middle, right)[|left| + |middle|] == right[0]
    ensures Splice(left, middle, right)[|left| + |middle| := x] == Splice(left, middle + [x], right[1..])
  {
  }

  lemma PatchedFactors(weights: seq<real>, e: nat, w: seq<real>)
    requires Times(e, |w|) + |w| <= |weights|
    ensures Factors(Patched(weights, e, w), e, |w|) == w
  {
  }

  lemma PatchedOthers(weights: seq<real>, e: nat, w: seq<real>, o: nat)
    requires e != o && Times(e, |w|) + |w| <= |weights| && Times(o, |w|) + |w| <= |weights|
    ensures Factors(Patched(weights, e, w), o, |w|) == Factors(weights, o, |w|)
  {
    hide Times;
    if e < o {
      TimesApart(e, o, |w|);
    } else {
      TimesApart(o, e, |w|);
    }
    var x, y := Times(e, |w|), Times(o, |w|);
    assert forall j | 0 <= j < |weights| && !(x <= j < x + |w|) :: Patched(weights, e, w)[j] == weights[j];
  }

  /** Writing one bias and one entity's factors is updating one entry of the table. */
  lemma TableUpdate(bias: seq<real>, weights: seq<real>, e: nat, entity: Entity)
    requires |weights| == Times(|bias|, |entity.weights|) && e < |bias|
    ensures Times(e, |entity.weights|) + |entity.weights| <= |weights|
    ensures Table(bias[e := entity.bias], Patched(weights, e, entity.weights), |entity.weights|)
         == Table(bias, weights, |entity.weights|)[e := entity]
  {
    var factors := |entity.weights|;
    TimesApart(e, |bias|, factors);
    var bias', weights' := bias[e := entity.bias], Patched(weights, e, entity.weights);
    PatchedFactors(weights, e, entity.weights);
    forall o: nat | o < |bias| && o != e
      ensures Times(o, factors) + factors <= |weights| && Factors(weights', o, factors) == Factors(weights, o, factors)
    {
      TimesApart(o, |bias|, factors);
      PatchedOthers(weights, e, entity.weights, o);
    }
    SameIntMap(Table(bias', weights', factors), Table(bias, weights, factors)[e := entity]);
  }

  class MFModel {
    var nusers: nat
    var nitems: nat
    var nfactors: nat
    var userBias: seq<real>
    var itemBias: seq<real>
    var userWeights: seq<real>
    var itemWeights: seq<real>
    const userBiasReg: real
    const itemBiasReg: real
    const userFactReg: real
    const itemFactReg: real

    ghost predicate Valid()
      reads this
    {
      && |userBias| == nusers && |userWeights| == Times(nusers, nfactors)
      && |itemBias| == nitems && |itemWeights| == Times(nitems, nfactors)
    }

    ghost function View(): (m: Model)
      requires Valid()
      reads this
      ensures Shaped(m, nfactors)
      ensures forall u :: u in m.users <==> 0 <= u < nusers
      ensures forall i :: i in m.items <==> 0 <= i < nitems
    {
      Model(Table(userBias, userWeights, nfactors), Table(itemBias, itemWeights, nfactors))
    }

    function Regularized(rate: real): Hyper {
      Hyper(rate, userBiasReg, itemBiasReg, userFactReg, itemFactReg)
    }

    /** The constructor for a model of the given shape, before randomize: any initial values. */
    constructor (users: nat, items: nat, factors: nat, reg: real,
                 ub: seq<real>, ib: seq<real>, uw: seq<real>, iw: seq<real>)
      requires |ub| == users && |uw| == Times(users, factors)
      requires |ib| == items && |iw| == Times(items, factors)
      ensures Valid() && nusers == users && nitems == items && nfactors == factors
      ensures userBias == ub && itemBias == ib && userWeights == uw && itemWeights == iw
      ensures userBiasReg == itemBiasReg == userFactReg == itemFactReg == reg
    {
      nusers, nitems, nfactors := users, items, factors;
      userBias, itemBias, userWeights, itemWeights := ub, ib, uw, iw;
      userBiasReg, itemBiasReg, userFactReg, itemFactReg := reg, reg, reg, reg;
    }

    method PredictRating(user: nat, item: nat) returns (res: real)
      requires Valid() && user < nusers && item < nitems
      ensures user in View().users && item in View().items
      ensures res == Predict(View().users[user], View().items[item])
    {
      TimesApart(user, nusers, nfactors);
      TimesApart(item, nitems, nfactors);
      var u := FlatIndex(user, nfactors);
      var i := FlatIndex(item, nfactors);
      ghost var uw, iw := Factors(userWeights, user, nfactors), Factors(itemWeights, item, nfactors);
      res := GLOBAL_BIAS + userBias[user] + itemBias[item];
      for k := 0 to nfactors
        invariant res == GLOBAL_BIAS + userBias[user] + itemBias[item] + Dot(uw, iw, k)
      {
        res := res + userWeights[u + k] * itemWeights[i + k];
      }
    }

    /** The body of the rating loop of sgd_update. */
    method TrainOne(user: nat, item: nat, score: real, h: Hyper)
      requires Valid() && user < nusers && item < nitems
      modifies this`userBias, this`itemBias, this`userWeights, this`itemWeights
      ensures Valid()
      ensures View() == Train(old(View()), Rating(user, item, score), h)
    {
      hide Table, Times;
      var pred := PredictRating(user, item);
      TimesApart(user, nusers, nfactors);
      TimesApart(item, nitems, nfactors);
      userBias, itemBias, userWeights, itemWeights :=
        TrainFlat(userBias, userWeights, user, itemBias, itemWeights, item, nfactors, score - pred, h);
    }

    ghost predicate Knows(r: Rating)
      reads this
    {
      0 <= r.user < nusers && 0 <= r.item < nitems
    }

    /** sgd_update on a dataset: train on every rating in place, in visiting order, until one
        names a user or an item the model does not have, where the source throws. */
    method SgdUpdateRows(rate: real, base: nat, rows: seq<Row>) returns (ok: bool, ghost seen: seq<Rating>)
      requires Valid()
      modifies this`userBias, this`itemBias, this`userWeights, this`itemWeights
      ensures Valid()
      ensures Trained(old(View()), seen, View(),
                      Hyper(rate, userBiasReg, itemBiasReg, userFactReg, itemFactReg), nfactors)
      ensures ok ==> seen == Ratings(base, rows)
      ensures !ok ==> seen < Ratings(base, rows) && !Knows(Ratings(base, rows)[|seen|])
    {
      ok, seen := true, [];
      ghost var was, h := View(), Regularized(rate);
      TrainedNot(was, h, nfactors);
      VisitedBounds(base, rows, 0);
      hide *;
      for i := 0 to |rows|
        invariant Valid() && seen == Visited(base, rows, i, 0)
        invariant Trained(was, seen, View(), h, nfactors)
      {
        ok, seen := TrainRow(rate, base, rows, i, was, seen);
        if !ok {
          return;
        }
        VisitedBounds(base, rows, i);
      }
    }

    /** The inner loop of sgd_update: the ratings of row i. */
    method TrainRow(rate: real, base: nat, rows: seq<Row>, i: nat, ghost was: Model, ghost before: seq<Rating>)
      returns (ok: bool, ghost seen: seq<Rating>)
      requires Valid() && Shaped(was, nfactors)
      requires i < |rows| && before == Visited(base, rows, i, 0)
      requires Trained(was, before, View(), Regularized(rate), nfactors)
      modifies this`userBias, this`itemBias, this`userWeights, this`itemWeights
      ensures Valid()
      ensures Trained(was, seen, View(), Regularized(rate), nfactors)
      ensures ok ==> seen == Visited(base, rows, i, |rows[i]|)
      ensures !ok ==> seen < Ratings(base, rows) && !Knows(Ratings(base, rows)[|seen|])
    {
      seen := before;
      ghost var h := Regularized(rate);
      hide Trained, Visited, View, Train, Shaped, Ratings, Valid;
      for j := 0 to |rows[i]|
        invariant Valid() && seen == Visited(base, rows, i, j)
        invariant Trained(was, seen, View(), h, nfactors)
      {
        var user, item, score := base + i, rows[i][j].0, rows[i][j].1;
        ghost var rating := Rating(user, item, score);
        VisitOrder(base, rows, i, j);
        if !(0 <= item < nitems) || user >= nusers {
          assert Visited(base, rows, i, j + 1)[|seen|] == rating;
          return false, seen;
        }
        TrainedSnoc(was, seen, View(), h, nfactors, rating);
        TrainOne(user, item, score, Regularized(rate));
        seen := seen + [rating];
      }
      ok := true;
    }

    /** serializeFromDense: the slice for the minibatch's users and the requested items, or nothing
        where an id is too large and the accessor throws. */
    method SerializeSlice(base: nat, count: nat, items: seq<int>) returns (ok: bool, mem: seq<Word>)
      requires Valid() && nfactors == NUM_FACTORS
      requires forall i | 0 <= i < |items| :: 0 <= items[i]
      ensures ok <==> (count == 0 || base + count <= nusers) && forall i | 0 <= i < |items| :: items[i] < nitems
      ensures ok ==> mem == SliceWords(Span(base, count), View().users) + SliceWords(items, View().items)
    {
      ok, mem := StoreUsers(base, count, nusers, userBias, userWeights, nfactors);
      if ok {
        var rest;
        ok, rest := StoreItems(items, nitems, itemBias, itemWeights, nfactors);
        mem := mem + rest;
      }
    }

    /** getSerializedSize */
    function SerializedSize(): nat
      reads this
    {
      8 * 3 + |userBias| * 4 + |itemBias| * 4 + |userWeights| * 4 + |itemWeights| * 4
    }

    /** serializeTo: the sizes, then the four vectors. */
    method SerializeTo() returns (mem: seq<Word>)
      ensures mem == ModelWords(nusers, nitems, nfactors, userBias, itemBias, userWeights, itemWeights)
      ensures WORD_BYTES * |mem| == SerializedSize()
    {
      mem := StoreLong(nusers) + StoreLong(nitems) + StoreLong(nfactors);
      mem := AppendAll(mem, userBias);
      mem := AppendAll(mem, itemBias);
      mem := AppendAll(mem, userWeights);
      mem := AppendAll(mem, itemWeights);
    }

    /** loadSerialized on a buffer that serializeTo wrote for a valid model: the sizes, biases and
        weights of that model, whatever this one held. */
    method LoadSerialized(mem: seq<Word>, ghost n: nat, ghost m: nat, ghost f: nat,
                          ghost ub: seq<real>, ghost ib: seq<real>, ghost uw: seq<real>, ghost iw: seq<real>)
      requires |ub| == n < TWO_32 && |uw| == Times(n, f)
      requires |ib| == m < TWO_32 && |iw| == Times(m, f) && f < TWO_32
      requires mem == ModelWords(n, m, f, ub, ib, uw, iw)
      modifies this
      ensures Valid()
      ensures nusers == n && nitems == m && nfactors == f
      ensures userBias == ub && itemBias == ib && userWeights == uw && itemWeights == iw
    {
      LoadStoreLong(n);
      LoadStoreLong(m);
      LoadStoreLong(f);
      nusers, nitems, nfactors := LoadLong(mem[0], mem[1]), LoadLong(mem[2], mem[3]), LoadLong(mem[4], mem[5]);
      ModelWordsParts(mem, n, m, f, ub, ib, uw, iw);
      userBias := ReadVec(mem, 6, nusers, ub);
      itemBias := ReadVec(mem, 6 + nusers, nitems, ib);
      var users := FlatIndex(nusers, nfactors);
      var items := FlatIndex(nitems, nfactors);
      userWeights := ReadTable(mem, 6 + nusers + nitems, nusers, nfactors, uw);
      itemWeights := ReadTable(mem, 6 + nusers + nitems + users, nitems, nfactors, iw);
    }

    /** What sgd_update takes for granted: biases of this model's ids, which it indexes unchecked. */
    ghost predicate Accepts(g: MFGradient)
      reads this
    {
      && nfactors == NUM_FACTORS && SendableBlocks(g.usersWeights) && SendableBlocks(g.itemsWeights)
      && (forall u <- g.usersBias :: 0 <= u < nusers) && (forall i <- g.itemsBias :: 0 <= i < nitems)
    }

    /** sgd_update with a worker's gradient: the model is shifted by it, or by what comes before the first
        block of an unknown id, at which an accessor throws. */
    method SgdUpdate(g: MFGradient) returns (ok: bool, ghost users: nat, ghost items: nat)
      requires Valid() && Accepts(g)
      modifies this`userBias, this`itemBias, this`userWeights, this`itemWeights
      ensures Valid()
      ensures ok <==> Known(g.usersWeights, nusers) && Known(g.itemsWeights, nitems)
      ensures IsKnownPart(g.usersWeights, nusers, users)
      ensures if users < |g.usersWeights| then items == 0 else IsKnownPart(g.itemsWeights, nitems, items)
      ensures View() == Shift(old(View()), g.(usersWeights := g.usersWeights[..users],
                                              itemsWeights := g.itemsWeights[..items]))
    {
      hide Times, Factors, AddBlocks, BiasOf;
      ghost var ub, ib, uw, iw := userBias, itemBias, userWeights, itemWeights;
      userBias := AddBiases(userBias, g.usersBias);
      itemBias := AddBiases(itemBias, g.itemsBias);
      ok, userWeights, users := AddAllBlocks(userWeights, nusers, g.usersWeights);
      items := 0;
      if ok {
        ok, itemWeights, items := AddAllBlocks(itemWeights, nitems, g.itemsWeights);
      } else {
        NoBlocks(iw, nitems);
      }
      ShiftedTable(ub, uw, userBias, userWeights, g.usersBias, g.usersWeights[..users]);
      ShiftedTable(ib, iw, itemBias, itemWeights, g.itemsBias, g.itemsWeights[..items]);
    }
  }

  ghost predicate Known(blocks: seq<Block>, n: nat) {
    forall i | 0 <= i < |blocks| :: 0 <= blocks[i].0 < n
  }

  /** Whether the first `count` blocks are those before the first unknown id. */
  ghost predicate IsKnownPart(blocks: seq<Block>, n: nat, count: nat) {
    count <= |blocks| && Known(blocks[..count], n) && (count < |blocks| ==> !(0 <= blocks[count].0 < n))
  }

  method StoreUsers(base: nat, count: nat, n: nat, bias: seq<real>, weights: seq<real>, factors: nat)
    returns (ok: bool, mem: seq<Word>)
    requires |weights| == Times(|bias|, factors) && n == |bias|
    ensures ok <==> count == 0 || base + count <= n
    ensures ok ==> mem == SliceWords(Span(base, count), Table(bias, weights, factors))
  {
    ghost var t := Table(bias, weights, factors);
    mem := [];
    SliceWordsEmpty(t);
    hide SliceWords, Table, Times;
    for i := 0 to count
      invariant i == 0 || base + i <= n
      invariant mem == SliceWords(Span(base, i), t)
    {
      if base + i >= n {
        return false, mem;
      }
      mem := AppendEntity(mem, base + i, n, bias, weights, factors);
      SliceWordsSnoc(Span(base, i), base + i, t);
    }
    ok := true;
  }

  method StoreItems(items: seq<int>, n: nat, bias: seq<real>, weights: seq<real>, factors: nat)
    returns (ok: bool, mem: seq<Word>)
    requires |weights| == Times(|bias|, factors) && n == |bias|
    requires forall i | 0 <= i < |items| :: 0 <= items[i]
    ensures ok <==> forall i | 0 <= i < |items| :: items[i] < n
    ensures ok ==> mem == SliceWords(items, Table(bias, weights, factors))
  {
    ghost var t := Table(bias, weights, factors);
    mem := [];
    SliceWordsEmpty(t);
    hide SliceWords, Table, Times;
    for i := 0 to |items|
      invariant forall k | 0 <= k < i :: items[k] < n
      invariant mem == SliceWords(items[..i], t)
    {
      if items[i] >= n {
        return false, mem;
      }
      mem := AppendEntity(mem, items[i], n, bias, weights, factors);
      SliceWordsSnoc(items[..i], items[i], t);
      assert items[..i + 1] == items[..i] + [items[i]];
    }
    assert items[..|items|] == items;
    ok := true;
  }

  ghost function ModelWords(n: nat, m: nat, f: nat, ub: seq<real>, ib: seq<real>, uw: seq<real>,
                            iw: seq<real>): seq<Word> {
    StoreLong(n) + StoreLong(m) + StoreLong(f)
    + FeatureWords(ub) + FeatureWords(ib) + FeatureWords(uw) + FeatureWords(iw)
  }

  ghost predicate Holds(mem: seq<Word>, at: nat, values: seq<real>) {
    at + |values| <= |mem| && forall j | 0 <= j < |values| :: mem[at + j] == Feature(values[j])
  }

  lemma ModelWordsParts(mem: seq<Word>, n: nat, m: nat, f: nat, ub: seq<real>, ib: seq<real>, uw: seq<real>,
                        iw: seq<real>)
    requires |ub| == n && |ib| == m && mem == ModelWords(n, m, f, ub, ib, uw, iw)
    ensures Holds(mem, 6, ub) && Holds(mem, 6 + n, ib) && Holds(mem, 6 + n + m, uw)
    ensures Holds(mem, 6 + n + m + |uw|, iw)
  {
    var head := StoreLong(n) + StoreLong(m) + StoreLong(f);
    HoldsChain(head, ub, ib, uw, iw);
  }

  lemma HoldsChain(head: seq<Word>, ub: seq<real>, ib: seq<real>, uw: seq<real>, iw: seq<real>)
    ensures var mem := head + FeatureWords(ub) + FeatureWords(ib) + FeatureWords(uw) + FeatureWords(iw);
      && Holds(mem, |head|, ub) && Holds(mem, |head| + |ub|, ib) && Holds(mem, |head| + |ub| + |ib|, uw)
      && Holds(mem, |head| + |ub| + |ib| + |uw|, iw)
  {
    var a := head + FeatureWords(ub);
    var b := a + FeatureWords(ib);
    var c := b + FeatureWords(uw);
    hide FeatureWords, Holds;
    HoldsNext(head, ub);
    HoldsNext(a, ib);
    HoldsNext(b, uw);
    HoldsNext(c, iw);
    HoldsStill(a, |head|, ub, FeatureWords(ib));
    HoldsStill(b, |head|, ub, FeatureWords(uw));
    HoldsStill(c, |head|, ub, FeatureWords(iw));
    HoldsStill(b, |a|, ib, FeatureWords(uw));
    HoldsStill(c, |a|, ib, FeatureWords(iw));
    HoldsStill(c, |b|, uw, FeatureWords(iw));
  }

  lemma HoldsNext(mem: seq<Word>, values: seq<real>)
    ensures Holds(mem + FeatureWords(values), |mem|, values)
  {
  }

  lemma HoldsStill(mem: seq<Word>, at: nat, values: seq<real>, more: seq<Word>)
    requires Holds(mem, at, values)
    ensures Holds(mem + more, at, values)
  {
  }

  method AppendAll(mem: seq<Word>, values: seq<real>) returns (out: seq<Word>)
    ensures out == mem + FeatureWords(values)
  {
    out := mem;
    for i := 0 to |values|
      invariant out == mem + FeatureWords(values[..i])
    {
      out := out + [Feature(values[i])];
    }
    assert values[..|values|] == values;
  }

  method ReadVec(mem: seq<Word>, at: nat, n: nat, ghost values: seq<real>) returns (out: seq<real>)
    requires |values| == n && Holds(mem, at, values)
    ensures out == values
  {
    out := Zeros(n);
    for i := 0 to n
      invariant |out| == n && out[..i] == values[..i]
    {
      assert mem[at + i] == Feature(values[i]);
      out := out[i := mem[at + i].value];
    }
  }

  /** The nested loops that read a weight table: entity i's factor j goes to its flat index. */
  method ReadTable(mem: seq<Word>, at: nat, n: nat, factors: nat, ghost values: seq<real>) returns (out: seq<real>)
    requires |values| == Times(n, factors) && Holds(mem, at, values)
    ensures out == values
  {
    var size := FlatIndex(n, factors);
    out := Zeros(size);
    var next := at;
    for i := 0 to n
      invariant |out| == size && next == at + Times(i, factors)
      invariant Times(i, factors) <= size && out[..Times(i, factors)] == values[..Times(i, factors)]
    {
      TimesApart(i, n, factors);
      var row := FlatIndex(i, factors);
      for j := 0 to factors
        invariant |out| == size && next == at + row + j
        invariant out[..row + j] == values[..row + j]
      {
        assert next == at + (row + j) && mem[at + (row + j)] == Feature(values[row + j]);
        out := out[row + j := mem[next].value];
        next := next + 1;
      }
    }
  }

  /** Stores one entity's id, bias and factors. */
  method AppendEntity(mem: seq<Word>, e: nat, n: nat, bias: seq<real>, weights: seq<real>, factors: nat)
    returns (out: seq<Word>)
    requires |weights| == Times(|bias|, factors) && n == |bias| && e < n
    ensures out == mem + EntityWords(e, EntityOf(e, Table(bias, weights, factors)))
  {
    TimesApart(e, n, factors);
    var at := FlatIndex(e, factors);
    ghost var w := Factors(weights, e, factors);
    hide Times;
    out := mem + [StoreInt(e), Feature(bias[e])];
    ghost var head := out;
    for j := 0 to factors
      invariant out == head + FeatureWords(w[..j])
    {
      out := out + [Feature(weights[at + j])];
    }
    assert w[..factors] == w;
  }

  method AddBiases(bias: seq<real>, shift: map<int, real>) returns (out: seq<real>)
    requires forall k <- shift :: 0 <= k < |bias|
    ensures |out| == |bias|
    ensures forall e | 0 <= e < |bias| :: out[e] == bias[e] + BiasOf(e, shift)
  {
    out := bias;
    var left := shift.Keys;
    while left != {}
      invariant left <= shift.Keys && |out| == |bias|
      invariant forall e | 0 <= e < |bias| :: out[e] == if e in left then bias[e] else bias[e] + BiasOf(e, shift)
    {
      ghost var some := Pick(left);
      var k :| k in left;
      out := out[k := out[k] + shift[k]];
      left := left - {k};
    }
  }

  /** Adds a block to one entity's factors. */
  method AddToFactors(weights: seq<real>, e: nat, v: seq<real>) returns (out: seq<real>)
    requires Times(e, |v|) + |v| <= |weights|
    ensures out == Patched(weights, e, AddVec(Factors(weights, e, |v|), v))
  {
    var at := FlatIndex(e, |v|);
    ghost var w := Factors(weights, e, |v|);
    hide Times;
    out := weights;
    for k := 0 to |v|
      invariant out == Splice(weights[..at], AddVec(w[..k], v[..k]), weights[at + k..])
    {
      hide AddVec;
      assert weights[at + k..][0] == w[k];
      AddVecSnoc(w, v, k);
      SpliceNext(weights[..at], AddVec(w[..k], v[..k]), weights[at + k..], w[k] + v[k]);
      out := out[at + k := out[at + k] + v[k]];
    }
    assert w[..|v|] == w && v[..|v|] == v;
  }

  lemma NoBlocks(weights: seq<real>, n: nat)
    requires |weights| == Times(n, NUM_FACTORS)
    ensures forall e: nat | e < n ::
      && Times(e, NUM_FACTORS) + NUM_FACTORS <= |weights|
      && Factors(weights, e, NUM_FACTORS) == AddBlocks(Factors(weights, e, NUM_FACTORS), [], e)
  {
    forall e: nat | e < n ensures Times(e, NUM_FACTORS) + NUM_FACTORS <= |weights| {
      TimesApart(e, n, NUM_FACTORS);
    }
  }

  /** Adds the blocks in order, up to the first whose id is not below n. */
  method AddAllBlocks(weights: seq<real>, n: nat, blocks: seq<Block>)
    returns (ok: bool, out: seq<real>, ghost done: nat)
    requires |weights| == Times(n, NUM_FACTORS)
    requires forall b <- blocks :: |b.1| == NUM_FACTORS
    ensures ok <==> Known(blocks, n)
    ensures IsKnownPart(blocks, n, done) && (ok <==> done == |blocks|)
    ensures |out| == |weights|
    ensures forall b <- blocks[..done] :: |b.1| == NUM_FACTORS
    ensures forall e: nat | e < n ::
      && Times(e, NUM_FACTORS) + NUM_FACTORS <= |weights|
      && Factors(out, e, NUM_FACTORS) == AddBlocks(Factors(weights, e, NUM_FACTORS), blocks[..done], e)
  {
    ok, out, done := true, weights, 0;
    forall e: nat | e < n ensures Times(e, NUM_FACTORS) + NUM_FACTORS <= |weights| {
      TimesApart(e, n, NUM_FACTORS);
    }
    hide Times, Factors, Patched;
    for i := 0 to |blocks|
      invariant ok && done == i && |out| == |weights|
      invariant Known(blocks[..i], n)
      invariant forall b <- blocks[..i] :: |b.1| == NUM_FACTORS
      invariant forall e: nat | e < n ::
        Factors(out, e, NUM_FACTORS) == AddBlocks(Factors(weights, e, NUM_FACTORS), blocks[..i], e)
    {
      ghost var was := out;
      assert blocks[i] in blocks && blocks[..i + 1] == blocks[..i] + [blocks[i]];
      var id, v := blocks[i].0, blocks[i].1;
      if !(0 <= id < n) {
        ok := false;
        return;
      }
      out := AddToFactors(out, id, v);
      done := i + 1;
      forall e: nat | e < n
        ensures Factors(out, e, NUM_FACTORS) == AddBlocks(Factors(weights, e, NUM_FACTORS), blocks[..i + 1], e)
      {
        AddBlocksSnoc(Factors(weights, e, NUM_FACTORS), blocks[..i], blocks[i], e);
        var w := AddVec(Factors(was, id, NUM_FACTORS), v);
        if e == id {
          PatchedFactors(was, id, w);
        } else {
          PatchedOthers(was, id, w, e);
        }
      }
    }
    assert blocks[..|blocks|] == blocks;
  }

  lemma ShiftedTable(bias: seq<real>, weights: seq<real>, bias': seq<real>, weights': seq<real>,
                     shift: map<int, real>, blocks: seq<Block>)
    requires |weights'| == |weights| == Times(|bias|, NUM_FACTORS) && |bias'| == |bias|
    requires forall b <- blocks :: |b.1| == NUM_FACTORS
    requires forall e | 0 <= e < |bias| :: bias'[e] == bias[e] + BiasOf(e, shift)
    requires forall e: nat | e < |bias| ::
      && Times(e, NUM_FACTORS) + NUM_FACTORS <= |weights|
      && Factors(weights', e, NUM_FACTORS) == AddBlocks(Factors(weights, e, NUM_FACTORS), blocks, e)
    ensures Table(bias', weights', NUM_FACTORS) == ShiftAll(Table(bias, weights, NUM_FACTORS), shift, blocks)
  {
    SameIntMap(Table(bias', weights', NUM_FACTORS), ShiftAll(Table(bias, weights, NUM_FACTORS), shift, blocks));
  }

  method TrainFlat(ub: seq<real>, uw: seq<real>, user: nat, ib: seq<real>, iw: seq<real>, item: nat,
                   factors: nat, error: real, h: Hyper)
    returns (ub': seq<real>, ib': seq<real>, uw': seq<real>, iw': seq<real>)
    requires |uw| == Times(|ub|, factors) && user < |ub| && Times(user, factors) + factors <= |uw|
    requires |iw| == Times(|ib|, factors) && item < |ib| && Times(item, factors) + factors <= |iw|
    ensures |ub'| == |ub| && |ib'| == |ib| && |uw'| == |uw| && |iw'| == |iw|
    ensures var users, items := Table(ub, uw, factors), Table(ib, iw, factors);
      && Table(ub', uw', factors) == users[user := TrainUser(users[user], items[item], error, h)]
      && Table(ib', iw', factors) == items[item := TrainItem(users[user], items[item], error, h)]
  {
    ub' := ub[user := NudgeBias(ub[user], error, h.rate, h.userBiasReg)];
    ib' := ib[item := NudgeBias(ib[item], error, h.rate, h.itemBiasReg)];
    uw' := NudgeFactors(uw, user, iw, item, factors, error, h.rate, h.userFactReg);
    iw' := NudgeFactors(iw, item, uw', user, factors, error, h.rate, h.itemFactReg);
    TrainTables(ub, uw, user, ib, iw, item, factors, error, h);
  }

  /** The two factor loops and the two bias writes train the user's and the item's table entries. */
  lemma TrainTables(ub: seq<real>, uw: seq<real>, user: nat, ib: seq<real>, iw: seq<real>, item: nat,
                    factors: nat, error: real, h: Hyper)
    requires |uw| == Times(|ub|, factors) && user < |ub| && Times(user, factors) + factors <= |uw|
    requires |iw| == Times(|ib|, factors) && item < |ib| && Times(item, factors) + factors <= |iw|
    ensures
      var users, items := Table(ub, uw, factors), Table(ib, iw, factors);
      var w := NudgeAll(Factors(uw, user, factors), Factors(iw, item, factors), error, h.rate, h.userFactReg);
      var uw' := Patched(uw, user, w);
      var v := NudgeAll(Factors(iw, item, factors), Factors(uw', user, factors), error, h.rate, h.itemFactReg);
      && Table(ub[user := NudgeBias(ub[user], error, h.rate, h.userBiasReg)], uw', factors)
         == users[user := TrainUser(users[user], items[item], error, h)]
      && Table(ib[item := NudgeBias(ib[item], error, h.rate, h.itemBiasReg)], Patched(iw, item, v), factors)
         == items[item := TrainItem(users[user], items[item], error, h)]
  {
    var users, items := Table(ub, uw, factors), Table(ib, iw, factors);
    var newUser := TrainUser(users[user], items[item], error, h);
    var newItem := TrainItem(users[user], items[item], error, h);
    PatchedFactors(uw, user, newUser.weights);
    TableUpdate(ub, uw, user, newUser);
    TableUpdate(ib, iw, item, newItem);
  }

  method FlatIndex(e: nat, factors: nat) returns (at: nat)
    ensures at == Times(e, factors)
  {
    TimesIsProduct(e, factors);
    at := e * factors;
  }

  /** One of the two factor loops: nudge one entity's factors along another entity's. */
  method NudgeFactors(weights: seq<real>, e: nat, along: seq<real>, other: nat, factors: nat,
                      error: real, rate: real, reg: real)
    returns (out: seq<real>)
    requires Times(e, factors) + factors <= |weights| && Times(other, factors) + factors <= |along|
    ensures out == Patched(weights, e, NudgeAll(Factors(weights, e, factors), Factors(along, other, factors),
                                                error, rate, reg))
  {
    var at := FlatIndex(e, factors);
    var from := FlatIndex(other, factors);
    ghost var w, a := Factors(weights, e, factors), Factors(along, other, factors);
    hide Nudge, Times;
    out := weights;
    for k := 0 to factors
      invariant out == Splice(weights[..at], NudgeAll(w[..k], a[..k], error, rate, reg), weights[at + k..])
    {
      hide NudgeAll;
      assert weights[at + k..][0] == w[k] && along[from + k] == a[k];
      NudgeAllSnoc(w, a, error, rate, reg, k);
      SpliceNext(weights[..at], NudgeAll(w[..k], a[..k], error, rate, reg), weights[at + k..],
                 Nudge(w[k], a[k], error, rate, reg));
      out := out[at + k := Nudge(out[at + k], along[from + k], error, rate, reg)];
    }
    assert w[..factors] == w && a[..factors] == a;
  }
}
