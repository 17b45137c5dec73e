/** The worker's private slice of the model: it trains the slice in place and accumulates every
    change it makes into the gradient it will ship. */
module SparseMFModels {
  import opened Factorization
  import opened GradientShift
  import opened MFGradients
  import opened Repeats
  import opened Sets
  import opened Slices
  import opened Tracking
  import opened Words

  const MAX_ITEMS := 17770

  lemma NudgeVecStep(weights: seq<real>, along: seq<real>, acc: seq<real>, error: real, rate: real, reg: real,
                     k: nat, out: seq<real>)
    requires |weights| == |along| == |acc| && k < |weights|
    requires |out| == k && out == NudgeAll(weights[..k], along[..k], error, rate, reg)
    ensures var delta := Move(weights[k], along[k], error, rate, reg);
      && out + [weights[k] + delta] == NudgeAll(weights[..k + 1], along[..k + 1], error, rate, reg)
      && AddVec(acc[..k + 1], SubVec(out + [weights[k] + delta], weights[..k + 1]))
         == AddVec(acc[..k], SubVec(out, weights[..k])) + [acc[k] + delta]
  {
    var delta := Move(weights[k], along[k], error, rate, reg);
    hide Move, NudgeAll, AddVec, SubVec;
    NudgeAllSnoc(weights, along, error, rate, reg, k);
    AddSubAppend(acc[..k], out, weights[..k], acc[k], weights[k] + delta, weights[k]);
    assert acc[..k + 1] == acc[..k] + [acc[k]] && weights[..k + 1] == weights[..k] + [weights[k]];
  }

  /** One of the two factor loops: nudge a factor vector and add each move to an accumulator. */
  method NudgeVec(weights: seq<real>, along: seq<real>, acc: seq<real>, error: real, rate: real, reg: real)
    returns (out: seq<real>, acc': seq<real>)
    requires |weights| == |along| == |acc|
    ensures out == NudgeAll(weights, along, error, rate, reg)
    ensures acc' == AddVec(acc, SubVec(out, weights))
  {
    out, acc' := [], [];
    hide Move;
    for k := 0 to |weights|
      invariant |out| == k && out == NudgeAll(weights[..k], along[..k], error, rate, reg)
      invariant acc' == AddVec(acc[..k], SubVec(out, weights[..k]))
    {
      hide *;
      NudgeVecStep(weights, along, acc, error, rate, reg, k, out);
      var delta := Move(weights[k], along[k], error, rate, reg);
      out := out + [weights[k] + delta];
      acc' := acc' + [acc[k] + delta];
    }
    assert weights[..|weights|] == weights && along[..|along|] == along && acc[..|acc|] == acc;
  }

  lemma SpanAt(base: int, n: nat, t: Model, u: int)
    requires Shaped(t, NUM_FACTORS) && base <= u < base + n && u in t.users
    ensures Span(base, n)[u - base] == u
    ensures EntityOf(u, t.users) == t.users[u] && |t.users[u].weights| == NUM_FACTORS
  {
    hide Span;
  }

  lemma SliceableUsers(base: int, n: nat, t: Model)
    requires Shaped(t, NUM_FACTORS) && 0 <= base && base + n <= TWO_32
    requires forall u | base <= u < base + n :: u in t.users
    ensures Sliceable(Span(base, n), t.users)
  {
    hide Span, EntityOf, Shaped;
    var ids := Span(base, n);
    forall i | 0 <= i < |ids| ensures 0 <= ids[i] < TWO_32 && |EntityOf(ids[i], t.users).weights| == NUM_FACTORS {
      SpanAt(base, n, t, base + i);
    }
  }

  lemma SliceableItems(items: seq<int>, t: Model)
    requires Shaped(t, NUM_FACTORS)
    requires forall i | 0 <= i < |items| :: items[i] in t.items && 0 <= items[i] < TWO_32
    ensures Sliceable(items, t.items)
  {
  }

  lemma InItems(items: seq<int>, item: int, t: Model)
    requires Shaped(t, NUM_FACTORS)
    requires forall i | 0 <= i < |items| :: items[i] in t.items && 0 <= items[i] < TWO_32
    requires item in items
    ensures item in t.items && EntityOf(item, t.items) == t.items[item] && |t.items[item].weights| == NUM_FACTORS
  {
    var i :| 0 <= i < |items| && items[i] == item;
  }

  /** Item ids index a fixed array of this size. */
  function AllItems(): set<int> {
    Interval(0, MAX_ITEMS)
  }

  /** User `u` of the whole model in a slice that starts at user `base`. */
  function UserAt(userModels: seq<(int, Entity)>, base: int, u: int): Entity
    requires base <= u < base + |userModels|
  {
    userModels[u - base].1
  }

  class SparseMFModel {
    var userModels: seq<(int, Entity)>
    var itemModels: map<int, Entity>
    const userBiasReg: real
    const itemBiasReg: real
    const userFactReg: real
    const itemFactReg: real

    ghost predicate Valid()
      reads this
    {
      && (forall i | 0 <= i < |userModels| :: |userModels[i].1.weights| == NUM_FACTORS)
      && (forall i <- itemModels :: |itemModels[i].weights| == NUM_FACTORS)
    }

    /** The slice as a model, its first user being user `base` of the whole model. */
    ghost function View(base: int): (m: Model)
      reads this
      requires Valid()
      ensures Shaped(m, NUM_FACTORS)
    {
      Model(map u: int | base <= u < base + |userModels| :: UserAt(userModels, base, u), itemModels)
    }

    function Regularized(rate: real): Hyper {
      Hyper(rate, userBiasReg, itemBiasReg, userFactReg, itemFactReg)
    }

    constructor (reg: real)
      ensures userModels == [] && itemModels == map[] && Valid()
      ensures userBiasReg == itemBiasReg == userFactReg == itemFactReg == reg
    {
      userModels, itemModels := [], map[];
      userBiasReg, itemBiasReg, userFactReg, itemFactReg := reg, reg, reg, reg;
    }

    /** loadSerialized on a slice of the model t that the server wrote. */
    method LoadSerialized(mem: seq<Word>, minibatch: nat, itemCount: nat, ghost base: int, ghost items: seq<int>,
                          ghost t: Model)
      requires userModels == [] && itemModels == map[]
      requires itemCount == |items| && Shaped(t, NUM_FACTORS)
      requires forall u | base <= u < base + minibatch :: u in t.users
      requires forall i | 0 <= i < |items| :: items[i] in t.items && 0 <= items[i] < TWO_32
      requires 0 <= base && base + minibatch <= TWO_32
      requires mem == SliceWords(Span(base, minibatch), t.users) + SliceWords(items, t.items)
      modifies `userModels, `itemModels
      ensures Valid() && |userModels| == minibatch
      ensures forall i :: i in itemModels <==> i in items
      ensures forall u | base <= u < base + minibatch :: UserAt(userModels, base, u) == t.users[u]
      ensures forall i <- itemModels :: i in t.items && itemModels[i] == t.items[i]
    {
      ghost var users := Span(base, minibatch);
      hide SliceWords, Shaped, EntityOf;
      SliceableUsers(base, minibatch, t);
      SliceableItems(items, t);
      var next;
      userModels, next := LoadUsers(mem, minibatch, users, t.users, SliceWords(items, t.items));
      itemModels := LoadItems(mem, next, itemCount, items, t.items);
      hide Span, Sliceable;
      forall u | base <= u < base + minibatch
        ensures userModels[u - base] == (u, t.users[u]) && |t.users[u].weights| == NUM_FACTORS
      {
        SpanAt(base, minibatch, t, u);
        assert userModels[u - base] == (users[u - base], EntityOf(users[u - base], t.users));
      }
      forall i | i in itemModels
        ensures i in t.items && itemModels[i] == t.items[i] && |itemModels[i].weights| == NUM_FACTORS
      {
        InItems(items, i, t);
      }
    }

    method PredictRating(user: nat, item: int) returns (res: real)
      requires Valid() && user < |userModels| && item in itemModels
      ensures res == Predict(userModels[user].1, itemModels[item])
    {
      var u, i := userModels[user].1, itemModels[item];
      res := GLOBAL_BIAS + u.bias + i.bias;
      for k := 0 to NUM_FACTORS
        invariant res == GLOBAL_BIAS + u.bias + i.bias + Dot(u.weights, i.weights, k)
      {
        res := res + u.weights[k] * i.weights[k];
      }
    }

    /** The body of the rating loop of minibatch_grad: the update in place, and the two bias
        deltas and two accumulated factor vectors. */
    method TrainOne(user: nat, item: int, score: real, h: Hyper, userAcc: seq<real>, itemAcc: seq<real>,
                    ghost base: int)
      returns (userBias: real, itemBias: real, userAcc': seq<real>, itemAcc': seq<real>)
      requires Valid() && user < |userModels| && item in itemModels
      requires |userAcc| == |itemAcc| == NUM_FACTORS
      modifies `userModels, `itemModels
      ensures Valid() && |userModels| == |old(userModels)| && itemModels.Keys == old(itemModels.Keys)
      ensures View(base) == Train(old(View(base)), Rating(base + user, item, score), h)
      ensures userBias == userModels[user].1.bias - old(userModels[user].1.bias)
      ensures itemBias == itemModels[item].bias - old(itemModels[item].bias)
      ensures userAcc' == AddVec(userAcc, SubVec(userModels[user].1.weights, old(userModels[user].1.weights)))
      ensures itemAcc' == AddVec(itemAcc, SubVec(itemModels[item].weights, old(itemModels[item].weights)))
    {
      var pred := PredictRating(user, item);
      var error := score - pred;
      hide Dot, MoveBias, AddVec, SubVec, NudgeAll;
      ghost var was := View(base);
      var u, i := userModels[user].1, itemModels[item];
      userBias := MoveBias(u.bias, error, h.rate, h.userBiasReg);
      itemBias := MoveBias(i.bias, error, h.rate, h.itemBiasReg);
      var uw, iw;
      uw, userAcc' := NudgeVec(u.weights, i.weights, userAcc, error, h.rate, h.userFactReg);
      iw, itemAcc' := NudgeVec(i.weights, uw, itemAcc, error, h.rate, h.itemFactReg);
      userModels := userModels[user := (userModels[user].0, Entity(u.bias + userBias, uw))];
      itemModels := itemModels[item := Entity(i.bias + itemBias, iw)];
      assert Entity(u.bias + userBias, uw) == TrainUser(u, i, error, h);
      assert Entity(i.bias + itemBias, iw) == TrainItem(u, i, error, h);
      hide TrainUser, TrainItem, Predict;
      SameIntMap(View(base).users, was.users[base + user := TrainUser(u, i, error, h)]);
    }

    /** The rows fit the slice: there is a user model for each, and an item model for each item.
        Item ids index a fixed array, so they are below its size. */
    ghost predicate Fits(rows: seq<Row>)
      reads this
    {
      |rows| <= |userModels| && ItemsWithin(rows, itemModels.Keys) && ItemsWithin(rows, AllItems())
    }

    /** `was` has the same users and items as this slice. */
    ghost predicate SameDomain(was: Model, base: int)
      reads this
    {
      && Shaped(was, NUM_FACTORS)
      && (forall u :: u in was.users <==> base <= u < base + |userModels|)
      && (forall i :: i in was.items <==> i in itemModels)
    }

    /** After the ratings `seen` of a model that was `was`: the slice is trained on them, and the
        accumulators hold every change made, for the first n users and the items seen. */
    ghost predicate Progress(rows: seq<Row>, base: int, rate: real, was: Model, seen: seq<Rating>, p: Partial,
                             moves: map<int, seq<real>>, n: nat)
      reads this
    {
      && Valid() && SameDomain(was, base) && Fits(rows)
      && Trained(was, seen, View(base), Regularized(rate), NUM_FACTORS)
      && Accumulated(p, moves, was, View(base), UserRange(base, n), ItemsOf(seen))
    }

    /** A row starts by giving its user a zero bias change. */
    lemma StartRow(rows: seq<Row>, base: int, rate: real, was: Model, seen: seq<Rating>, p: Partial,
                   moves: map<int, seq<real>>, i: nat)
      requires Progress(rows, base, rate, was, seen, p, moves, i) && i < |rows|
      ensures Progress(rows, base, rate, was, seen, p.(usersBias := p.usersBias[base + i := 0.0]),
                       moves[base + i := Zeros(NUM_FACTORS)], i + 1)
    {
      hide Trained, Accumulated, View, Zeros, ItemsOf, UserRange;
      TouchUser(p, moves, was, View(base), base, i, ItemsOf(seen));
    }

    /** One row of minibatch_grad: train on each of the user's ratings and accumulate. */
    method GradRow(rows: seq<Row>, i: nat, rate: real, base: int, p: Partial,
                   ghost was: Model, ghost seen0: seq<Rating>, ghost moves0: map<int, seq<real>>)
      returns (q: Partial, userMove: seq<real>, ghost seen: seq<Rating>, ghost moves: map<int, seq<real>>)
      requires i < |rows| && seen0 == Visited(base, rows, i, 0)
      requires Progress(rows, base, rate, was, seen0, p, moves0, i)
      modifies `userModels, `itemModels
      ensures seen == Visited(base, rows, i, |rows[i]|)
      ensures Progress(rows, base, rate, was, seen, q, moves, i + 1)
      ensures moves == moves0[base + i := userMove]
    {
      hide Progress, Visited, Zeros;
      var user := base + i;
      userMove := Zeros(NUM_FACTORS);
      q := p.(usersBias := p.usersBias[user := 0.0]);
      seen, moves := seen0, moves0[user := userMove];
      StartRow(rows, base, rate, was, seen, p, moves0, i);
      for j := 0 to |rows[i]|
        invariant seen == Visited(base, rows, i, j)
        invariant Progress(rows, base, rate, was, seen, q, moves, i + 1)
        invariant |userMove| == NUM_FACTORS && moves == moves0[user := userMove]
      {
        ghost var previous := userMove;
        q, userMove, seen, moves := GradRating(rows, i, j, rate, base, q, userMove, was, seen, moves);
        Overwrite(moves0, user, previous, userMove);
      }
    }

    /** The innermost body of minibatch_grad. */
    method GradRating(rows: seq<Row>, i: nat, j: nat, rate: real, base: int, p: Partial, acc: seq<real>,
                      ghost was: Model, ghost seen0: seq<Rating>, ghost moves0: map<int, seq<real>>)
      returns (q: Partial, userMove: seq<real>, ghost seen: seq<Rating>, ghost moves: map<int, seq<real>>)
      requires i < |rows| && j < |rows[i]| && seen0 == Visited(base, rows, i, j)
      requires Progress(rows, base, rate, was, seen0, p, moves0, i + 1)
      requires base + i in moves0 && acc == moves0[base + i] && |acc| == NUM_FACTORS
      modifies `userModels, `itemModels
      ensures seen == Visited(base, rows, i, j + 1)
      ensures Progress(rows, base, rate, was, seen, q, moves, i + 1)
      ensures |userMove| == NUM_FACTORS && moves == moves0[base + i := userMove]
    {
      hide Visited, Trained, Accumulated, Accumulate, Zeros, AddVec, SubVec, ItemsOf, UserRange;
      hide TrainUser, TrainItem, Predict;
      var item, score := rows[i][j].0, rows[i][j].1;
      ghost var r := Rating(base + i, item, score);
      ghost var now := View(base);
      VisitOrder(base, rows, i, j);
      ItemsOfSnoc(seen0, r);
      InUserRange(base, i);
      TrainedSnoc(was, seen0, now, Regularized(rate), NUM_FACTORS, r);
      AccumulatedShape(p, moves0, was, now, UserRange(base, i + 1), ItemsOf(seen0), item);
      var userBias, itemBias, itemMove;
      userBias, itemBias, userMove, itemMove :=
        TrainOne(i, item, score, Regularized(rate), acc, MoveOf(item, p.itemMoves), base);
      AccumulatedStep(p, moves0, was, now, UserRange(base, i + 1), ItemsOf(seen0), r, View(base));
      q := Accumulate(p, base + i, item, userBias, itemBias, itemMove);
      seen, moves := seen0 + [r], moves0[base + i := userMove];
    }

    /** minibatch_grad: train the slice in place on every rating, and return a gradient that holds
        exactly the difference made to each user of the minibatch and each item rated. */
    method MinibatchGrad(rows: seq<Row>, rate: real, base: int) returns (g: MFGradient)
      requires Valid() && Fits(rows)
      requires FitsInt(base) && FitsInt(base + |rows|)
      modifies `userModels, `itemModels
      ensures Valid()
      ensures Trained(old(View(base)), Ratings(base, rows), View(base),
                      Hyper(rate, userBiasReg, itemBiasReg, userFactReg, itemFactReg), NUM_FACTORS)
      ensures IsDelta(g.usersBias, g.usersWeights, old(View(base)).users, View(base).users, UserRange(base, |rows|))
      ensures IsDelta(g.itemsBias, g.itemsWeights, old(View(base)).items, View(base).items,
                      ItemsOf(Ratings(base, rows)))
      ensures Sendable(g)
    {
      assert Regularized(rate) == Hyper(rate, userBiasReg, itemBiasReg, userFactReg, itemFactReg);
      hide *;
      ghost var was := View(base);
      var p, usersWeights;
      ghost var moves, order;
      p, usersWeights, moves, order := GradRows(rows, rate, base);
      ItemsReady(rows, base, rate, was, Ratings(base, rows), p, moves);
      var itemsWeights := ItemBlocks(p);
      FinishGrad(rows, base, rate, was, Ratings(base, rows), p, moves, order, usersWeights, itemsWeights);
      g := MFGradient(p.usersBias, p.itemsBias, usersWeights, itemsWeights);
    }

    /** The outer loop of minibatch_grad. */
    method GradRows(rows: seq<Row>, rate: real, base: int)
      returns (p: Partial, usersWeights: seq<Block>, ghost moves: map<int, seq<real>>, ghost order: seq<int>)
      requires Valid() && Fits(rows)
      modifies `userModels, `itemModels
      ensures Progress(rows, base, rate, old(View(base)), Ratings(base, rows), p, moves, |rows|)
      ensures Walk(order, base, |rows|) && BlocksHold(usersWeights, order, moves)
    {
      p, usersWeights := Partial(map[], map[], map[], []), [];
      moves, order := map[], [];
      ghost var was, seen := View(base), Visited(base, rows, 0, 0);
      StartGrad(rows, base, rate);
      hide Progress, Visited, MoveOf, View, Ratings;
      for i := 0 to |rows|
        invariant seen == Visited(base, rows, i, 0)
        invariant Progress(rows, base, rate, was, seen, p, moves, i)
        invariant Walk(order, base, i)
        invariant BlocksHold(usersWeights, order, moves)
      {
        ghost var moves0 := moves;
        var userMove;
        p, userMove, seen, moves := GradRow(rows, i, rate, base, p, was, seen, moves);
        BlocksHoldSnoc(usersWeights, order, moves0, base, i, userMove);
        usersWeights := usersWeights + [(base + i, userMove)];
        order := order + [base + i];
        VisitedBounds(base, rows, i);
      }
      VisitedBounds(base, rows, |rows|);
    }

    lemma StartGrad(rows: seq<Row>, base: int, rate: real)
      requires Valid() && Fits(rows)
      ensures Progress(rows, base, rate, View(base), Visited(base, rows, 0, 0),
                       Partial(map[], map[], map[], []), map[], 0)
    {
      hide Tracks;
      VisitedBounds(base, rows, 0);
      TrainedNot(View(base), Regularized(rate), NUM_FACTORS);
      TracksNothing(View(base).users);
      TracksNothing(View(base).items);
      assert UserRange(base, 0) == {} && ItemsOf([]) == {};
    }

    lemma ItemsReady(rows: seq<Row>, base: int, rate: real, was: Model, seen: seq<Rating>, p: Partial,
                     moves: map<int, seq<real>>)
      requires Progress(rows, base, rate, was, seen, p, moves, |rows|)
      ensures forall i | 0 <= i < |p.itemList| :: p.itemList[i] in p.itemMoves
    {
      hide Trained, View, Accumulated, ItemsOf, UserRange;
      ItemsListed(p, moves, was, View(base), UserRange(base, |rows|), ItemsOf(seen));
    }

    lemma FinishGrad(rows: seq<Row>, base: int, rate: real, was: Model, seen: seq<Rating>, p: Partial,
                     moves: map<int, seq<real>>, order: seq<int>, usersWeights: seq<Block>, itemsWeights: seq<Block>)
      requires Progress(rows, base, rate, was, seen, p, moves, |rows|)
      requires seen == Ratings(base, rows)
      requires Walk(order, base, |rows|) && BlocksHold(usersWeights, order, moves)
      requires BlocksHold(itemsWeights, p.itemList, p.itemMoves)
      requires FitsInt(base) && FitsInt(base + |rows|)
      ensures Valid() && Trained(was, seen, View(base), Regularized(rate), NUM_FACTORS)
      ensures IsDelta(p.usersBias, usersWeights, was.users, View(base).users, UserRange(base, |rows|))
      ensures IsDelta(p.itemsBias, itemsWeights, was.items, View(base).items, ItemsOf(seen))
      ensures Sendable(MFGradient(p.usersBias, p.itemsBias, usersWeights, itemsWeights))
    {
      hide Trained, View, Tracks, IsDelta, Ratings, MoveOf;
      var users, items := UserRange(base, |rows|), ItemsOf(seen);
      WalkLists(order, base, |rows|);
      TrackedDelta(p.usersBias, moves, was.users, View(base).users, users, order, usersWeights);
      TrackedDelta(p.itemsBias, p.itemMoves, was.items, View(base).items, items, p.itemList, itemsWeights);
      TrackedKeys(p.usersBias, moves, was.users, View(base).users, users);
      TrackedKeys(p.itemsBias, p.itemMoves, was.items, View(base).items, items);
      RatedItemsFit(base, rows);
    }
  }

  /** The users of the minibatch in order. */
  ghost predicate Walk(order: seq<int>, base: int, n: nat) {
    |order| == n && forall i | 0 <= i < n :: order[i] == base + i
  }

  lemma WalkLists(order: seq<int>, base: int, n: nat)
    requires Walk(order, base, n)
    ensures Lists(order, UserRange(base, n))
  {
    forall k ensures k in order <==> k in UserRange(base, n) {
      if k in UserRange(base, n) {
        assert order[k - base] == k;
      }
    }
  }

  lemma RatedItemsFit(base: int, rows: seq<Row>)
    requires ItemsWithin(rows, AllItems())
    ensures forall i <- ItemsOf(Ratings(base, rows)) :: 0 <= i < MAX_ITEMS
    ensures |ItemsOf(Ratings(base, rows))| <= MAX_ITEMS
  {
    hide Ratings;
    RatingsWithin(base, rows, AllItems());
    BoundedCount(ItemsOf(Ratings(base, rows)), MAX_ITEMS);
  }

  ghost predicate BlocksHold(blocks: seq<Block>, order: seq<int>, moves: map<int, seq<real>>) {
    && |blocks| == |order|
    && forall i | 0 <= i < |order| :: blocks[i] == (order[i], MoveOf(order[i], moves))
  }

  lemma BlocksHoldSnoc(blocks: seq<Block>, order: seq<int>, moves: map<int, seq<real>>, base: int, n: nat,
                       move: seq<real>)
    requires Walk(order, base, n) && BlocksHold(blocks, order, moves)
    ensures Walk(order + [base + n], base, n + 1)
    ensures BlocksHold(blocks + [(base + n, move)], order + [base + n], moves[base + n := move])
  {
  }

  /** The closing loop of minibatch_grad: the items in the order they were first rated. */
  method ItemBlocks(p: Partial) returns (blocks: seq<Block>)
    requires forall i | 0 <= i < |p.itemList| :: p.itemList[i] in p.itemMoves
    ensures BlocksHold(blocks, p.itemList, p.itemMoves)
  {
    blocks := [];
    for i := 0 to |p.itemList|
      invariant BlocksHold(blocks, p.itemList[..i], p.itemMoves)
    {
      blocks := blocks + [(p.itemList[i], p.itemMoves[p.itemList[i]])];
    }
    assert p.itemList[..|p.itemList|] == p.itemList;
  }

  function UserRange(base: int, n: nat): set<int> {
    Interval(base, base + n)
  }

  lemma InUserRange(base: int, i: nat)
    ensures base + i in UserRange(base, i + 1) && base + i !in UserRange(base, i)
    ensures UserRange(base, i) + {base + i} == UserRange(base, i + 1)
  {
  }

  lemma TouchUser(p: Partial, moves: map<int, seq<real>>, was: Model, now: Model, base: int, i: nat, items: set<int>)
    requires Accumulated(p, moves, was, now, UserRange(base, i), items)
    requires base + i in was.users
    ensures Accumulated(p.(usersBias := p.usersBias[base + i := 0.0]), moves[base + i := Zeros(NUM_FACTORS)],
                        was, now, UserRange(base, i + 1), items)
  {
    hide Tracks, Zeros;
    InUserRange(base, i);
    TrackTouch(p.usersBias, moves, was.users, now.users, UserRange(base, i), base + i);
  }

  lemma ItemsListed(p: Partial, moves: map<int, seq<real>>, was: Model, now: Model, users: set<int>, items: set<int>)
    requires Accumulated(p, moves, was, now, users, items)
    ensures forall i | 0 <= i < |p.itemList| :: p.itemList[i] in p.itemMoves
  {
    var order, moved := p.itemList, p.itemMoves;
    assert Lists(order, items) && forall id :: id in moved <==> id in items;
    forall i | 0 <= i < |order| ensures order[i] in moved {
      var k := order[i];
      assert k in order;
    }
  }

  lemma AccumulatedShape(p: Partial, moves: map<int, seq<real>>, was: Model, now: Model,
                         users: set<int>, items: set<int>, item: int)
    requires Accumulated(p, moves, was, now, users, items) && item in was.items
    ensures |MoveOf(item, p.itemMoves)| == NUM_FACTORS
  {
  }
}
