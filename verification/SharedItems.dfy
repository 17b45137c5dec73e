/** What happens when rounds in flight share entities: their gradients commute, so the order in which they
    arrive is irrelevant; but what they add up to is in general no sequential training. */
module SharedItems {
  import opened Factorization
  import opened GradientShift
  import opened MFGradients
  import opened Repeats
  import opened Rounds
  import opened Sets
  import opened Words

  lemma AddVecSwap(w: seq<real>, x: seq<real>, y: seq<real>)
    requires |w| == |x| == |y|
    ensures AddVec(AddVec(w, x), y) == AddVec(AddVec(w, y), x)
  {
    hide AddVec;
    forall k | 0 <= k < |w| ensures AddVec(AddVec(w, x), y)[k] == AddVec(AddVec(w, y), x)[k] {
      AddVecAt(w, x, k);
      AddVecAt(w, y, k);
      AddVecAt(AddVec(w, x), y, k);
      AddVecAt(AddVec(w, y), x, k);
    }
  }

  /** Blocks as they come out of a message. */
  ghost predicate Blocks(blocks: seq<Block>) {
    forall b <- blocks :: |b.1| == NUM_FACTORS
  }

  lemma {:induction false} AddVecThrough(w: seq<real>, v: seq<real>, blocks: seq<Block>, id: int)
    requires |w| == |v| == NUM_FACTORS && Blocks(blocks)
    ensures AddBlocks(AddVec(w, v), blocks, id) == AddVec(AddBlocks(w, blocks, id), v)
  {
    if blocks != [] {
      var n := |blocks| - 1;
      assert blocks[n] in blocks && forall b <- blocks[..n] :: b in blocks;
      hide AddVec;
      AddVecThrough(w, v, blocks[..n], id);
      AddVecSwap(AddBlocks(w, blocks[..n], id), v, blocks[n].1);
    }
  }

  lemma {:induction false} BlocksCommute(w: seq<real>, a: seq<Block>, b: seq<Block>, id: int)
    requires |w| == NUM_FACTORS && Blocks(a) && Blocks(b)
    ensures AddBlocks(AddBlocks(w, a, id), b, id) == AddBlocks(AddBlocks(w, b, id), a, id)
    decreases |b|
  {
    if b != [] {
      var n := |b| - 1;
      assert b[n] in b && forall x <- b[..n] :: x in b;
      BlocksCommute(w, a, b[..n], id);
      AddVecThrough(AddBlocks(w, b[..n], id), b[n].1, a, id);
      hide AddVec;
    }
  }

  ghost predicate Shippable(g: MFGradient) {
    SendableBlocks(g.usersWeights) && SendableBlocks(g.itemsWeights)
  }

  lemma ShiftIsShaped(m: Model, g: MFGradient)
    requires Shaped(m, NUM_FACTORS) && Shippable(g)
    ensures Shaped(Shift(m, g), NUM_FACTORS)
  {
    hide AddBlocks;
  }

  lemma SideCommutes(t: map<int, Entity>, x: map<int, real>, a: seq<Block>, y: map<int, real>, b: seq<Block>)
    requires forall id <- t :: |t[id].weights| == NUM_FACTORS
    requires Blocks(a) && Blocks(b)
    ensures ShiftAll(ShiftAll(t, x, a), y, b) == ShiftAll(ShiftAll(t, y, b), x, a)
  {
    hide AddBlocks;
    var one, other := ShiftAll(ShiftAll(t, x, a), y, b), ShiftAll(ShiftAll(t, y, b), x, a);
    forall id | id in t ensures one[id] == other[id] {
      BlocksCommute(t[id].weights, a, b, id);
    }
    SameIntMap(one, other);
  }

  /** Two additions of gradients can be swapped, whatever snapshots the gradients come from. */
  lemma ShiftsCommute(m: Model, g: MFGradient, f: MFGradient)
    requires Shaped(m, NUM_FACTORS) && Shippable(g) && Shippable(f)
    ensures Shaped(Shift(m, g), NUM_FACTORS) && Shaped(Shift(m, f), NUM_FACTORS)
    ensures Shift(Shift(m, g), f) == Shift(Shift(m, f), g)
  {
    ShiftIsShaped(m, g);
    ShiftIsShaped(m, f);
    SideCommutes(m.users, g.usersBias, g.usersWeights, f.usersBias, f.usersWeights);
    SideCommutes(m.items, g.itemsBias, g.itemsWeights, f.itemsBias, f.itemsWeights);
    hide ShiftAll;
  }

  /** The server's model after gradients that arrive in this order. */
  ghost function ShiftAlong(m: Model, gs: seq<MFGradient>): (r: Model)
    requires Shaped(m, NUM_FACTORS) && forall g <- gs :: Shippable(g)
    ensures Shaped(r, NUM_FACTORS)
    decreases |gs|
  {
    if gs == [] then m else
      var n := |gs| - 1;
      assert gs[n] in gs && forall g <- gs[..n] :: g in gs;
      ShiftIsShaped(ShiftAlong(m, gs[..n]), gs[n]);
      Shift(ShiftAlong(m, gs[..n]), gs[n])
  }

  lemma ShiftAlongSnoc(m: Model, gs: seq<MFGradient>, g: MFGradient)
    requires Shaped(m, NUM_FACTORS) && Shippable(g) && forall f <- gs :: Shippable(f)
    ensures ShiftAlong(m, gs + [g]) == Shift(ShiftAlong(m, gs), g)
  {
    assert (gs + [g])[..|gs|] == gs;
    hide Shift;
  }

  /** A gradient may as well arrive last. */
  lemma {:induction false} MayBeLate(m: Model, a: seq<MFGradient>, g: MFGradient, b: seq<MFGradient>)
    requires Shaped(m, NUM_FACTORS) && Shippable(g)
    requires (forall f <- a :: Shippable(f)) && forall f <- b :: Shippable(f)
    ensures ShiftAlong(m, a + [g] + b) == Shift(ShiftAlong(m, a + b), g)
    decreases |b|
  {
    hide Shift, ShiftAlong, Shippable;
    if b == [] {
      assert a + [g] + b == a + [g] && a + b == a;
      ShiftAlongSnoc(m, a, g);
    } else {
      var n := |b| - 1;
      assert b[n] in b && forall f <- b[..n] :: f in b;
      assert a + [g] + b == (a + [g] + b[..n]) + [b[n]] && a + b == (a + b[..n]) + [b[n]];
      MayBeLate(m, a, g, b[..n]);
      ShiftAlongSnoc(m, a + [g] + b[..n], b[n]);
      ShiftAlongSnoc(m, a + b[..n], b[n]);
      ShiftsCommute(ShiftAlong(m, a + b[..n]), g, b[n]);
    }
  }

  /** The server's model does not depend on the order in which gradients arrive, whatever rounds they
      come from and whatever entities these share. */
  lemma {:induction false} ArrivalOrderIsIrrelevant(m: Model, gs: seq<MFGradient>, fs: seq<MFGradient>)
    requires Shaped(m, NUM_FACTORS) && (forall g <- gs :: Shippable(g)) && (forall f <- fs :: Shippable(f))
    requires multiset(gs) == multiset(fs)
    ensures ShiftAlong(m, gs) == ShiftAlong(m, fs)
    decreases |gs|
  {
    hide Shift, ShiftAlong, Shippable;
    assert |multiset(gs)| == |gs| && |multiset(fs)| == |fs|;
    if gs != [] {
      var n := |gs| - 1;
      var x := gs[n];
      assert x in multiset(fs);
      var i :| 0 <= i < |fs| && fs[i] == x;
      var a, b := fs[..i], fs[i + 1..];
      assert gs == gs[..n] + [x] && fs == a + [x] + b;
      assert multiset(gs) == multiset(gs[..n]) + multiset{x};
      assert multiset(fs) == multiset(a + b) + multiset{x};
      SameRest(multiset(gs[..n]), multiset(a + b), x);
      ShiftAlongSnoc(m, gs[..n], x);
      MayBeLate(m, a, x, b);
      ArrivalOrderIsIrrelevant(m, gs[..n], a + b);
    }
  }

  /** What a gradient with one delta for the entity adds to any entity in its place. */
  lemma ShiftIs(e: Entity, id: int, bias: map<int, real>, blocks: seq<Block>,
                before: map<int, Entity>, after: map<int, Entity>, ids: set<int>)
    requires IsDelta(bias, blocks, before, after, ids) && id in ids && |e.weights| == NUM_FACTORS
    ensures Blocks(blocks)
    ensures ShiftEntity(e, id, bias, blocks) ==
      Entity(e.bias + (after[id].bias - before[id].bias),
             AddVec(e.weights, SubVec(after[id].weights, before[id].weights)))
  {
    hide AddBlocks, SubVec, AddVec;
    DeltaBlocksShaped(blocks, before, after, ids);
    var b :| b in blocks && b.0 == id;
    var i :| 0 <= i < |blocks| && blocks[i] == b;
    AddBlocksOnce(e.weights, blocks, i);
  }

  /** What a step adds to a bias or factor tells what it started from. */
  lemma StepIsInjective(x: real, x': real, partner: real, error: real, rate: real, reg: real)
    requires rate != 0.0 && reg != 0.0
    requires x' + Move(x, partner, error, rate, reg) == x' + Move(x', partner, error, rate, reg)
    ensures x == x'
  {
    assert rate * (reg * x - reg * x') == 0.0;
    assert reg * (x - x') == 0.0;
  }

  lemma ErrorIs(bias: real, error: real, error': real, rate: real, reg: real)
    requires rate != 0.0 && NudgeBias(bias, error, rate, reg) == NudgeBias(bias, error', rate, reg)
    ensures error == error'
  {
    assert rate * (error - error') == 0.0;
  }

  /** If a user's rating moves the user as it would have moved with another item, and the item by as
      much, then the two items are the same. */
  lemma ItemIs(user: Entity, item: Entity, item': Entity, error: real, error': real, h: Hyper)
    requires |user.weights| == |item.weights| == |item'.weights|
    requires h.rate != 0.0 && h.itemBiasReg != 0.0 && h.itemFactReg != 0.0
    requires TrainUser(user, item, error, h) == TrainUser(user, item', error', h)
    requires TrainItem(user, item', error', h) ==
      Entity(item'.bias + (TrainItem(user, item, error, h).bias - item.bias),
             AddVec(item'.weights, SubVec(TrainItem(user, item, error, h).weights, item.weights)))
    ensures item == item'
  {
    ErrorIs(user.bias, error, error', h.rate, h.userBiasReg);
    StepIsInjective(item.bias, item'.bias, 1.0, error, h.rate, h.itemBiasReg);
    var moved := TrainUser(user, item, error, h).weights;
    var now := TrainItem(user, item, error, h).weights;
    NudgeAllAt(item.weights, moved, error, h.rate, h.itemFactReg);
    NudgeAllAt(item'.weights, moved, error, h.rate, h.itemFactReg);
    hide TrainUser, NudgeAll, AddVec, SubVec, Move;
    forall k | 0 <= k < |item.weights| ensures item.weights[k] == item'.weights[k] {
      SubVecAt(now, item.weights, k);
      AddVecAt(item'.weights, SubVec(now, item.weights), k);
      StepIsInjective(item.weights[k], item'.weights[k], moved[k], error, h.rate, h.itemFactReg);
    }
  }

  /** Two rounds of one rating each, by two users of one item, both on the same snapshot. */
  ghost predicate ShareAnItem(m: Model, a: Rating, b: Rating) {
    && Shaped(m, NUM_FACTORS) && a.user in m.users && b.user in m.users && a.item in m.items
    && a.item == b.item && a.user != b.user
  }

  lemma OneRating(m: Model, r: Rating, h: Hyper)
    requires Shaped(m, NUM_FACTORS) && r.user in m.users && r.item in m.items
    ensures Covers(m, [r]) && Run(m, [r], h, NUM_FACTORS) == Train(m, r, h)
    ensures UsersOf([r]) == {r.user} && ItemsOf([r]) == {r.item}
  {
    assert [r][..0] == [];
    assert Run(m, [], h, NUM_FACTORS) == m;
    hide Train, Predict, Shaped;
  }

  /** Training on a and then on b, and what a's round leaves alone. */
  lemma BothTrained(m: Model, a: Rating, b: Rating, h: Hyper)
    requires ShareAnItem(m, a, b)
    ensures Covers(m, [a]) && Covers(m, [b]) && Covers(m, [a, b])
    ensures var moved := Run(m, [a], h, NUM_FACTORS);
      && moved == Train(m, a, h) && Run(m, [b], h, NUM_FACTORS) == Train(m, b, h)
      && b.user in moved.users && b.item in moved.items && moved.users[b.user] == m.users[b.user]
      && Covers(moved, [b]) && Run(m, [a, b], h, NUM_FACTORS) == Run(moved, [b], h, NUM_FACTORS) == Train(moved, b, h)
  {
    OneRating(m, a, h);
    OneRating(m, b, h);
    RunConcat(m, [a], [b], h, NUM_FACTORS);
    assert [a] + [b] == [a, b];
    RunFrames(m, [a], h, NUM_FACTORS);
    OneRating(Run(m, [a], h, NUM_FACTORS), b, h);
    hide Run, Train;
  }

  /** What the second gradient makes of the item, and of the model, after the first round. */
  lemma SecondAdded(m: Model, moved: Model, b: Rating, gb: MFGradient, h: Hyper)
    requires Shaped(m, NUM_FACTORS) && Shaped(moved, NUM_FACTORS) && Covers(m, [b])
    requires IsGradientOf(gb, m, [b], h, {b.user}, {b.item}) && Run(m, [b], h, NUM_FACTORS) == Train(m, b, h)
    requires b.user in moved.users && b.item in moved.items && moved.users[b.user] == m.users[b.user]
    ensures var both, trained := Shift(moved, gb), Train(m, b, h);
      && both.users[b.user] == trained.users[b.user]
      && both.items[b.item] ==
           Entity(moved.items[b.item].bias + (trained.items[b.item].bias - m.items[b.item].bias),
                  AddVec(moved.items[b.item].weights, SubVec(trained.items[b.item].weights, m.items[b.item].weights)))
  {
    var trained := Train(m, b, h);
    hide Run, Train, IsDelta, AddVec, SubVec, ShiftEntity, Covers;
    ShiftByDelta(m.users[b.user], b.user, gb.usersBias, gb.usersWeights, m.users, trained.users, {b.user});
    ShiftIs(moved.items[b.item], b.item, gb.itemsBias, gb.itemsWeights, m.items, trained.items, {b.item});
  }

  lemma {:induction false} NoRate(w: seq<real>, along: seq<real>, error: real, reg: real)
    requires |w| == |along|
    ensures NudgeAll(w, along, error, 0.0, reg) == w
  {
    NudgeAllAt(w, along, error, 0.0, reg);
    hide NudgeAll;
  }

  /** A round that moves the item has a learning rate. */
  lemma MovedHasRate(m: Model, r: Rating, h: Hyper)
    requires Shaped(m, NUM_FACTORS) && r.user in m.users && r.item in m.items
    requires Train(m, r, h).items[r.item] != m.items[r.item]
    ensures h.rate != 0.0
  {
    var user, item := m.users[r.user], m.items[r.item];
    var error := r.score - Predict(user, item);
    if h.rate == 0.0 {
      NoRate(item.weights, TrainUser(user, item, error, h).weights, error, h.itemFactReg);
      hide NudgeAll, Predict;
      assert false;
    }
  }

  /** If adding both gradients is training on a and then on b, a's round leaves the item as it is. */
  lemma SameAsTraining(m: Model, moved: Model, b: Rating, gb: MFGradient, h: Hyper)
    requires Shaped(m, NUM_FACTORS) && Shaped(moved, NUM_FACTORS) && Shippable(gb)
    requires b.user in m.users && b.item in m.items && b.user in moved.users && b.item in moved.items
    requires moved.users[b.user] == m.users[b.user]
    requires h.rate != 0.0 && h.itemBiasReg != 0.0 && h.itemFactReg != 0.0
    requires var both, trained := Shift(moved, gb), Train(m, b, h);
      && both == Train(moved, b, h)
      && both.users[b.user] == trained.users[b.user]
      && both.items[b.item] ==
           Entity(moved.items[b.item].bias + (trained.items[b.item].bias - m.items[b.item].bias),
                  AddVec(moved.items[b.item].weights, SubVec(trained.items[b.item].weights, m.items[b.item].weights)))
    ensures moved.items[b.item] == m.items[b.item]
  {
    var user, item, item' := m.users[b.user], m.items[b.item], moved.items[b.item];
    hide Predict, Shift, TrainUser, TrainItem, AddVec, SubVec;
    ItemIs(user, item, item', b.score - Predict(user, item), b.score - Predict(user, item'), h);
  }

  lemma SameIfUnmoved(m: Model, moved: Model, b: Rating, gb: MFGradient, h: Hyper)
    requires Shaped(m, NUM_FACTORS) && Shaped(moved, NUM_FACTORS)
    requires IsGradientOf(gb, m, [b], h, {b.user}, {b.item})
    requires b.user in m.users && b.user in moved.users && moved.users[b.user] == m.users[b.user]
    requires b.item in m.items && b.item in moved.items && moved.items[b.item] == m.items[b.item]
    ensures Covers(moved, [b]) && Shift(moved, gb) == Run(moved, [b], h, NUM_FACTORS)
  {
    hide IsGradientOf, Shift, Run, Covers;
    RoundRefinesTraining(moved, m, gb, [b], h, {b.user}, {b.item});
  }

  /** Whether adding both gradients, a's first, is training on a and then on b. */
  ghost predicate IsSequential(m: Model, a: Rating, b: Rating, ga: MFGradient, gb: MFGradient, h: Hyper)
    requires Shaped(m, NUM_FACTORS) && Shippable(ga) && Shippable(gb)
  {
    ShiftIsShaped(m, ga);
    Covers(m, [a, b]) && Shift(Shift(m, ga), gb) == Run(m, [a, b], h, NUM_FACTORS)
  }

  lemma OnlyIfUnmoved(m: Model, a: Rating, b: Rating, gb: MFGradient, h: Hyper)
    requires ShareAnItem(m, a, b) && IsGradientOf(gb, m, [b], h, {b.user}, {b.item})
    requires h.itemBiasReg != 0.0 && h.itemFactReg != 0.0
    requires Covers(m, [a]) && Shippable(gb) && Covers(m, [a, b])
    requires Shift(Run(m, [a], h, NUM_FACTORS), gb) == Run(m, [a, b], h, NUM_FACTORS)
    ensures Train(m, a, h).items[a.item] == m.items[a.item]
  {
    BothTrained(m, a, b, h);
    var moved := Train(m, a, h);
    hide Run, IsGradientOf, Train, Shift, AddVec, SubVec, Covers;
    SecondAdded(m, moved, b, gb, h);
    if moved.items[a.item] != m.items[a.item] {
      MovedHasRate(m, a, h);
      SameAsTraining(m, moved, b, gb, h);
    }
  }

  /** Adding both gradients is training on a and then on b exactly if a's round leaves the item as it is.
      The code's regularization is never zero. */
  lemma SharedItemIff(m: Model, a: Rating, b: Rating, ga: MFGradient, gb: MFGradient, h: Hyper)
    requires ShareAnItem(m, a, b)
    requires IsGradientOf(ga, m, [a], h, {a.user}, {a.item}) && IsGradientOf(gb, m, [b], h, {b.user}, {b.item})
    requires h.itemBiasReg != 0.0 && h.itemFactReg != 0.0
    ensures Shippable(ga) && Shippable(gb)
    ensures IsSequential(m, a, b, ga, gb, h) <==> Train(m, a, h).items[a.item] == m.items[a.item]
  {
    GradientsShippable(ga, m, [a], h, {a.user}, {a.item});
    GradientsShippable(gb, m, [b], h, {b.user}, {b.item});
    BothTrained(m, a, b, h);
    hide Run, IsGradientOf, Train, Shift, Covers;
    RoundRefinesTraining(m, m, ga, [a], h, {a.user}, {a.item});
    var moved := Train(m, a, h);
    if moved.items[a.item] == m.items[a.item] {
      SameIfUnmoved(m, moved, b, gb, h);
    } else if IsSequential(m, a, b, ga, gb, h) {
      OnlyIfUnmoved(m, a, b, gb, h);
      assert false;
    }
  }

  /** The gradient of a round of one rating. */
  ghost function GradientOf(m: Model, r: Rating, h: Hyper): MFGradient
    requires Shaped(m, NUM_FACTORS) && r.user in m.users && r.item in m.items
  {
    var now := Train(m, r, h);
    var user, item, user', item' := m.users[r.user], m.items[r.item], now.users[r.user], now.items[r.item];
    MFGradient(map[r.user := user'.bias - user.bias], map[r.item := item'.bias - item.bias],
               [(r.user, SubVec(user'.weights, user.weights))], [(r.item, SubVec(item'.weights, item.weights))])
  }

  lemma GradientOfIs(m: Model, r: Rating, h: Hyper)
    requires Shaped(m, NUM_FACTORS) && r.user in m.users && r.item in m.items && FitsInt(r.user) && FitsInt(r.item)
    ensures IsGradientOf(GradientOf(m, r, h), m, [r], h, {r.user}, {r.item})
  {
    OneRating(m, r, h);
    var g, now := GradientOf(m, r, h), Train(m, r, h);
    var before, after := m.users, now.users;
    hide Run, Predict, TrainUser, TrainItem, SubVec;
    OneDelta(g.usersBias, g.usersWeights[0], m.users, now.users, r.user);
    OneDelta(g.itemsBias, g.itemsWeights[0], m.items, now.items, r.item);
    assert g.usersWeights == [g.usersWeights[0]] && g.itemsWeights == [g.itemsWeights[0]];
    hide IsDelta;
  }

  lemma OneDelta(bias: map<int, real>, block: Block, before: map<int, Entity>, after: map<int, Entity>, id: int)
    requires Comparable(before, after, {id})
    requires bias == map[id := after[id].bias - before[id].bias]
    requires block == (id, SubVec(after[id].weights, before[id].weights))
    ensures IsDelta(bias, [block], before, after, {id})
  {
    assert block in [block];
    hide SubVec;
  }

  /** Two users, one item, nothing learned yet. */
  ghost function NewItem(): Model {
    var blank := Entity(0.0, Zeros(NUM_FACTORS));
    Model(map[0 := blank, 1 := blank], map[0 := blank])
  }

  lemma {:induction false} DotZeros(n: nat, w: seq<real>)
    requires n <= |w| && forall k | 0 <= k < |w| :: w[k] == 0.0
    ensures Dot(w, w, n) == 0.0
  {
    if n > 0 {
      DotZeros(n - 1, w);
    }
  }

  /** The first rating of a new item by a new user moves the item, unless it is the global bias. */
  lemma FirstRatingMoves(r: Rating, h: Hyper)
    requires r.user in NewItem().users && r.item == 0 && r.score != GLOBAL_BIAS && h.rate != 0.0
    ensures Train(NewItem(), r, h).items[0] != NewItem().items[0]
  {
    DotZeros(NUM_FACTORS, Zeros(NUM_FACTORS));
    hide Dot, NudgeAll;
    var error := r.score - GLOBAL_BIAS;
    assert h.rate * error != 0.0;
  }

  /** Two users rate a new item with 4 at the same time: what their gradients add up to is neither
      order of training. */
  lemma NoSequentialTraining(h: Hyper)
    requires h.rate != 0.0 && h.itemBiasReg != 0.0 && h.itemFactReg != 0.0
    ensures var m, a, b := NewItem(), Rating(0, 0, 4.0), Rating(1, 0, 4.0);
      && ShareAnItem(m, a, b)
      && var ga, gb := GradientOf(m, a, h), GradientOf(m, b, h);
      && IsGradientOf(ga, m, [a], h, {0}, {0}) && IsGradientOf(gb, m, [b], h, {1}, {0})
      && Shippable(ga) && Shippable(gb)
      && !IsSequential(m, a, b, ga, gb, h) && !IsSequential(m, b, a, gb, ga, h)
  {
    var m, a, b := NewItem(), Rating(0, 0, 4.0), Rating(1, 0, 4.0);
    assert ShareAnItem(m, a, b) && ShareAnItem(m, b, a);
    FirstRatingMoves(a, h);
    FirstRatingMoves(b, h);
    hide NewItem, Train, GradientOf, IsGradientOf, IsSequential;
    var ga, gb := GradientOf(m, a, h), GradientOf(m, b, h);
    GradientOfIs(m, a, h);
    GradientOfIs(m, b, h);
    SharedItemIff(m, a, b, ga, gb, h);
    SharedItemIff(m, b, a, gb, ga, h);
  }

  lemma GradientsShippable(g: MFGradient, m: Model, ratings: seq<Rating>, h: Hyper, users: set<int>, items: set<int>)
    requires Shaped(m, NUM_FACTORS) && IsGradientOf(g, m, ratings, h, users, items)
    ensures Shippable(g)
  {
    hide Run, IsDelta;
  }
}
