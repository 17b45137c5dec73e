/** The matrix-factorization algorithm on values: what one rating does to one user and one
    item, what a stream of ratings does to a model, and how a stream acts locally. */
module Factorization {
  import opened Repeats

  /** The bias and the latent factors of one user or one item. */
  datatype Entity = Entity(bias: real, weights: seq<real>)

  datatype Model = Model(users: map<int, Entity>, items: map<int, Entity>)

  datatype Hyper = Hyper(rate: real, userBiasReg: real, itemBiasReg: real,
                         userFactReg: real, itemFactReg: real)

  datatype Rating = Rating(user: int, item: int, score: real)

  type Row = seq<(int, real)>

  const GLOBAL_BIAS := 3.604

  ghost predicate Shaped(m: Model, factors: nat) {
    && (forall u <- m.users :: |m.users[u].weights| == factors)
    && (forall i <- m.items :: |m.items[i].weights| == factors)
  }

  ghost predicate Covers(m: Model, ratings: seq<Rating>) {
    forall r <- ratings :: r.user in m.users && r.item in m.items
  }

  function Dot(a: seq<real>, b: seq<real>, n: nat): real
    requires n <= |a| && n <= |b|
  {
    if n == 0 then 0.0 else Dot(a, b, n - 1) + a[n - 1] * b[n - 1]
  }

  function Predict(user: Entity, item: Entity): real
    requires |user.weights| == |item.weights|
  {
    GLOBAL_BIAS + user.bias + item.bias + Dot(user.weights, item.weights, |user.weights|)
  }

  /** One gradient step on a bias: along the prediction error, decayed by `reg`. */
  function MoveBias(bias: real, error: real, rate: real, reg: real): real {
    rate * (error - reg * bias)
  }

  function NudgeBias(bias: real, error: real, rate: real, reg: real): real {
    bias + MoveBias(bias, error, rate, reg)
  }

  /** One gradient step on a factor: along the partner's factor, decayed by `reg`. */
  function Move(factor: real, partner: real, error: real, rate: real, reg: real): real {
    rate * (error * partner - reg * factor)
  }

  function Nudge(factor: real, partner: real, error: real, rate: real, reg: real): real {
    factor + Move(factor, partner, error, rate, reg)
  }

  /** The step on a whole factor vector, along another one scaled by the prediction error. */
  function NudgeAll(weights: seq<real>, along: seq<real>, error: real, rate: real, reg: real): (r: seq<real>)
    requires |weights| == |along|
    ensures |r| == |weights|
  {
    if weights == [] then [] else
      var n := |weights| - 1;
      NudgeAll(weights[..n], along[..n], error, rate, reg) + [Nudge(weights[n], along[n], error, rate, reg)]
  }

  lemma NudgeAllSnoc(weights: seq<real>, along: seq<real>, error: real, rate: real, reg: real, k: nat)
    requires |weights| == |along| && k < |weights|
    ensures NudgeAll(weights[..k + 1], along[..k + 1], error, rate, reg)
         == NudgeAll(weights[..k], along[..k], error, rate, reg) + [Nudge(weights[k], along[k], error, rate, reg)]
  {
    hide Nudge;
    assert weights[..k + 1][..k] == weights[..k] && along[..k + 1][..k] == along[..k];
    assert weights[..k + 1][k] == weights[k] && along[..k + 1][k] == along[k];
  }

  lemma {:induction false} NudgeAllAt(w: seq<real>, along: seq<real>, error: real, rate: real, reg: real)
    requires |w| == |along|
    ensures forall k | 0 <= k < |w| ::
              NudgeAll(w, along, error, rate, reg)[k] == Nudge(w[k], along[k], error, rate, reg)
  {
    if w != [] {
      NudgeAllAt(w[..|w| - 1], along[..|w| - 1], error, rate, reg);
      hide Nudge;
    }
  }

  function TrainUser(user: Entity, item: Entity, error: real, h: Hyper): (r: Entity)
    requires |user.weights| == |item.weights|
    ensures |r.weights| == |user.weights|
  {
    Entity(NudgeBias(user.bias, error, h.rate, h.userBiasReg),
           NudgeAll(user.weights, item.weights, error, h.rate, h.userFactReg))
  }

  /** The item's factors move along the user's factors as they are after the user's update. */
  function TrainItem(user: Entity, item: Entity, error: real, h: Hyper): (r: Entity)
    requires |user.weights| == |item.weights|
    ensures |r.weights| == |item.weights|
  {
    Entity(NudgeBias(item.bias, error, h.rate, h.itemBiasReg),
           NudgeAll(item.weights, TrainUser(user, item, error, h).weights, error, h.rate, h.itemFactReg))
  }

  ghost function Train(m: Model, r: Rating, h: Hyper): Model
    requires r.user in m.users && r.item in m.items
    requires |m.users[r.user].weights| == |m.items[r.item].weights|
  {
    var user, item := m.users[r.user], m.items[r.item];
    var error := r.score - Predict(user, item);
    Model(m.users[r.user := TrainUser(user, item, error, h)],
          m.items[r.item := TrainItem(user, item, error, h)])
  }

  /** Training on a stream of ratings, one at a time and in place. */
  ghost function Run(m: Model, ratings: seq<Rating>, h: Hyper, factors: nat): (r: Model)
    requires Shaped(m, factors) && Covers(m, ratings)
    ensures Shaped(r, factors) && r.users.Keys == m.users.Keys && r.items.Keys == m.items.Keys
    decreases |ratings|
  {
    if ratings == [] then m else
      var last := ratings[|ratings| - 1];
      assert last in ratings;
      assert forall x <- ratings[..|ratings| - 1] :: x in ratings;
      Train(Run(m, ratings[..|ratings| - 1], h, factors), last, h)
  }

  /** `now` is what training `was` on `seen` gives. */
  ghost predicate Trained(was: Model, seen: seq<Rating>, now: Model, h: Hyper, factors: nat)
    requires Shaped(was, factors)
  {
    Covers(was, seen) && now == Run(was, seen, h, factors)
  }

  lemma TrainedNot(m: Model, h: Hyper, factors: nat)
    requires Shaped(m, factors)
    ensures Trained(m, [], m, h, factors)
  {
  }

  lemma RunSnoc(m: Model, ratings: seq<Rating>, r: Rating, h: Hyper, factors: nat)
    requires Shaped(m, factors) && Covers(m, ratings + [r])
    ensures Covers(m, ratings) && r.user in m.users && r.item in m.items
    ensures Run(m, ratings + [r], h, factors) == Train(Run(m, ratings, h, factors), r, h)
  {
    assert forall x <- ratings :: x in ratings + [r];
    assert r in ratings + [r];
    assert (ratings + [r])[..|ratings|] == ratings;
  }

  lemma TrainedSnoc(was: Model, seen: seq<Rating>, now: Model, h: Hyper, factors: nat, r: Rating)
    requires Shaped(was, factors) && Trained(was, seen, now, h, factors)
    requires r.user in now.users && r.item in now.items
    ensures |now.users[r.user].weights| == |now.items[r.item].weights|
    ensures Trained(was, seen + [r], Train(now, r, h), h, factors)
  {
    forall x | x in seen + [r] ensures x.user in was.users && x.item in was.items {
      if x in seen {
      }
    }
    RunSnoc(was, seen, r, h, factors);
  }

  lemma {:induction false} RunConcat(m: Model, a: seq<Rating>, b: seq<Rating>, h: Hyper, factors: nat)
    requires Shaped(m, factors) && Covers(m, a) && Covers(m, b)
    ensures Covers(m, a + b)
    ensures Run(m, a + b, h, factors) == Run(Run(m, a, h, factors), b, h, factors)
    decreases |b|
  {
    if b == [] {
      assert a + b == a;
    } else {
      var front, last := b[..|b| - 1], b[|b| - 1];
      assert b == front + [last] && a + b == (a + front) + [last];
      assert last in b && forall x <- front :: x in b;
      RunConcat(m, a, front, h, factors);
      RunSnoc(m, a + front, last, h, factors);
      RunSnoc(Run(m, a, h, factors), front, last, h, factors);
    }
  }

  lemma TrainedMore(was: Model, seen: seq<Rating>, now: Model, more: seq<Rating>, h: Hyper, factors: nat)
    requires Shaped(was, factors) && Trained(was, seen, now, h, factors) && Covers(now, more)
    ensures Shaped(now, factors) && Trained(was, seen + more, Run(now, more, h, factors), h, factors)
  {
    assert Covers(was, more);
    RunConcat(was, seen, more, h, factors);
  }

  /** The ratings of one row, and of all rows from a first user on, in the order they are visited. */
  function RowRatings(user: int, row: Row): (r: seq<Rating>)
    ensures |r| == |row|
  {
    if row == [] then [] else
      var last := row[|row| - 1];
      RowRatings(user, row[..|row| - 1]) + [Rating(user, last.0, last.1)]
  }

  function Ratings(base: int, rows: seq<Row>): seq<Rating> {
    if rows == [] then [] else
      Ratings(base, rows[..|rows| - 1]) + RowRatings(base + |rows| - 1, rows[|rows| - 1])
  }

  lemma {:induction false} RatingsPrefix(base: int, rows: seq<Row>, i: nat)
    requires i <= |rows|
    ensures Ratings(base, rows[..i]) <= Ratings(base, rows)
    decreases |rows|
  {
    if i == |rows| {
      assert rows[..i] == rows;
    } else {
      RatingsPrefix(base, rows[..|rows| - 1], i);
      assert rows[..|rows| - 1][..i] == rows[..i];
    }
  }

  lemma {:induction false} RowRatingsPrefix(user: int, row: Row, j: nat)
    requires j <= |row|
    ensures RowRatings(user, row[..j]) <= RowRatings(user, row)
    decreases |row|
  {
    if j == |row| {
      assert row[..j] == row;
    } else {
      RowRatingsPrefix(user, row[..|row| - 1], j);
      assert row[..|row| - 1][..j] == row[..j];
    }
  }

  /** The ratings visited once i rows and j entries of the next row are done. */
  function Visited(base: int, rows: seq<Row>, i: nat, j: nat): seq<Rating>
    requires (i < |rows| && j <= |rows[i]|) || (i == |rows| && j == 0)
  {
    Ratings(base, rows[..i]) + if i < |rows| then RowRatings(base + i, rows[i][..j]) else []
  }

  lemma VisitNext(base: int, rows: seq<Row>, i: nat, j: nat)
    requires i < |rows| && j < |rows[i]|
    ensures Visited(base, rows, i, j) + [Rating(base + i, rows[i][j].0, rows[i][j].1)] == Visited(base, rows, i, j + 1)
  {
    hide Ratings;
    assert rows[i][..j + 1][..j] == rows[i][..j];
  }

  lemma VisitOrder(base: int, rows: seq<Row>, i: nat, j: nat)
    requires i < |rows| && j < |rows[i]|
    ensures Visited(base, rows, i, j) + [Rating(base + i, rows[i][j].0, rows[i][j].1)] == Visited(base, rows, i, j + 1)
    ensures Visited(base, rows, i, j + 1) <= Ratings(base, rows)
  {
    hide RowRatings;
    VisitNext(base, rows, i, j);
    RatingsPrefix(base, rows, i + 1);
    RowRatingsPrefix(base + i, rows[i], j + 1);
    assert rows[..i + 1][..i] == rows[..i];
    PrefixWithin(Ratings(base, rows[..i]), RowRatings(base + i, rows[i][..j + 1]), RowRatings(base + i, rows[i]),
                 Ratings(base, rows));
  }

  lemma PrefixWithin(a: seq<Rating>, b: seq<Rating>, longer: seq<Rating>, all: seq<Rating>)
    requires b <= longer && a + longer <= all
    ensures a + b <= all
  {
    assert a + longer == a + b + longer[|b|..];
  }

  lemma VisitedBounds(base: int, rows: seq<Row>, i: nat)
    requires i <= |rows|
    ensures Visited(base, rows, 0, 0) == []
    ensures i < |rows| ==> Visited(base, rows, i, |rows[i]|) == Visited(base, rows, i + 1, 0)
    ensures Visited(base, rows, |rows|, 0) == Ratings(base, rows)
  {
    assert rows[..|rows|] == rows;
    if i < |rows| {
      assert rows[..i + 1][..i] == rows[..i] && rows[i][..|rows[i]|] == rows[i];
      assert Ratings(base, rows[..i + 1]) == Ratings(base, rows[..i]) + RowRatings(base + i, rows[i]);
      assert i + 1 < |rows| ==> rows[i + 1][..0] == [];
    }
  }

  ghost predicate ItemsWithin(rows: seq<Row>, items: set<int>) {
    forall i, j | 0 <= i < |rows| && 0 <= j < |rows[i]| :: rows[i][j].0 in items
  }

  /** Every rating visited comes from a row, so its user and item are in range. */
  lemma {:induction false} RowRatingsWithin(user: int, row: Row, items: set<int>)
    requires forall j | 0 <= j < |row| :: row[j].0 in items
    ensures forall r <- RowRatings(user, row) :: r.user == user && r.item in items
  {
    if row != [] {
      RowRatingsWithin(user, row[..|row| - 1], items);
    }
  }

  lemma {:induction false} RatingsWithin(base: int, rows: seq<Row>, items: set<int>)
    requires ItemsWithin(rows, items)
    ensures forall r <- Ratings(base, rows) :: base <= r.user < base + |rows| && r.item in items
  {
    if rows != [] {
      var n := |rows| - 1;
      RatingsWithin(base, rows[..n], items);
      RowRatingsWithin(base + n, rows[n], items);
    }
  }

  /** Component-wise sum and difference of factor vectors. */
  function AddVec(a: seq<real>, b: seq<real>): (r: seq<real>)
    requires |a| == |b|
    ensures |r| == |a|
  {
    if a == [] then [] else
      var n := |a| - 1; AddVec(a[..n], b[..n]) + [a[n] + b[n]]
  }

  function SubVec(a: seq<real>, b: seq<real>): (r: seq<real>)
    requires |a| == |b|
    ensures |r| == |a|
  {
    if a == [] then [] else
      var n := |a| - 1; SubVec(a[..n], b[..n]) + [a[n] - b[n]]
  }

  lemma AddVecAppend(a: seq<real>, b: seq<real>, x: real, y: real)
    requires |a| == |b|
    ensures AddVec(a + [x], b + [y]) == AddVec(a, b) + [x + y]
  {
    assert (a + [x])[..|a|] == a && (b + [y])[..|a|] == b;
  }

  lemma SubVecAppend(a: seq<real>, b: seq<real>, x: real, y: real)
    requires |a| == |b|
    ensures SubVec(a + [x], b + [y]) == SubVec(a, b) + [x - y]
  {
    assert (a + [x])[..|a|] == a && (b + [y])[..|a|] == b;
  }

  lemma AddVecSnoc(a: seq<real>, b: seq<real>, k: nat)
    requires |a| == |b| && k < |a|
    ensures AddVec(a[..k + 1], b[..k + 1]) == AddVec(a[..k], b[..k]) + [a[k] + b[k]]
  {
    assert a[..k + 1] == a[..k] + [a[k]] && b[..k + 1] == b[..k] + [b[k]];
    AddVecAppend(a[..k], b[..k], a[k], b[k]);
    hide AddVec;
  }

  lemma {:induction false} AddVecAt(a: seq<real>, b: seq<real>, k: nat)
    requires |a| == |b| && k < |a|
    ensures AddVec(a, b)[k] == a[k] + b[k]
  {
    if k < |a| - 1 {
      AddVecAt(a[..|a| - 1], b[..|a| - 1], k);
    }
  }

  lemma {:induction false} SubVecAt(a: seq<real>, b: seq<real>, k: nat)
    requires |a| == |b| && k < |a|
    ensures SubVec(a, b)[k] == a[k] - b[k]
  {
    if k < |a| - 1 {
      SubVecAt(a[..|a| - 1], b[..|a| - 1], k);
    }
  }

  lemma AddSubAppend(a: seq<real>, b: seq<real>, c: seq<real>, x: real, y: real, z: real)
    requires |a| == |b| == |c|
    ensures AddVec(a + [x], SubVec(b + [y], c + [z])) == AddVec(a, SubVec(b, c)) + [x + (y - z)]
  {
    hide *;
    SubVecAppend(b, c, y, z);
    AddVecAppend(a, SubVec(b, c), x, y - z);
  }

  lemma AddSub(a: seq<real>, b: seq<real>)
    requires |a| == |b|
    ensures AddVec(a, SubVec(b, a)) == b
  {
    hide *;
    forall k | 0 <= k < |a| ensures AddVec(a, SubVec(b, a))[k] == b[k] {
      SubVecAt(b, a, k);
      AddVecAt(a, SubVec(b, a), k);
    }
  }

  lemma ZerosAdd(a: seq<real>)
    ensures AddVec(Zeros(|a|), a) == a && SubVec(a, a) == Zeros(|a|)
  {
    hide *;
    forall k | 0 <= k < |a| ensures AddVec(Zeros(|a|), a)[k] == a[k] && SubVec(a, a)[k] == 0.0 {
      AddVecAt(Zeros(|a|), a, k);
      SubVecAt(a, a, k);
    }
  }

  /** Differences telescope. */
  lemma SubTelescopes(a: seq<real>, b: seq<real>, c: seq<real>)
    requires |a| == |b| == |c|
    ensures AddVec(SubVec(b, a), SubVec(c, b)) == SubVec(c, a)
  {
    hide *;
    forall k | 0 <= k < |a| ensures AddVec(SubVec(b, a), SubVec(c, b))[k] == SubVec(c, a)[k] {
      SubVecAt(b, a, k);
      SubVecAt(c, b, k);
      SubVecAt(c, a, k);
      AddVecAt(SubVec(b, a), SubVec(c, b), k);
    }
  }

  ghost function UsersOf(ratings: seq<Rating>): set<int> {
    set r <- ratings :: r.user
  }

  ghost function ItemsOf(ratings: seq<Rating>): set<int> {
    set r <- ratings :: r.item
  }

  lemma ItemsOfSnoc(ratings: seq<Rating>, r: Rating)
    ensures ItemsOf(ratings + [r]) == ItemsOf(ratings) + {r.item}
  {
    assert forall x :: x in ratings + [r] <==> x in ratings || x == r;
  }

  /** Two models hold the same parameters for every user and item in the given sets. */
  ghost predicate Agree(a: Model, b: Model, users: set<int>, items: set<int>) {
    && (forall u <- users :: u in a.users && u in b.users && a.users[u] == b.users[u])
    && (forall i <- items :: i in a.items && i in b.items && a.items[i] == b.items[i])
  }

  lemma RatedByStream(ratings: seq<Rating>)
    ensures ratings != [] ==>
      var front, last := ratings[..|ratings| - 1], ratings[|ratings| - 1];
      && ratings == front + [last]
      && UsersOf(ratings) == UsersOf(front) + {last.user} && ItemsOf(ratings) == ItemsOf(front) + {last.item}
  {
    if ratings != [] {
      var front, last := ratings[..|ratings| - 1], ratings[|ratings| - 1];
      assert ratings == front + [last];
      assert forall r :: r in ratings <==> r in front || r == last;
    }
  }

  lemma TrainAgrees(a: Model, b: Model, r: Rating, h: Hyper, users: set<int>, items: set<int>)
    requires r.user in users && r.item in items
    requires Agree(a, b, users, items)
    requires |a.users[r.user].weights| == |a.items[r.item].weights|
    ensures Agree(Train(a, r, h), Train(b, r, h), users, items)
  {
  }

  lemma AgreeCovers(a: Model, b: Model, ratings: seq<Rating>, users: set<int>, items: set<int>)
    requires UsersOf(ratings) <= users && ItemsOf(ratings) <= items
    requires Agree(a, b, users, items)
    ensures Covers(a, ratings) && Covers(b, ratings)
  {
    assert forall r <- ratings :: r.user in UsersOf(ratings) && r.item in ItemsOf(ratings);
  }

  /** Training reads only the users and items its ratings name: run on two models that agree
      there, the results agree there. */
  lemma {:induction false} RunIsLocal(a: Model, b: Model, ratings: seq<Rating>, h: Hyper, factors: nat,
                                      users: set<int>, items: set<int>)
    requires Shaped(a, factors) && Shaped(b, factors)
    requires UsersOf(ratings) <= users && ItemsOf(ratings) <= items
    requires Agree(a, b, users, items)
    ensures Covers(a, ratings) && Covers(b, ratings)
    ensures Agree(Run(a, ratings, h, factors), Run(b, ratings, h, factors), users, items)
    decreases |ratings|
  {
    AgreeCovers(a, b, ratings, users, items);
    if ratings != [] {
      var front, last := ratings[..|ratings| - 1], ratings[|ratings| - 1];
      RatedByStream(ratings);
      RunIsLocal(a, b, front, h, factors, users, items);
      TrainAgrees(Run(a, front, h, factors), Run(b, front, h, factors), last, h, users, items);
    }
  }

  /** Training writes only the users and items its ratings name. */
  lemma {:induction false} RunFrames(m: Model, ratings: seq<Rating>, h: Hyper, factors: nat)
    requires Shaped(m, factors) && Covers(m, ratings)
    ensures forall u <- m.users | u !in UsersOf(ratings) :: Run(m, ratings, h, factors).users[u] == m.users[u]
    ensures forall i <- m.items | i !in ItemsOf(ratings) :: Run(m, ratings, h, factors).items[i] == m.items[i]
    decreases |ratings|
  {
    if ratings != [] {
      var front, last := ratings[..|ratings| - 1], ratings[|ratings| - 1];
      RatedByStream(ratings);
      RunSnoc(m, front, last, h, factors);
      RunFrames(m, front, h, factors);
    }
  }
}
