/** What a training step is for: the descent step of the regularized squared error of one rating.  A step
    along a parameter is told from the loss alone, through its symmetric difference: for a quadratic
    function L, L(x + e) - L(x - e) is 2 e times the derivative at x. */
module Descent {
  import opened Factorization
  import opened Repeats

  lemma {:induction false} DotSymmetric(a: seq<real>, b: seq<real>, n: nat)
    requires n <= |a| && n <= |b|
    ensures Dot(a, b, n) == Dot(b, a, n)
  {
    if n > 0 {
      DotSymmetric(a, b, n - 1);
    }
  }

  lemma {:induction false} DotUpdate(a: seq<real>, b: seq<real>, n: nat, k: nat, x: real)
    requires n <= |a| && n <= |b| && k < |a|
    ensures Dot(a[k := x], b, n) == Dot(a, b, n) + if k < n then (x - a[k]) * b[k] else 0.0
  {
    if n > 0 {
      DotUpdate(a, b, n - 1, k, x);
    }
  }

  lemma {:induction false} DotZero(a: seq<real>, b: seq<real>, n: nat)
    requires n <= |a| && n <= |b| && forall k | 0 <= k < |a| :: a[k] == 0.0
    ensures Dot(a, b, n) == 0.0
  {
    if n > 0 {
      DotZero(a, b, n - 1);
    }
  }

  function WithBias(e: Entity, x: real): Entity {
    e.(bias := x)
  }

  function WithFactor(e: Entity, k: nat, x: real): Entity
    requires k < |e.weights|
  {
    e.(weights := e.weights[k := x])
  }

  /** Users and items play the same part in a prediction. */
  lemma PredictSymmetric(user: Entity, item: Entity)
    requires |user.weights| == |item.weights|
    ensures Predict(user, item) == Predict(item, user)
  {
    DotSymmetric(user.weights, item.weights, |user.weights|);
  }

  /** A prediction is linear in each bias. */
  lemma PredictAddsBiases(user: Entity, item: Entity, x: real)
    requires |user.weights| == |item.weights|
    ensures Predict(WithBias(user, x), item) == Predict(user, item) + (x - user.bias)
    ensures Predict(user, WithBias(item, x)) == Predict(user, item) + (x - item.bias)
  {
  }

  /** A prediction is linear in each factor, in proportion to the partner's. */
  lemma PredictMultipliesFactors(user: Entity, item: Entity, k: nat, x: real)
    requires |user.weights| == |item.weights| && k < |user.weights|
    ensures Predict(WithFactor(user, k, x), item) == Predict(user, item) + (x - user.weights[k]) * item.weights[k]
    ensures Predict(user, WithFactor(item, k, x)) == Predict(user, item) + (x - item.weights[k]) * user.weights[k]
  {
    var n := |user.weights|;
    DotUpdate(user.weights, item.weights, n, k, x);
    DotUpdate(item.weights, user.weights, n, k, x);
    DotSymmetric(item.weights, user.weights, n);
    DotSymmetric(item.weights[k := x], user.weights, n);
    hide Dot;
  }

  /** Where nothing is known the prediction is the global mean, 3.604. */
  lemma PredictUnknown(n: nat, other: Entity)
    requires |other.weights| == n
    ensures Predict(Entity(0.0, Zeros(n)), other.(bias := 0.0)) == 3.604
  {
    DotZero(Zeros(n), other.weights, n);
    hide Dot;
  }

  function SquareOf(x: real): real {
    x * x
  }

  /** The loss of a rating when a regularized parameter is x and the prediction is p. */
  function Loss(score: real, p: real, reg: real, x: real): real {
    SquareOf(score - p) + reg * SquareOf(x)
  }

  /** `moved` lies from `was` by the rate times half the negative derivative of a quadratic loss, which
      is `below` at was - e and `above` at was + e. */
  ghost predicate IsDescent(was: real, moved: real, rate: real, e: real, below: real, above: real) {
    rate * (below - above) == 4.0 * e * (moved - was)
  }

  /** The losses around x, where the prediction moves by `slope` times the parameter. */
  lemma LossDifference(score: real, p: real, slope: real, reg: real, x: real, e: real)
    ensures Loss(score, p - slope * e, reg, x - e) - Loss(score, p + slope * e, reg, x + e)
         == 4.0 * e * ((score - p) * slope - reg * x)
  {
    var d := score - p;
    var m := slope * e;
    assert SquareOf(d + m) - SquareOf(d - m) == 4.0 * d * m;
    assert SquareOf(x - e) - SquareOf(x + e) == -4.0 * (x * e);
    assert score - (p - m) == d + m && score - (p + m) == d - m;
    assert reg * SquareOf(x - e) - reg * SquareOf(x + e) == reg * (SquareOf(x - e) - SquareOf(x + e));
    assert 4.0 * d * m == 4.0 * e * (d * slope);
    assert reg * (-4.0 * (x * e)) == -4.0 * e * (reg * x);
  }

  lemma Scaled(rate: real, e: real, y: real)
    ensures rate * (4.0 * e * y) == 4.0 * e * (rate * y)
  {
  }

  lemma BiasStep(score: real, p: real, reg: real, x: real, rate: real, e: real)
    ensures IsDescent(x, NudgeBias(x, score - p, rate, reg), rate, e,
                      Loss(score, p - e, reg, x - e), Loss(score, p + e, reg, x + e))
  {
    LossDifference(score, p, 1.0, reg, x, e);
    Scaled(rate, e, score - p - reg * x);
    hide Loss;
    assert 1.0 * e == e;
  }

  /** `low` and `high` are the predictions where the factor is x - e and x + e. */
  lemma FactorStep(score: real, p: real, slope: real, reg: real, x: real, rate: real, e: real, low: real, high: real)
    requires low == p + (x - e - x) * slope && high == p + (x + e - x) * slope
    ensures IsDescent(x, Nudge(x, slope, score - p, rate, reg), rate, e,
                      Loss(score, low, reg, x - e), Loss(score, high, reg, x + e))
  {
    Opposite(slope, x, e);
    LossDifference(score, p, slope, reg, x, e);
    Scaled(rate, e, (score - p) * slope - reg * x);
    hide Loss;
  }

  lemma Opposite(slope: real, x: real, e: real)
    ensures (x - e - x) * slope == -(slope * e) && (x + e - x) * slope == slope * e
  {
  }

  /** The step along one factor of an entity, for its prediction with a partner. */
  lemma EntityStep(a: Entity, partner: Entity, score: real, k: nat, reg: real, rate: real, e: real)
    requires k < |a.weights| == |partner.weights|
    ensures var x := a.weights[k];
      IsDescent(x, Nudge(x, partner.weights[k], score - Predict(a, partner), rate, reg), rate, e,
                Loss(score, Predict(WithFactor(a, k, x - e), partner), reg, x - e),
                Loss(score, Predict(WithFactor(a, k, x + e), partner), reg, x + e))
  {
    var x, p := a.weights[k], Predict(a, partner);
    var low, high := Predict(WithFactor(a, k, x - e), partner), Predict(WithFactor(a, k, x + e), partner);
    PredictMultipliesFactors(a, partner, k, x - e);
    PredictMultipliesFactors(a, partner, k, x + e);
    hide *;
    FactorStep(score, p, partner.weights[k], reg, x, rate, e, low, high);
  }

  /** Both biases take the descent step of the loss of their rating. */
  lemma BiasesDescend(m: Model, r: Rating, h: Hyper, e: real)
    requires r.user in m.users && r.item in m.items && |m.users[r.user].weights| == |m.items[r.item].weights|
    ensures var user, item, now := m.users[r.user], m.items[r.item], Train(m, r, h);
      && IsDescent(user.bias, now.users[r.user].bias, h.rate, e,
           Loss(r.score, Predict(WithBias(user, user.bias - e), item), h.userBiasReg, user.bias - e),
           Loss(r.score, Predict(WithBias(user, user.bias + e), item), h.userBiasReg, user.bias + e))
      && IsDescent(item.bias, now.items[r.item].bias, h.rate, e,
           Loss(r.score, Predict(user, WithBias(item, item.bias - e)), h.itemBiasReg, item.bias - e),
           Loss(r.score, Predict(user, WithBias(item, item.bias + e)), h.itemBiasReg, item.bias + e))
  {
    var user, item := m.users[r.user], m.items[r.item];
    var p := Predict(user, item);
    PredictAddsBiases(user, item, user.bias - e);
    PredictAddsBiases(user, item, user.bias + e);
    PredictAddsBiases(user, item, item.bias - e);
    PredictAddsBiases(user, item, item.bias + e);
    BiasStep(r.score, p, h.userBiasReg, user.bias, h.rate, e);
    BiasStep(r.score, p, h.itemBiasReg, item.bias, h.rate, e);
    hide Predict, Loss, NudgeBias, IsDescent, NudgeAll, WithFactor;
  }

  /** What the step does to one factor of the user, and then to one of the item. */
  lemma FactorsMoved(m: Model, r: Rating, h: Hyper, k: nat)
    requires r.user in m.users && r.item in m.items
    requires k < |m.users[r.user].weights| == |m.items[r.item].weights|
    ensures var user, item, now := m.users[r.user], m.items[r.item], Train(m, r, h);
      var error, user' := r.score - Predict(user, item), now.users[r.user];
      && |user'.weights| == |now.items[r.item].weights| == |user.weights|
      && user'.weights[k] == Nudge(user.weights[k], item.weights[k], error, h.rate, h.userFactReg)
      && now.items[r.item].weights[k] == Nudge(item.weights[k], user'.weights[k], error, h.rate, h.itemFactReg)
  {
    var user, item := m.users[r.user], m.items[r.item];
    var error := r.score - Predict(user, item);
    hide Predict, NudgeBias, NudgeAll, Nudge;
    NudgeAllAt(user.weights, item.weights, error, h.rate, h.userFactReg);
    NudgeAllAt(item.weights, TrainUser(user, item, error, h).weights, error, h.rate, h.itemFactReg);
  }

  /** Each factor of the user takes the descent step of the loss. */
  lemma UserFactorsDescend(m: Model, r: Rating, h: Hyper, k: nat, e: real)
    requires r.user in m.users && r.item in m.items
    requires k < |m.users[r.user].weights| == |m.items[r.item].weights|
    ensures var user, item, now := m.users[r.user], m.items[r.item], Train(m, r, h);
      var x := user.weights[k];
      && |now.users[r.user].weights| == |user.weights|
      && IsDescent(x, now.users[r.user].weights[k], h.rate, e,
           Loss(r.score, Predict(WithFactor(user, k, x - e), item), h.userFactReg, x - e),
           Loss(r.score, Predict(WithFactor(user, k, x + e), item), h.userFactReg, x + e))
  {
    var user, item := m.users[r.user], m.items[r.item];
    FactorsMoved(m, r, h, k);
    EntityStep(user, item, r.score, k, h.userFactReg, h.rate, e);
    hide *;
  }

  /** Each factor of the item takes the descent step of the loss at the user as just moved, for the
      error measured before: the loss that has this error there. */
  lemma ItemFactorsDescend(m: Model, r: Rating, h: Hyper, k: nat, e: real)
    requires r.user in m.users && r.item in m.items
    requires k < |m.users[r.user].weights| == |m.items[r.item].weights|
    ensures var user, item, now := m.users[r.user], m.items[r.item], Train(m, r, h);
      && |now.users[r.user].weights| == |now.items[r.item].weights| == |item.weights|
      && var x, user' := item.weights[k], now.users[r.user];
      var goal := r.score - Predict(user, item) + Predict(user', item);
      IsDescent(x, now.items[r.item].weights[k], h.rate, e,
        Loss(goal, Predict(user', WithFactor(item, k, x - e)), h.itemFactReg, x - e),
        Loss(goal, Predict(user', WithFactor(item, k, x + e)), h.itemFactReg, x + e))
  {
    var user, item := m.users[r.user], m.items[r.item];
    var x, user' := item.weights[k], Train(m, r, h).users[r.user];
    FactorsMoved(m, r, h, k);
    var goal := r.score - Predict(user, item) + Predict(user', item);
    EntityStep(item, user', goal, k, h.itemFactReg, h.rate, e);
    PredictSymmetric(user', item);
    PredictSymmetric(user', WithFactor(item, k, x - e));
    PredictSymmetric(user', WithFactor(item, k, x + e));
    assert goal - Predict(item, user') == r.score - Predict(user, item);
    hide *;
  }
}
