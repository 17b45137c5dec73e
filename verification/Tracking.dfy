/** How a worker's gradient maps follow its private model: every bias and factor vector it has
    touched is recorded as a difference, everything else is unchanged. */
module Tracking {
  import opened Factorization
  import opened GradientShift
  import opened MFGradients
  import opened Repeats
  import opened Sets
  import opened Words

  ghost predicate Tracks(bias: map<int, real>, moves: map<int, seq<real>>,
                         before: map<int, Entity>, after: map<int, Entity>, ids: set<int>)
  {
    && (forall id :: id in bias <==> id in ids)
    && (forall id :: id in moves <==> id in ids)
    && (forall id <- ids :: id in before)
    && (forall id <- before :: id in after && |before[id].weights| == |after[id].weights| == NUM_FACTORS)
    && (forall id <- before :: id !in ids ==> after[id] == before[id])
    && (forall id <- ids :: bias[id] == after[id].bias - before[id].bias)
    && (forall id <- ids :: moves[id] == SubVec(after[id].weights, before[id].weights))
  }

  function MoveOf(id: int, moves: map<int, seq<real>>): seq<real> {
    if id in moves then moves[id] else Zeros(NUM_FACTORS)
  }

  lemma TracksNothing(before: map<int, Entity>)
    requires forall id <- before :: |before[id].weights| == NUM_FACTORS
    ensures Tracks(map[], map[], before, before, {})
  {
  }

  /** What the accumulators hold for an entity is the difference so far, zero when untouched. */
  lemma TrackedSoFar(bias: map<int, real>, moves: map<int, seq<real>>,
                     before: map<int, Entity>, after: map<int, Entity>, ids: set<int>, id: int)
    requires Tracks(bias, moves, before, after, ids) && id in before
    ensures BiasOf(id, bias) == after[id].bias - before[id].bias
    ensures MoveOf(id, moves) == SubVec(after[id].weights, before[id].weights)
  {
    if id !in ids {
      ZerosAdd(before[id].weights);
    }
  }

  /** One more update of one entity, with its deltas added to what was accumulated. */
  lemma TrackStep(bias: map<int, real>, moves: map<int, seq<real>>, before: map<int, Entity>, after: map<int, Entity>,
                  ids: set<int>, id: int, entity: Entity)
    requires Tracks(bias, moves, before, after, ids)
    requires id in before && |entity.weights| == NUM_FACTORS
    ensures |MoveOf(id, moves)| == NUM_FACTORS
    ensures Tracks(bias[id := BiasOf(id, bias) + (entity.bias - after[id].bias)],
                   moves[id := AddVec(MoveOf(id, moves), SubVec(entity.weights, after[id].weights))],
                   before, after[id := entity], ids + {id})
  {
    hide SubVec, AddVec, MoveOf, BiasOf;
    TrackedSoFar(bias, moves, before, after, ids, id);
    SubTelescopes(before[id].weights, after[id].weights, entity.weights);
  }

  /** Blocks listing each tracked entity once carry exactly the delta. */
  lemma TrackedDelta(bias: map<int, real>, moves: map<int, seq<real>>, before: map<int, Entity>,
                     after: map<int, Entity>, ids: set<int>, order: seq<int>, blocks: seq<Block>)
    requires Tracks(bias, moves, before, after, ids)
    requires forall i, j | 0 <= i < j < |order| :: order[i] != order[j]
    requires forall k :: k in order <==> k in ids
    requires |blocks| == |order| && forall i | 0 <= i < |order| :: blocks[i] == (order[i], MoveOf(order[i], moves))
    ensures IsDelta(bias, blocks, before, after, ids)
    ensures |blocks| == |bias|
    ensures (forall id <- ids :: FitsInt(id)) ==> SendableBlocks(blocks)
  {
    hide SubVec;
    DistinctCount(order, ids);
    assert forall k :: k in bias.Keys <==> k in ids;
    assert bias.Keys == ids;
    forall id | id in ids ensures exists b :: b in blocks && b.0 == id {
      var i :| 0 <= i < |order| && order[i] == id;
      assert blocks[i] in blocks && blocks[i].0 == id;
    }
    forall b | b in blocks ensures b.0 in ids && b.1 == SubVec(after[b.0].weights, before[b.0].weights) {
      var i :| 0 <= i < |blocks| && blocks[i] == b;
      assert order[i] in order;
    }
  }

  lemma TrackedKeys(bias: map<int, real>, moves: map<int, seq<real>>, before: map<int, Entity>, after: map<int, Entity>,
                    ids: set<int>)
    requires Tracks(bias, moves, before, after, ids)
    ensures forall id <- bias :: id in ids
    ensures |bias| == |ids|
  {
    assert forall id :: id in bias.Keys <==> id in ids;
    assert bias.Keys == ids;
  }

  /** Marking an untouched entity as touched with a zero change. */
  lemma TrackTouch(bias: map<int, real>, moves: map<int, seq<real>>, before: map<int, Entity>, after: map<int, Entity>,
                   ids: set<int>, id: int)
    requires Tracks(bias, moves, before, after, ids)
    requires id in before && id !in ids
    ensures Tracks(bias[id := 0.0], moves[id := Zeros(NUM_FACTORS)], before, after, ids + {id})
  {
    ZerosAdd(before[id].weights);
    hide SubVec;
  }

  /** The gradient under construction: the two bias maps, the factor moves of each item seen, and
      the items in the order they were first seen. */
  datatype Partial = Partial(usersBias: map<int, real>, itemsBias: map<int, real>,
                             itemMoves: map<int, seq<real>>, itemList: seq<int>)

  ghost predicate Lists(order: seq<int>, ids: set<int>) {
    && (forall i, j | 0 <= i < j < |order| :: order[i] != order[j])
    && (forall k :: k in order <==> k in ids)
  }

  lemma ListsSnoc(order: seq<int>, ids: set<int>, id: int)
    requires Lists(order, ids)
    ensures Lists(if id in ids then order else order + [id], ids + {id})
  {
  }

  ghost predicate Accumulated(p: Partial, userMoves: map<int, seq<real>>, was: Model, now: Model,
                              users: set<int>, items: set<int>)
  {
    && Tracks(p.usersBias, userMoves, was.users, now.users, users)
    && Tracks(p.itemsBias, p.itemMoves, was.items, now.items, items)
    && Lists(p.itemList, items)
  }

  /** The accumulators after one more rating. */
  function Accumulate(p: Partial, user: int, item: int, userBias: real, itemBias: real, itemMove: seq<real>): Partial {
    Partial(p.usersBias[user := BiasOf(user, p.usersBias) + userBias],
            p.itemsBias[item := BiasOf(item, p.itemsBias) + itemBias],
            p.itemMoves[item := itemMove],
            if item in p.itemMoves then p.itemList else p.itemList + [item])
  }

  lemma TracksShape(bias: map<int, real>, moves: map<int, seq<real>>, before: map<int, Entity>, after: map<int, Entity>,
                    ids: set<int>, id: int)
    requires Tracks(bias, moves, before, after, ids) && id in before
    ensures id in after && |before[id].weights| == |after[id].weights| == NUM_FACTORS
    ensures |MoveOf(id, moves)| == NUM_FACTORS
    ensures id in moves <==> id in ids
  {
  }

  lemma AccumulatedStep(p: Partial, userMoves: map<int, seq<real>>, was: Model, now: Model,
                        users: set<int>, items: set<int>, r: Rating, now': Model)
    requires Accumulated(p, userMoves, was, now, users, items)
    requires r.user in users && r.user in was.users && r.item in was.items && r.item in now.items
    requires r.user in now.users && r.user in now'.users && r.item in now'.items
    requires |now'.users[r.user].weights| == |now'.items[r.item].weights| == NUM_FACTORS
    requires now'.users == now.users[r.user := now'.users[r.user]]
    requires now'.items == now.items[r.item := now'.items[r.item]]
    ensures |MoveOf(r.user, userMoves)| == |MoveOf(r.item, p.itemMoves)| == NUM_FACTORS
    ensures |now.users[r.user].weights| == |now.items[r.item].weights| == NUM_FACTORS
    ensures
      var du, di := SubVec(now'.users[r.user].weights, now.users[r.user].weights),
                    SubVec(now'.items[r.item].weights, now.items[r.item].weights);
      Accumulated(Accumulate(p, r.user, r.item, now'.users[r.user].bias - now.users[r.user].bias,
                             now'.items[r.item].bias - now.items[r.item].bias,
                             AddVec(MoveOf(r.item, p.itemMoves), di)),
                  userMoves[r.user := AddVec(MoveOf(r.user, userMoves), du)], was, now', users, items + {r.item})
  {
    hide Tracks, Lists, SubVec, AddVec, MoveOf, BiasOf;
    TracksShape(p.usersBias, userMoves, was.users, now.users, users, r.user);
    TracksShape(p.itemsBias, p.itemMoves, was.items, now.items, items, r.item);
    TrackStep(p.usersBias, userMoves, was.users, now.users, users, r.user, now'.users[r.user]);
    TrackStep(p.itemsBias, p.itemMoves, was.items, now.items, items, r.item, now'.items[r.item]);
    ListsSnoc(p.itemList, items, r.item);
    assert users + {r.user} == users;
  }
}
