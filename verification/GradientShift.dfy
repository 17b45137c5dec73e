/** What a shipped gradient means to a model: a shift of every parameter it names, and the
    gradients that are exactly the difference between two models. */
module GradientShift {
  import opened Factorization
  import opened MFGradients

  /** The factors of entity `id` after every block with that id has been added, in order. */
  ghost function AddBlocks(w: seq<real>, blocks: seq<Block>, id: int): (r: seq<real>)
    requires |w| == NUM_FACTORS && forall b <- blocks :: |b.1| == NUM_FACTORS
    ensures |r| == NUM_FACTORS
  {
    if blocks == [] then w else
      var last := blocks[|blocks| - 1];
      assert last in blocks;
      var r := AddBlocks(w, blocks[..|blocks| - 1], id);
      if last.0 == id then AddVec(r, last.1) else r
  }

  lemma AddBlocksSnoc(w: seq<real>, blocks: seq<Block>, b: Block, id: int)
    requires |w| == NUM_FACTORS && |b.1| == NUM_FACTORS && forall x <- blocks :: |x.1| == NUM_FACTORS
    ensures forall x <- blocks + [b] :: |x.1| == NUM_FACTORS
    ensures AddBlocks(w, blocks + [b], id)
         == if b.0 == id then AddVec(AddBlocks(w, blocks, id), b.1) else AddBlocks(w, blocks, id)
  {
    assert (blocks + [b])[..|blocks|] == blocks;
  }

  ghost function ShiftEntity(e: Entity, id: int, bias: map<int, real>, blocks: seq<Block>): Entity
    requires |e.weights| == NUM_FACTORS && forall b <- blocks :: |b.1| == NUM_FACTORS
  {
    Entity(e.bias + BiasOf(id, bias), AddBlocks(e.weights, blocks, id))
  }

  ghost function ShiftAll(entities: map<int, Entity>, bias: map<int, real>, blocks: seq<Block>): map<int, Entity>
    requires forall id <- entities :: |entities[id].weights| == NUM_FACTORS
    requires forall b <- blocks :: |b.1| == NUM_FACTORS
  {
    map id | id in entities :: ShiftEntity(entities[id], id, bias, blocks)
  }

  ghost function Shift(m: Model, g: MFGradient): Model
    requires Shaped(m, NUM_FACTORS) && SendableBlocks(g.usersWeights) && SendableBlocks(g.itemsWeights)
  {
    Model(ShiftAll(m.users, g.usersBias, g.usersWeights), ShiftAll(m.items, g.itemsBias, g.itemsWeights))
  }

  ghost predicate Comparable(before: map<int, Entity>, after: map<int, Entity>, ids: set<int>) {
    forall id <- ids ::
      (id in before && id in after && |before[id].weights| == |after[id].weights| == NUM_FACTORS)
  }

  /** The biases and blocks hold, once for each of `ids`, how far `after` is from `before`. */
  ghost predicate IsDelta(bias: map<int, real>, blocks: seq<Block>, before: map<int, Entity>, after: map<int, Entity>,
                          ids: set<int>)
  {
    && Comparable(before, after, ids)
    && (forall id :: id in bias <==> id in ids)
    && (forall id <- ids :: bias[id] == after[id].bias - before[id].bias)
    && AreDeltaBlocks(blocks, before, after, ids)
  }

  ghost predicate AreDeltaBlocks(blocks: seq<Block>, before: map<int, Entity>, after: map<int, Entity>, ids: set<int>)
    requires Comparable(before, after, ids)
  {
    && (forall id <- ids :: exists b <- blocks :: b.0 == id)
    && (forall b <- blocks :: b.0 in ids && b.1 == SubVec(after[b.0].weights, before[b.0].weights))
    && (forall i, j | 0 <= i < j < |blocks| :: blocks[i].0 != blocks[j].0)
  }

  lemma {:induction false} AddBlocksElsewhere(w: seq<real>, blocks: seq<Block>, id: int)
    requires |w| == NUM_FACTORS && forall b <- blocks :: |b.1| == NUM_FACTORS
    requires forall b <- blocks :: b.0 != id
    ensures AddBlocks(w, blocks, id) == w
  {
    if blocks != [] {
      assert blocks[|blocks| - 1] in blocks;
      AddBlocksElsewhere(w, blocks[..|blocks| - 1], id);
    }
  }

  lemma {:induction false} AddBlocksOnce(w: seq<real>, blocks: seq<Block>, i: nat)
    requires |w| == NUM_FACTORS && forall b <- blocks :: |b.1| == NUM_FACTORS
    requires i < |blocks|
    requires forall i, j | 0 <= i < j < |blocks| :: blocks[i].0 != blocks[j].0
    ensures AddBlocks(w, blocks, blocks[i].0) == AddVec(w, blocks[i].1)
  {
    var front := blocks[..|blocks| - 1];
    assert blocks[|blocks| - 1] in blocks && forall b <- front :: b in blocks;
    if i == |blocks| - 1 {
      forall b | b in front ensures b.0 != blocks[i].0 {}
      AddBlocksElsewhere(w, front, blocks[i].0);
    } else {
      AddBlocksOnce(w, front, i);
    }
  }

  lemma DeltaBlocksShaped(blocks: seq<Block>, before: map<int, Entity>, after: map<int, Entity>, ids: set<int>)
    requires Comparable(before, after, ids) && AreDeltaBlocks(blocks, before, after, ids)
    ensures forall b <- blocks :: |b.1| == NUM_FACTORS
  {
    forall b | b in blocks ensures |b.1| == NUM_FACTORS {
      var id := b.0;
      assert id in ids;
      assert |after[id].weights| == NUM_FACTORS;
      assert b.1 == SubVec(after[id].weights, before[id].weights);
    }
  }

  /** Adding a delta to the model it was measured from gives the model it was measured to. */
  lemma ShiftByDelta(e: Entity, id: int, bias: map<int, real>, blocks: seq<Block>,
                     before: map<int, Entity>, after: map<int, Entity>, ids: set<int>)
    requires IsDelta(bias, blocks, before, after, ids)
    requires |e.weights| == NUM_FACTORS
    requires id in ids ==> e == before[id]
    ensures forall b <- blocks :: |b.1| == NUM_FACTORS
    ensures ShiftEntity(e, id, bias, blocks) == if id in ids then after[id] else e
  {
    hide AddBlocks, SubVec, AddVec;
    DeltaBlocksShaped(blocks, before, after, ids);
    if id in ids {
      var b :| b in blocks && b.0 == id;
      var i :| 0 <= i < |blocks| && blocks[i] == b;
      AddBlocksOnce(e.weights, blocks, i);
      AddSub(before[id].weights, after[id].weights);
    } else {
      AddBlocksElsewhere(e.weights, blocks, id);
    }
  }
}
