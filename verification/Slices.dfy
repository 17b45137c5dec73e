/** The wire format of a model slice: for each user of a minibatch and then each item it rates,
    the id, the bias and the factors. */
module Slices {
  import opened Factorization
  import opened MFGradients
  import opened Words

  ghost function EntityWords(id: int, e: Entity): seq<Word> {
    [StoreInt(id), Feature(e.bias)] + FeatureWords(e.weights)
  }

  ghost function EntityOf(id: int, t: map<int, Entity>): Entity {
    if id in t then t[id] else Entity(0.0, [])
  }

  ghost function SliceWords(ids: seq<int>, t: map<int, Entity>): seq<Word> {
    if ids == [] then [] else EntityWords(ids[0], EntityOf(ids[0], t)) + SliceWords(ids[1..], t)
  }

  lemma SliceWordsEmpty(t: map<int, Entity>)
    ensures SliceWords([], t) == []
  {
  }

  lemma {:induction false} SliceWordsSnoc(ids: seq<int>, id: int, t: map<int, Entity>)
    ensures SliceWords(ids + [id], t) == SliceWords(ids, t) + EntityWords(id, EntityOf(id, t))
  {
    hide EntityWords, EntityOf;
    if ids == [] {
      assert ids + [id] == [id] && [id][1..] == [];
    } else {
      assert (ids + [id])[1..] == ids[1..] + [id];
      SliceWordsSnoc(ids[1..], id, t);
    }
  }

  /** The ids of n consecutive users. */
  ghost function Span(base: int, n: nat): (ids: seq<int>)
    ensures |ids| == n && forall i | 0 <= i < n :: ids[i] == base + i
  {
    if n == 0 then [] else Span(base, n - 1) + [base + n - 1]
  }

  /** The bytes of a slice: what process_get_mf_sparse_model announces before sending it. */
  lemma {:induction false} SliceSize(ids: seq<int>, t: map<int, Entity>)
    requires forall id <- ids :: |EntityOf(id, t).weights| == NUM_FACTORS
    ensures WORD_BYTES * |SliceWords(ids, t)| == |ids| * (4 + (NUM_FACTORS + 1) * 4)
  {
    if ids != [] {
      assert ids[0] in ids && forall id <- ids[1..] :: id in ids;
      SliceSize(ids[1..], t);
    }
  }

  /** Reads one entity of a slice. */
  method LoadEntity(mem: seq<Word>, at: nat, ghost id: int, ghost e: Entity, ghost rest: seq<Word>)
    returns (loadedId: int, bias: real, weights: seq<real>, next: nat)
    requires |e.weights| == NUM_FACTORS && 0 <= id < TWO_32
    requires at <= |mem| && mem[at..] == EntityWords(id, e) + rest
    ensures loadedId == id && bias == e.bias && weights == e.weights
    ensures next <= |mem| && mem[next..] == rest
  {
    LoadStore(id);
    assert mem[at] == mem[at..][0] && mem[at + 1] == mem[at..][1];
    loadedId, bias := LoadUnsigned(mem[at]), mem[at + 1].value;
    next, weights := at + 2, [];
    assert mem[at + 2..] == mem[at..][2..] == FeatureWords(e.weights) + rest;
    for j := 0 to NUM_FACTORS
      invariant next == at + 2 + j && weights == e.weights[..j]
    {
      assert mem[next] == mem[at + 2..][j];
      weights := weights + [mem[next].value];
      next := next + 1;
    }
    assert mem[next..] == mem[at + 2..][NUM_FACTORS..];
    assert e.weights[..NUM_FACTORS] == e.weights;
  }

  ghost predicate Sliceable(ids: seq<int>, t: map<int, Entity>) {
    forall i | 0 <= i < |ids| :: 0 <= ids[i] < TWO_32 && |EntityOf(ids[i], t).weights| == NUM_FACTORS
  }

  method LoadUsers(mem: seq<Word>, count: nat, ghost ids: seq<int>, ghost t: map<int, Entity>, ghost rest: seq<Word>)
    returns (users: seq<(int, Entity)>, next: nat)
    requires Sliceable(ids, t) && count == |ids|
    requires mem == SliceWords(ids, t) + rest
    ensures |users| == |ids| && forall i | 0 <= i < |ids| :: users[i] == (ids[i], EntityOf(ids[i], t))
    ensures next <= |mem| && mem[next..] == rest
  {
    users, next := [], 0;
    assert ids[0..] == ids && mem[0..] == mem;
    hide EntityWords, EntityOf;
    for i := 0 to count
      invariant next <= |mem| && mem[next..] == SliceWords(ids[i..], t) + rest
      invariant |users| == i && forall k | 0 <= k < i :: users[k] == (ids[k], EntityOf(ids[k], t))
    {
      assert ids[i..][1..] == ids[i + 1..];
      var id, bias, weights;
      id, bias, weights, next := LoadEntity(mem, next, ids[i], EntityOf(ids[i], t), SliceWords(ids[i + 1..], t) + rest);
      users := users + [(id, Entity(bias, weights))];
    }
  }

  method LoadItems(mem: seq<Word>, at: nat, count: nat, ghost ids: seq<int>, ghost t: map<int, Entity>)
    returns (items: map<int, Entity>)
    requires Sliceable(ids, t) && count == |ids|
    requires at <= |mem| && mem[at..] == SliceWords(ids, t)
    ensures forall k :: k in items <==> k in ids
    ensures forall k <- items :: items[k] == EntityOf(k, t)
  {
    items := map[];
    var next: nat := at;
    assert ids[0..] == ids;
    hide EntityWords, EntityOf;
    for i := 0 to count
      invariant next <= |mem| && mem[next..] == SliceWords(ids[i..], t)
      invariant forall k | 0 <= k < i :: ids[k] in items
      invariant forall k <- items :: k in ids && items[k] == EntityOf(k, t)
    {
      assert ids[i..][1..] == ids[i + 1..] && ids[i] in ids;
      assert mem[next..] == EntityWords(ids[i], EntityOf(ids[i], t)) + SliceWords(ids[i + 1..], t);
      var id, bias, weights;
      id, bias, weights, next := LoadEntity(mem, next, ids[i], EntityOf(ids[i], t), SliceWords(ids[i + 1..], t));
      items := items[id := Entity(bias, weights)];
    }
  }
}
