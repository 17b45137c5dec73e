/** The sparse gradient a matrix-factorization worker ships to the parameter server, and its
    wire format. */
module MFGradients {
  import opened Sets
  import opened Words

  const NUM_FACTORS := 10
  const MAGIC_NUMBER := 0x1337
  const TRAILER := 0x1338

  type Block = (int, seq<real>)

  datatype MFGradient = MFGradient(usersBias: map<int, real>, itemsBias: map<int, real>,
                                   usersWeights: seq<Block>, itemsWeights: seq<Block>)

  /** getSerializedSize */
  function SerializedSize(g: MFGradient): nat {
    4 * (2 + 2) + |g.usersBias| * (4 + 4) + |g.itemsBias| * (4 + 4)
    + |g.usersWeights| * (4 + NUM_FACTORS * 4) + |g.itemsWeights| * (4 + NUM_FACTORS * 4)
  }

  ghost predicate SendableBlocks(blocks: seq<Block>) {
    forall b <- blocks :: FitsInt(b.0) && |b.1| == NUM_FACTORS
  }

  /** What serialize asserts of a gradient, and what its field types say. */
  ghost predicate Sendable(g: MFGradient) {
    && |g.usersWeights| == |g.usersBias| < TWO_32 && |g.itemsWeights| == |g.itemsBias| < TWO_32
    && (forall u <- g.usersBias :: FitsInt(u)) && (forall i <- g.itemsBias :: FitsInt(i))
    && SendableBlocks(g.usersWeights) && SendableBlocks(g.itemsWeights)
  }

  /** An order in which a hash map may be walked. */
  ghost predicate Enumerates(order: seq<int>, keys: set<int>) {
    && |order| == |keys|
    && (forall k :: k in order <==> k in keys)
  }

  function BiasOf(k: int, bias: map<int, real>): real {
    if k in bias then bias[k] else 0.0
  }

  ghost function BiasWords(order: seq<int>, bias: map<int, real>): seq<Word> {
    if order == [] then [] else
      [StoreInt(order[0]), Feature(BiasOf(order[0], bias))] + BiasWords(order[1..], bias)
  }

  ghost function BlockWords(blocks: seq<Block>): seq<Word> {
    if blocks == [] then [] else
      [StoreInt(blocks[0].0)] + FeatureWords(blocks[0].1) + BlockWords(blocks[1..])
  }

  /** The message, for the given walking orders of the two bias maps. */
  ghost function Image(g: MFGradient, users: seq<int>, items: seq<int>): seq<Word>
    requires Enumerates(users, g.usersBias.Keys) && Enumerates(items, g.itemsBias.Keys)
  {
    [StoreInt(MAGIC_NUMBER), StoreInt(|g.usersBias|), StoreInt(|g.itemsBias|)]
    + (BiasWords(users, g.usersBias) + (BiasWords(items, g.itemsBias)
    + (BlockWords(g.usersWeights) + (BlockWords(g.itemsWeights) + [StoreInt(TRAILER)]))))
  }

  lemma {:induction false} BiasWordsSnoc(order: seq<int>, k: int, bias: map<int, real>)
    ensures BiasWords(order + [k], bias) == BiasWords(order, bias) + [StoreInt(k), Feature(BiasOf(k, bias))]
  {
    if order == [] {
      assert order + [k] == [k] && [k][1..] == [];
    } else {
      assert (order + [k])[1..] == order[1..] + [k];
      BiasWordsSnoc(order[1..], k, bias);
    }
  }

  lemma {:induction false} BlockWordsSnoc(blocks: seq<Block>, b: Block)
    ensures BlockWords(blocks + [b]) == BlockWords(blocks) + ([StoreInt(b.0)] + FeatureWords(b.1))
  {
    if blocks == [] {
      assert blocks + [b] == [b] && [b][1..] == [];
    } else {
      assert (blocks + [b])[1..] == blocks[1..] + [b];
      BlockWordsSnoc(blocks[1..], b);
    }
  }

  lemma {:induction false} BiasWordsLength(order: seq<int>, bias: map<int, real>)
    ensures |BiasWords(order, bias)| == 2 * |order|
  {
    if order != [] {
      BiasWordsLength(order[1..], bias);
    }
  }

  lemma {:induction false} BlockWordsLength(blocks: seq<Block>)
    requires SendableBlocks(blocks)
    ensures |BlockWords(blocks)| == (1 + NUM_FACTORS) * |blocks|
  {
    if blocks != [] {
      assert blocks[0] in blocks && forall b <- blocks[1..] :: b in blocks;
      BlockWordsLength(blocks[1..]);
    }
  }

  /** The bytes written are the bytes announced. */
  lemma ImageSize(g: MFGradient, users: seq<int>, items: seq<int>)
    requires Sendable(g)
    requires Enumerates(users, g.usersBias.Keys) && Enumerates(items, g.itemsBias.Keys)
    ensures 4 * |Image(g, users, items)| == SerializedSize(g)
    ensures Image(g, users, items)[0] == StoreInt(0x1337)
    ensures Image(g, users, items)[|Image(g, users, items)| - 1] == StoreInt(0x1338)
  {
    BiasWordsLength(users, g.usersBias);
    BiasWordsLength(items, g.itemsBias);
    BlockWordsLength(g.usersWeights);
    BlockWordsLength(g.itemsWeights);
  }

  lemma Regroup(a: seq<Word>, b: seq<Word>, c: seq<Word>, d: seq<Word>, e: seq<Word>, f: seq<Word>)
    ensures a + b + c + d + e + f == a + (b + (c + (d + (e + f))))
  {
    assert a + b + c == a + (b + c);
    assert c + (d + (e + f)) == c + d + e + f;
  }

  /** Writes one bias map, walking its keys in an arbitrary order. */
  method StoreBiases(mem: seq<Word>, bias: map<int, real>) returns (out: seq<Word>, ghost order: seq<int>)
    ensures Enumerates(order, bias.Keys)
    ensures out == mem + BiasWords(order, bias)
  {
    out, order := mem, [];
    var left := bias.Keys;
    while left != {}
      invariant left <= bias.Keys
      invariant |order| + |left| == |bias.Keys|
      invariant forall k :: k in order <==> k in bias && k !in left
      invariant out == mem + BiasWords(order, bias)
    {
      ghost var some := Pick(left);
      var k :| k in left;
      BiasWordsSnoc(order, k, bias);
      out := out + [StoreInt(k)] + [Feature(bias[k])];
      order, left := order + [k], left - {k};
    }
  }

  method StoreBlocks(mem: seq<Word>, blocks: seq<Block>) returns (out: seq<Word>)
    ensures out == mem + BlockWords(blocks)
  {
    out := mem;
    for i := 0 to |blocks|
      invariant out == mem + BlockWords(blocks[..i])
    {
      var at := out + [StoreInt(blocks[i].0)];
      out := at;
      for j := 0 to |blocks[i].1|
        invariant out == at + FeatureWords(blocks[i].1[..j])
      {
        out := out + [Feature(blocks[i].1[j])];
      }
      assert blocks[i].1[..|blocks[i].1|] == blocks[i].1;
      assert blocks[..i + 1] == blocks[..i] + [blocks[i]];
      BlockWordsSnoc(blocks[..i], blocks[i]);
    }
    assert blocks[..|blocks|] == blocks;
  }

  /** MFSparseGradient::serialize */
  method Serialize(g: MFGradient) returns (mem: seq<Word>, ghost users: seq<int>, ghost items: seq<int>)
    requires Sendable(g)
    ensures Enumerates(users, g.usersBias.Keys) && Enumerates(items, g.itemsBias.Keys)
    ensures mem == Image(g, users, items)
    ensures WORD_BYTES * |mem| == SerializedSize(g)
  {
    mem := [StoreInt(MAGIC_NUMBER), StoreInt(|g.usersBias|), StoreInt(|g.itemsBias|)];
    mem, users := StoreBiases(mem, g.usersBias);
    mem, items := StoreBiases(mem, g.itemsBias);
    mem := StoreBlocks(mem, g.usersWeights);
    mem := StoreBlocks(mem, g.itemsWeights);
    mem := mem + [StoreInt(TRAILER)];
    Regroup([StoreInt(MAGIC_NUMBER), StoreInt(|g.usersBias|), StoreInt(|g.itemsBias|)],
            BiasWords(users, g.usersBias), BiasWords(items, g.itemsBias),
            BlockWords(g.usersWeights), BlockWords(g.itemsWeights), [StoreInt(TRAILER)]);
    ImageSize(g, users, items);
  }

  method LoadBiases(mem: seq<Word>, at: nat, count: nat,
                    ghost order: seq<int>, ghost bias: map<int, real>, ghost rest: seq<Word>)
    returns (loaded: map<int, real>, next: nat)
    requires Enumerates(order, bias.Keys) && forall k <- bias :: FitsInt(k)
    requires count == |order| && at <= |mem| && mem[at..] == BiasWords(order, bias) + rest
    ensures loaded == bias
    ensures next <= |mem| && mem[next..] == rest
  {
    loaded, next := map[], at;
    assert order[0..] == order;
    for i := 0 to count
      invariant next <= |mem| && mem[next..] == BiasWords(order[i..], bias) + rest
      invariant forall k :: k in loaded <==> k in order[..i]
      invariant forall k <- loaded :: k in bias && loaded[k] == bias[k]
    {
      assert order[i] in order && order[i..][1..] == order[i + 1..];
      assert mem[next] == mem[next..][0] && mem[next + 1] == mem[next..][1];
      assert mem[next + 2..] == mem[next..][2..];
      LoadStore(order[i]);
      loaded := loaded[LoadInt(mem[next]) := mem[next + 1].value];
      next := next + 2;
      assert order[..i + 1] == order[..i] + [order[i]];
    }
    assert order[..count] == order;
    SameIntMap(loaded, bias);
  }

  method LoadBlocks(mem: seq<Word>, at: nat, count: nat, ghost blocks: seq<Block>, ghost rest: seq<Word>)
    returns (loaded: seq<Block>, next: nat)
    requires SendableBlocks(blocks)
    requires count == |blocks| && at <= |mem| && mem[at..] == BlockWords(blocks) + rest
    ensures loaded == blocks
    ensures next <= |mem| && mem[next..] == rest
  {
    loaded, next := [], at;
    assert blocks[0..] == blocks;
    for i := 0 to count
      invariant next <= |mem| && mem[next..] == BlockWords(blocks[i..]) + rest
      invariant loaded == blocks[..i]
    {
      assert blocks[i] in blocks && blocks[i..][1..] == blocks[i + 1..];
      ghost var tail := BlockWords(blocks[i + 1..]) + rest;
      assert mem[next..] == [StoreInt(blocks[i].0)] + FeatureWords(blocks[i].1) + tail;
      assert mem[next] == mem[next..][0];
      LoadStore(blocks[i].0);
      var id := LoadInt(mem[next]);
      next := next + 1;
      var weights := [];
      ghost var start := next;
      assert mem[start..] == FeatureWords(blocks[i].1) + tail;
      for j := 0 to NUM_FACTORS
        invariant next == start + j && weights == blocks[i].1[..j]
      {
        assert mem[next] == mem[start..][j];
        weights := weights + [mem[next].value];
        next := next + 1;
      }
      assert mem[next..] == mem[start..][NUM_FACTORS..];
      assert blocks[i].1[..NUM_FACTORS] == blocks[i].1;
      loaded := loaded + [(id, weights)];
    }
    assert blocks[..count] == blocks;
  }

  /** MFSparseGradient::loadSerialized on a buffer that serialize wrote, whatever order the
      hash maps were walked in.  Both magic numbers are found where they are expected. */
  method LoadSerialized(mem: seq<Word>, ghost g: MFGradient, ghost users: seq<int>, ghost items: seq<int>)
    returns (loaded: MFGradient)
    requires Sendable(g)
    requires Enumerates(users, g.usersBias.Keys) && Enumerates(items, g.itemsBias.Keys)
    requires mem == Image(g, users, items)
    ensures loaded == g
  {
    LoadStore(MAGIC_NUMBER);
    LoadStore(|g.usersBias|);
    LoadStore(|g.itemsBias|);
    LoadStore(TRAILER);
    assert LoadUnsigned(mem[0]) == MAGIC_NUMBER;
    var usersSize, itemsSize, at := LoadUnsigned(mem[1]), LoadUnsigned(mem[2]), 3;
    var usersBias, itemsBias, usersWeights, itemsWeights;
    ghost var afterBlocks := [StoreInt(TRAILER)];
    ghost var afterUsersWeights := BlockWords(g.itemsWeights) + afterBlocks;
    ghost var afterItemsBias := BlockWords(g.usersWeights) + afterUsersWeights;
    usersBias, at := LoadBiases(mem, at, usersSize, users, g.usersBias,
                                BiasWords(items, g.itemsBias) + afterItemsBias);
    itemsBias, at := LoadBiases(mem, at, itemsSize, items, g.itemsBias, afterItemsBias);
    usersWeights, at := LoadBlocks(mem, at, usersSize, g.usersWeights, afterUsersWeights);
    itemsWeights, at := LoadBlocks(mem, at, itemsSize, g.itemsWeights, afterBlocks);
    assert mem[at] == mem[at..][0];
    assert LoadUnsigned(mem[at]) == TRAILER;
    loaded := MFGradient(usersBias, itemsBias, usersWeights, itemsWeights);
  }
}
