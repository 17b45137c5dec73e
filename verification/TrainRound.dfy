/** One whole round of matrix factorization: the worker names the items its minibatch rates, the
    server slices its model, the worker trains its private copy, and the server adds the gradient
    that comes back over the wire. */
module TrainRound {
  import opened Factorization
  import opened GradientShift
  import opened MFGradients
  import opened MFModels
  import opened Rounds
  import opened Sets
  import opened Slices
  import opened SparseMFModels
  import opened Tracking
  import opened Words

  ghost function RatedItems(rows: seq<Row>): set<int> {
    ItemsOf(Ratings(0, rows))
  }

  lemma {:induction false} RowItemsAnyBase(a: int, b: int, row: Row)
    ensures ItemsOf(RowRatings(a, row)) == ItemsOf(RowRatings(b, row))
  {
    if row != [] {
      var n := |row| - 1;
      RowItemsAnyBase(a, b, row[..n]);
      ItemsOfSnoc(RowRatings(a, row[..n]), Rating(a, row[n].0, row[n].1));
      ItemsOfSnoc(RowRatings(b, row[..n]), Rating(b, row[n].0, row[n].1));
    }
  }

  lemma {:induction false} ItemsAnyBase(a: int, b: int, rows: seq<Row>)
    ensures ItemsOf(Ratings(a, rows)) == ItemsOf(Ratings(b, rows))
  {
    if rows != [] {
      var n := |rows| - 1;
      ItemsAnyBase(a, b, rows[..n]);
      RowItemsAnyBase(a + n, b + n, rows[n]);
      ItemsOfConcat(Ratings(a, rows[..n]), RowRatings(a + n, rows[n]));
      ItemsOfConcat(Ratings(b, rows[..n]), RowRatings(b + n, rows[n]));
    }
  }

  lemma ItemsOfConcat(a: seq<Rating>, b: seq<Rating>)
    ensures ItemsOf(a + b) == ItemsOf(a) + ItemsOf(b)
  {
    assert forall x :: x in a + b <==> x in a || x in b;
  }

  ghost predicate Marks(marked: seq<bool>, items: seq<int>) {
    |marked| == MAX_ITEMS && forall k | 0 <= k < |marked| :: marked[k] <==> k in items
  }

  method Mark(marked: array<bool>, items: seq<int>, item: int) returns (grown: seq<int>)
    requires Marks(marked[..], items) && 0 <= item < MAX_ITEMS
    modifies marked
    ensures Marks(marked[..], grown)
    ensures grown == if item in items then items else items + [item]
  {
    grown := items;
    assert marked[item] == marked[..][item];
    if !marked[item] {
      grown := grown + [item];
      marked[item] := true;
    }
  }

  /** The deduplication loop of get_sparse_mf_model: each rated item once. */
  method CollectItems(rows: seq<Row>) returns (items: seq<int>)
    requires ItemsWithin(rows, AllItems())
    ensures Lists(items, RatedItems(rows))
  {
    var marked := new bool[MAX_ITEMS](_ => false);
    items := [];
    assert Marks(marked[..], items);
    VisitedBounds(0, rows, 0);
    ItemsOfNone();
    VisitedBounds(0, rows, |rows|);
    hide ItemsOf, Visited, Ratings, Marks;
    for i := 0 to |rows|
      invariant Lists(items, ItemsOf(Visited(0, rows, i, 0))) && Marks(marked[..], items)
    {
      hide Lists;
      for j := 0 to |rows[i]|
        invariant Lists(items, ItemsOf(Visited(0, rows, i, j))) && Marks(marked[..], items)
      {
        var item := rows[i][j].0;
        assert item in AllItems();
        ListsNext(rows, i, j, items);
        items := Mark(marked, items, item);
      }
      VisitedBounds(0, rows, i);
    }
  }

  lemma ListsNext(rows: seq<Row>, i: nat, j: nat, items: seq<int>)
    requires i < |rows| && j < |rows[i]|
    requires Lists(items, ItemsOf(Visited(0, rows, i, j)))
    ensures var item := rows[i][j].0;
      Lists(if item in items then items else items + [item], ItemsOf(Visited(0, rows, i, j + 1)))
  {
    hide ItemsOf, Visited;
    var item := rows[i][j].0;
    VisitOrder(0, rows, i, j);
    ItemsOfSnoc(Visited(0, rows, i, j), Rating(i, item, rows[i][j].1));
    ListsSnoc(items, ItemsOf(Visited(0, rows, i, j)), item);
  }

  lemma ItemsOfNone()
    ensures ItemsOf([]) == {}
  {
  }

  /** The request: item count, first user, minibatch size, magic number, item ids. */
  ghost function RequestWords(base: int, minibatch: int, items: seq<int>): seq<Word> {
    [StoreInt(|items|), StoreInt(base), StoreInt(minibatch), StoreInt(MAGIC_NUMBER)] + IdWords(items)
  }

  /** The fourth word is the magic number, and the ids follow it. */
  lemma RequestIs(base: int, minibatch: int, items: seq<int>)
    ensures var msg := RequestWords(base, minibatch, items);
      && |msg| == 4 + |items| && msg[0] == StoreInt(|items|) && msg[1] == StoreInt(base)
      && msg[2] == StoreInt(minibatch) && msg[3] == StoreInt(0x1337)
      && forall i | 0 <= i < |items| :: msg[4 + i] == StoreInt(items[i])
  {
  }

  method BuildRequest(rows: seq<Row>, base: nat, minibatch: nat) returns (msg: seq<Word>, items: seq<int>)
    requires ItemsWithin(rows, AllItems())
    ensures Lists(items, RatedItems(rows))
    ensures msg == RequestWords(base, minibatch, items)
  {
    items := CollectItems(rows);
    msg := [StoreInt(0), StoreInt(base), StoreInt(minibatch), StoreInt(MAGIC_NUMBER)];
    ghost var head := msg;
    for i := 0 to |items|
      invariant msg == head + IdWords(items[..i])
    {
      msg := msg + [StoreInt(items[i])];
    }
    assert items[..|items|] == items;
    msg := msg[0 := StoreInt(|items|)];
  }

  /** Each thread's reply buffer. */
  const THREAD_MSG_BUFFER_SIZE := 1_000_000

  /** to_send_size, before it is cut to 32 bits. */
  function ReplyBytes(minibatch: nat, items: nat): nat {
    minibatch * (4 + (NUM_FACTORS + 1) * 4) + items * (4 + (NUM_FACTORS + 1) * 4)
  }

  /** The buffer holds the reply to a minibatch of n rows, whatever the rows rate, up to exactly 3063 rows. */
  lemma FitsWhateverItRates(n: nat)
    ensures (forall rated | rated <= AllItems() :: ReplyBytes(n, |rated|) <= THREAD_MSG_BUFFER_SIZE) <==> n <= 3063
  {
    EveryItemCounts(MAX_ITEMS);
    assert AllItems() == Interval(0, MAX_ITEMS);
    if n <= 3063 {
      forall rated | rated <= AllItems() ensures ReplyBytes(n, |rated|) <= THREAD_MSG_BUFFER_SIZE {
        BoundedCount(rated, MAX_ITEMS);
      }
    } else {
      assert ReplyBytes(n, |AllItems()|) > THREAD_MSG_BUFFER_SIZE;
    }
  }

  lemma {:induction false} EveryItemCounts(n: nat)
    ensures |Interval(0, n)| == n
  {
    if n == 0 {
      assert Interval(0, 0) == {};
    } else {
      EveryItemCounts(n - 1);
      assert Interval(0, n) == Interval(0, n - 1) + {n - 1};
    }
  }

  /** The slice is as long as the server announces. */
  lemma SlicesFill(m: Model, base: nat, minibatch: nat, items: seq<int>)
    requires Shaped(m, NUM_FACTORS)
    requires forall u | base <= u < base + minibatch :: u in m.users
    requires forall i | 0 <= i < |items| :: items[i] in m.items
    ensures WORD_BYTES * |SliceWords(Span(base, minibatch), m.users) + SliceWords(items, m.items)|
         == ReplyBytes(minibatch, |items|)
  {
    var users := Span(base, minibatch);
    forall id | id in users ensures |EntityOf(id, m.users).weights| == NUM_FACTORS {
      var i :| 0 <= i < |users| && users[i] == id;
    }
    SliceSize(users, m.users);
    SliceSize(items, m.items);
  }

  /** process_get_mf_sparse_model: an empty item list or an empty minibatch fails an assertion, an
      id the model does not have makes an accessor throw.  The code does not look whether the reply
      stays within its buffer; the model stops where the code would write behind it. */
  method AnswerRequest(server: MFModel, msg: seq<Word>, ghost base: nat, ghost minibatch: nat, ghost items: seq<int>)
    returns (ok: bool, announced: nat, reply: seq<Word>)
    requires server.Valid() && server.nfactors == NUM_FACTORS
    requires msg == RequestWords(base, minibatch, items)
    requires base < TWO_32 && minibatch < TWO_32 && |items| < TWO_32
    requires forall i | 0 <= i < |items| :: 0 <= items[i] < TWO_32
    ensures ok <==> (items != [] && minibatch > 0 && base + minibatch <= server.nusers
                     && ReplyBytes(minibatch, |items|) <= THREAD_MSG_BUFFER_SIZE
                     && forall i | 0 <= i < |items| :: items[i] < server.nitems)
    ensures ok ==> announced == WORD_BYTES * |reply| <= THREAD_MSG_BUFFER_SIZE
    ensures ok ==>
      reply == SliceWords(Span(base, minibatch), server.View().users) + SliceWords(items, server.View().items)
  {
    hide SliceWords, ReplyBytes;
    LoadStore(|items|);
    LoadStore(base);
    LoadStore(minibatch);
    LoadStore(MAGIC_NUMBER);
    var kItems, baseUser := LoadUnsigned(msg[0]), LoadUnsigned(msg[1]);
    var size, magic := LoadUnsigned(msg[2]), LoadUnsigned(msg[3]);
    announced, reply := 0, [];
    if kItems == 0 || size == 0 || magic != MAGIC_NUMBER {
      return false, announced, reply;
    }
    announced := ReplyBytes(size, kItems) % TWO_32;
    if ReplyBytes(size, kItems) > THREAD_MSG_BUFFER_SIZE {
      return false, announced, reply;
    }
    var ids := [];
    for i := 0 to kItems
      invariant ids == items[..i]
    {
      LoadStore(items[i]);
      assert msg[4 + i] == IdWords(items)[i];
      ids := ids + [LoadUnsigned(msg[4 + i])];
    }
    assert items[..kItems] == items;
    ok, reply := server.SerializeSlice(baseUser, size, ids);
    if ok {
      SlicesFill(server.View(), base, minibatch, items);
    }
  }

  function Uniform(rate: real, reg: real): Hyper {
    Hyper(rate, reg, reg, reg, reg)
  }

  lemma ItemsListed(rows: seq<Row>, items: seq<int>)
    requires ItemsWithin(rows, AllItems()) && Lists(items, RatedItems(rows))
    ensures |items| == |RatedItems(rows)| <= MAX_ITEMS && forall i | 0 <= i < |items| :: 0 <= items[i] < MAX_ITEMS
  {
    hide Ratings, ItemsOf;
    RatedItemsFit(0, rows);
    DistinctCount(items, RatedItems(rows));
    forall i | 0 <= i < |items| ensures 0 <= items[i] < MAX_ITEMS {
      var k := items[i];
      assert k in items;
    }
  }

  lemma RequestSucceeds(rows: seq<Row>, items: seq<int>, n: nat)
    requires Lists(items, RatedItems(rows))
    ensures items != [] <==> RatedItems(rows) != {}
    ensures items != [] ==> |rows| > 0
    ensures (forall i | 0 <= i < |items| :: items[i] < n) <==> forall i <- RatedItems(rows) :: i < n
  {
    var rated := RatedItems(rows);
    if items != [] {
      var k := items[0];
      assert k in items && k in rated;
    } else if rated != {} {
      var k := Pick(rated);
      assert false;
    }
    assert |rows| == 0 ==> rated == {};
    hide RatedItems;
    forall i | 0 <= i < |items| ensures items[i] in rated {
      var k := items[i];
      assert k in items;
    }
    if forall i | 0 <= i < |items| :: items[i] < n {
      forall k | k in rated ensures k < n {
        assert k in items;
        var i :| 0 <= i < |items| && items[i] == k;
      }
    }
  }

  lemma RowsRated(rows: seq<Row>)
    ensures ItemsWithin(rows, RatedItems(rows))
  {
    hide Visited, Ratings;
    forall i, j | 0 <= i < |rows| && 0 <= j < |rows[i]| ensures rows[i][j].0 in RatedItems(rows) {
      VisitOrder(0, rows, i, j);
      var next := Rating(i, rows[i][j].0, rows[i][j].1);
      assert next in Visited(0, rows, i, j) + [next];
      assert next in Ratings(0, rows);
    }
  }

  /** The loaded slice is the server's model restricted to the round. */
  lemma SliceCovers(worker: SparseMFModel, rows: seq<Row>, base: nat, items: seq<int>, was: Model)
    requires worker.Valid() && |worker.userModels| == |rows|
    requires ItemsWithin(rows, AllItems()) && Lists(items, RatedItems(rows))
    requires forall i :: i in worker.itemModels <==> i in items
    requires forall u | base <= u < base + |rows| ::
      u in was.users && UserAt(worker.userModels, base, u) == was.users[u]
    requires forall i <- worker.itemModels :: i in was.items && worker.itemModels[i] == was.items[i]
    ensures worker.Fits(rows)
    ensures Agree(was, worker.View(base), UserRange(base, |rows|), RatedItems(rows))
  {
    hide RatedItems;
    RowsRated(rows);
    forall u | u in UserRange(base, |rows|)
      ensures u in was.users && u in worker.View(base).users && was.users[u] == worker.View(base).users[u]
    {
    }
  }

  /** The server's model has every id of a gradient of the round. */
  lemma GradientFits(server: MFModel, snapshot: Model, trained: Model, g: MFGradient, rows: seq<Row>, base: nat)
    requires server.Valid() && server.nfactors == NUM_FACTORS && base + |rows| <= server.nusers
    requires forall i <- RatedItems(rows) :: i < server.nitems
    requires ItemsWithin(rows, AllItems()) && Sendable(g)
    requires IsDelta(g.usersBias, g.usersWeights, snapshot.users, trained.users, UserRange(base, |rows|))
    requires IsDelta(g.itemsBias, g.itemsWeights, snapshot.items, trained.items, ItemsOf(Ratings(base, rows)))
    ensures server.Accepts(g) && Known(g.usersWeights, server.nusers) && Known(g.itemsWeights, server.nitems)
  {
    ItemsAnyBase(0, base, rows);
    RatedItemsFit(base, rows);
    hide *;
    DeltaWithin(g.usersBias, g.usersWeights, snapshot.users, trained.users, UserRange(base, |rows|), server.nusers);
    DeltaWithin(g.itemsBias, g.itemsWeights, snapshot.items, trained.items, ItemsOf(Ratings(base, rows)),
                server.nitems);
    AcceptsThem(server, g);
  }

  lemma AcceptsThem(server: MFModel, g: MFGradient)
    requires server.nfactors == NUM_FACTORS && Sendable(g)
    requires (forall u <- g.usersBias :: 0 <= u < server.nusers) && forall i <- g.itemsBias :: 0 <= i < server.nitems
    ensures server.Accepts(g)
  {
  }

  /** What arrives at the server shifts its model to the trained one. */
  lemma GradientArrives(server: MFModel, snapshot: Model, trained: Model, g: MFGradient, rows: seq<Row>, base: nat,
                        h: Hyper)
    requires server.Valid() && server.nfactors == NUM_FACTORS && base + |rows| <= server.nusers
    requires forall i <- RatedItems(rows) :: i < server.nitems
    requires ItemsWithin(rows, AllItems())
    requires Agree(server.View(), snapshot, UserRange(base, |rows|), RatedItems(rows))
    requires Shaped(snapshot, NUM_FACTORS)
    requires Trained(snapshot, Ratings(base, rows), trained, h, NUM_FACTORS)
    requires Sendable(g)
    requires IsDelta(g.usersBias, g.usersWeights, snapshot.users, trained.users, UserRange(base, |rows|))
    requires IsDelta(g.itemsBias, g.itemsWeights, snapshot.items, trained.items, ItemsOf(Ratings(base, rows)))
    ensures server.Accepts(g) && Covers(server.View(), Ratings(base, rows))
    ensures Known(g.usersWeights, server.nusers) && Known(g.itemsWeights, server.nitems)
    ensures Shift(server.View(), g) == Run(server.View(), Ratings(base, rows), h, NUM_FACTORS)
  {
    var ratings, users, items := Ratings(base, rows), UserRange(base, |rows|), ItemsOf(Ratings(base, rows));
    GradientFits(server, snapshot, trained, g, rows, base);
    ItemsAnyBase(0, base, rows);
    UsersInRange(base, rows);
    hide Ratings, Run, Known, IsDelta, ItemsOf, UsersOf, UserRange, Agree, AllItems;
    RoundRefinesTraining(server.View(), snapshot, g, ratings, h, users, items);
  }

  lemma KnownWhole(g: MFGradient, n: nat, m: nat, users: nat, items: nat)
    requires Known(g.usersWeights, n) && Known(g.itemsWeights, m)
    requires IsKnownPart(g.usersWeights, n, users)
    requires if users < |g.usersWeights| then items == 0 else IsKnownPart(g.itemsWeights, m, items)
    ensures g.(usersWeights := g.usersWeights[..users], itemsWeights := g.itemsWeights[..items]) == g
  {
  }

  lemma UsersInRange(base: int, rows: seq<Row>)
    requires ItemsWithin(rows, AllItems())
    ensures UsersOf(Ratings(base, rows)) <= UserRange(base, |rows|)
  {
    hide Ratings;
    RatingsWithin(base, rows, AllItems());
  }

  lemma DeltaWithin(bias: map<int, real>, blocks: seq<Block>, before: map<int, Entity>, after: map<int, Entity>,
                    ids: set<int>, n: nat)
    requires IsDelta(bias, blocks, before, after, ids)
    requires forall id <- ids :: 0 <= id < n
    ensures forall id <- bias :: 0 <= id < n
    ensures Known(blocks, n)
  {
    forall i | 0 <= i < |blocks| ensures 0 <= blocks[i].0 < n {
      assert blocks[i] in blocks;
    }
  }

  /** The worker's half of the round: load the slice, train it, ship the gradient; what the server
      decodes is the difference the training made. */
  method WorkerSide(reply: seq<Word>, rows: seq<Row>, base: nat, rate: real, reg: real, items: seq<int>,
                    ghost was: Model)
    returns (received: MFGradient, ghost snapshot: Model, ghost trained: Model)
    requires Shaped(was, NUM_FACTORS) && ItemsWithin(rows, AllItems()) && Lists(items, RatedItems(rows))
    requires base + |rows| < TWO_31
    requires forall u | base <= u < base + |rows| :: u in was.users
    requires forall i | 0 <= i < |items| :: items[i] in was.items && 0 <= items[i] < MAX_ITEMS
    requires reply == SliceWords(Span(base, |rows|), was.users) + SliceWords(items, was.items)
    ensures Shaped(snapshot, NUM_FACTORS) && Agree(was, snapshot, UserRange(base, |rows|), RatedItems(rows))
    ensures Trained(snapshot, Ratings(base, rows), trained, Uniform(rate, reg), NUM_FACTORS)
    ensures Sendable(received)
    ensures IsDelta(received.usersBias, received.usersWeights, snapshot.users, trained.users, UserRange(base, |rows|))
    ensures IsDelta(received.itemsBias, received.itemsWeights, snapshot.items, trained.items,
                    ItemsOf(Ratings(base, rows)))
  {
    hide Shaped, Lists, RatedItems, SliceWords, IsDelta, Trained, Ratings, Sendable;
    hide ItemsWithin, UserRange, ItemsOf, Agree;
    var worker := new SparseMFModel(reg);
    worker.LoadSerialized(reply, |rows|, |items|, base, items, was);
    SliceCovers(worker, rows, base, items, was);
    snapshot := worker.View(base);
    var g := worker.MinibatchGrad(rows, rate, base);
    trained := worker.View(base);
    var mem;
    ghost var userOrder, itemOrder;
    mem, userOrder, itemOrder := Serialize(g);
    received := LoadSerialized(mem, g, userOrder, itemOrder);
  }

  /** A whole round.  It succeeds exactly when the minibatch rates at least one item, names only users
      and items the server has, and asks for no more than the reply buffer holds; then the server's
      model is the one that in-place training on the minibatch gives, and otherwise nothing changes. */
  method Round(server: MFModel, rows: seq<Row>, base: nat, rate: real, reg: real) returns (ok: bool)
    requires server.Valid() && server.nfactors == NUM_FACTORS
    requires ItemsWithin(rows, AllItems())
    requires base + |rows| < TWO_31
    modifies server`userBias, server`itemBias, server`userWeights, server`itemWeights
    ensures server.Valid()
    ensures ok <==> (RatedItems(rows) != {} && base + |rows| <= server.nusers
                     && ReplyBytes(|rows|, |RatedItems(rows)|) <= THREAD_MSG_BUFFER_SIZE
                     && forall i <- RatedItems(rows) :: i < server.nitems)
    ensures ok ==> Covers(old(server.View()), Ratings(base, rows))
    ensures ok ==> server.View() == Run(old(server.View()), Ratings(base, rows), Uniform(rate, reg), NUM_FACTORS)
    ensures !ok ==> server.View() == old(server.View())
  {
    hide RatedItems, Ratings, Lists, RequestWords, SliceWords, Run, IsDelta, Trained, Sendable;
    hide Agree, ItemsWithin, UserRange;
    ghost var was := server.View();
    var msg, items := BuildRequest(rows, base, |rows|);
    ItemsListed(rows, items);
    RequestSucceeds(rows, items, server.nitems);
    var announced, reply;
    ok, announced, reply := AnswerRequest(server, msg, base, |rows|, items);
    if !ok {
      return;
    }
    ghost var snapshot, trained;
    var received;
    received, snapshot, trained := WorkerSide(reply, rows, base, rate, reg, items, was);
    GradientArrives(server, snapshot, trained, received, rows, base, Uniform(rate, reg));
    var added;
    ghost var users, itemBlocks;
    added, users, itemBlocks := server.SgdUpdate(received);
    KnownWhole(received, server.nusers, server.nitems, users, itemBlocks);
  }

  /** A round touches nothing but the users of the minibatch and the items they rate. */
  lemma RoundLeavesOthers(m: Model, rows: seq<Row>, base: nat, h: Hyper, factors: nat)
    requires Shaped(m, factors) && Covers(m, Ratings(base, rows)) && ItemsWithin(rows, AllItems())
    ensures var now := Run(m, Ratings(base, rows), h, factors);
      && (forall u <- m.users :: u !in UserRange(base, |rows|) ==> now.users[u] == m.users[u])
      && (forall i <- m.items :: i !in RatedItems(rows) ==> now.items[i] == m.items[i])
  {
    UsersInRange(base, rows);
    ItemsAnyBase(0, base, rows);
    hide Run, Ratings, UserRange;
    RunFrames(m, Ratings(base, rows), h, factors);
  }
}
