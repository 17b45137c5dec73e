/** Min-max scaling of a dataset that is split into chunks, with the global bounds kept in a shared
    database that any number of workers push to. */
module MinMaxScaling {
  import opened Sets

  type Row = seq<(int, real)>

  /** The value of entry e of some row is at column c. */
  ghost predicate Occurs(data: seq<Row>, c: int, v: real) {
    exists i, j :: 0 <= i < |data| && 0 <= j < |data[i]| && data[i][j] == (c, v)
  }

  /** A database key: a column and whether it holds the upper bound. */
  datatype Key = Key(column: int, upper: bool)

  predicate Beyond(upper: bool, a: real, b: real) {
    if upper then a >= b else a <= b
  }

  /** m gives every column that occurs its extreme value. */
  ghost predicate IsBound(m: map<int, real>, data: seq<Row>, upper: bool) {
    && (forall c <- m :: Occurs(data, c, m[c]))
    && (forall c, v | Occurs(data, c, v) :: c in m && Beyond(upper, m[c], v))
  }

  lemma OccursSnoc(data: seq<Row>, row: Row, c: int, v: real)
    ensures Occurs(data + [row], c, v) <==> Occurs(data, c, v) || (c, v) in row
  {
    var more := data + [row];
    if Occurs(data, c, v) {
      var i, j :| 0 <= i < |data| && 0 <= j < |data[i]| && data[i][j] == (c, v);
      assert more[i][j] == (c, v);
    }
    if (c, v) in row {
      var j :| 0 <= j < |row| && row[j] == (c, v);
      assert more[|data|][j] == (c, v);
    }
  }

  lemma OccursEntry(data: seq<Row>, row: Row, e: (int, real), c: int, v: real)
    ensures Occurs(data + [row + [e]], c, v) <==> Occurs(data + [row], c, v) || (c, v) == e
  {
    OccursSnoc(data, row, c, v);
    OccursSnoc(data, row + [e], c, v);
    hide Occurs;
    assert (c, v) in row + [e] <==> (c, v) in row || (c, v) == e;
  }

  lemma OccursEmpty(data: seq<Row>, c: int, v: real)
    ensures Occurs(data + [[]], c, v) <==> Occurs(data, c, v)
  {
    OccursSnoc(data, [], c, v);
  }

  lemma BoundRaised(m: map<int, real>, data: seq<Row>, row: Row, e: (int, real), upper: bool)
    requires IsBound(m, data + [row], upper)
    ensures IsBound(if e.0 !in m || !Beyond(upper, m[e.0], e.1) then m[e.0 := e.1] else m, data + [row + [e]], upper)
  {
    forall c, v ensures Occurs(data + [row + [e]], c, v) <==> Occurs(data + [row], c, v) || (c, v) == e {
      OccursEntry(data, row, e, c, v);
    }
    hide Occurs;
  }

  /** get_data_bounds */
  method GetDataBounds(data: seq<Row>) returns (maxInCol: map<int, real>, minInCol: map<int, real>)
    ensures IsBound(maxInCol, data, true) && IsBound(minInCol, data, false)
  {
    maxInCol, minInCol := map[], map[];
    for i := 0 to |data|
      invariant IsBound(maxInCol, data[..i], true) && IsBound(minInCol, data[..i], false)
    {
      var row := data[i];
      forall c, v ensures Occurs(data[..i] + [[]], c, v) <==> Occurs(data[..i], c, v) {
        OccursEmpty(data[..i], c, v);
      }
      assert IsBound(maxInCol, data[..i] + [row[..0]], true) && IsBound(minInCol, data[..i] + [row[..0]], false);
      for j := 0 to |row|
        invariant IsBound(maxInCol, data[..i] + [row[..j]], true)
        invariant IsBound(minInCol, data[..i] + [row[..j]], false)
      {
        hide IsBound;
        var idx, val := row[j].0, row[j].1;
        BoundRaised(maxInCol, data[..i], row[..j], row[j], true);
        BoundRaised(minInCol, data[..i], row[..j], row[j], false);
        assert row[..j + 1] == row[..j] + [row[j]];
        if idx !in maxInCol {
          maxInCol := maxInCol[idx := val];
        }
        if idx !in minInCol {
          minInCol := minInCol[idx := val];
        }
        if val > maxInCol[idx] {
          maxInCol := maxInCol[idx := val];
        }
        if val < minInCol[idx] {
          minInCol := minInCol[idx := val];
        }
      }
      assert row[..|row|] == row && data[..i + 1] == data[..i] + [row];
    }
    assert data[..|data|] == data;
  }

  type Push = (Key, real)

  /** The database holds the extreme of everything ever pushed to a key. */
  ghost predicate Extreme(db: map<Key, real>, pushed: set<Push>) {
    && (forall k <- db :: (k, db[k]) in pushed)
    && (forall p <- pushed :: p.0 in db && Beyond(p.0.upper, db[p.0], p.1))
  }

  /** Order, repetition and batching of the pushes do not matter: the set of pushed values decides. */
  lemma PushedDecides(a: map<Key, real>, b: map<Key, real>, pushed: set<Push>)
    requires Extreme(a, pushed) && Extreme(b, pushed)
    ensures a == b
  {
    forall k | k in a ensures k in b && a[k] == b[k] {
      var p := (k, a[k]);
      assert p in pushed && p.0 in b;
      var q := (k, b[k]);
      assert q in pushed;
    }
    forall k | k in b ensures k in a {
      var q := (k, b[k]);
      assert q in pushed && q.0 in a;
    }
    assert a.Keys == b.Keys;
  }

  /** The first n pairs of two lists that run in step. */
  ghost function PairsTo(keys: seq<Key>, values: seq<real>, n: nat): set<Push>
    requires n <= |keys| == |values|
  {
    if n == 0 then {} else PairsTo(keys, values, n - 1) + {(keys[n - 1], values[n - 1])}
  }

  ghost function Pairs(keys: seq<Key>, values: seq<real>): set<Push>
    requires |keys| == |values|
  {
    PairsTo(keys, values, |keys|)
  }

  lemma {:induction false} PairsPrefix(keys: seq<Key>, values: seq<real>, k: Key, v: real, n: nat)
    requires n <= |keys| == |values|
    ensures PairsTo(keys + [k], values + [v], n) == PairsTo(keys, values, n)
  {
    if n > 0 {
      PairsPrefix(keys, values, k, v, n - 1);
    }
  }

  lemma PairsSnoc(keys: seq<Key>, values: seq<real>, k: Key, v: real)
    requires |keys| == |values|
    ensures Pairs(keys + [k], values + [v]) == Pairs(keys, values) + {(k, v)}
  {
    PairsPrefix(keys, values, k, v, |keys|);
  }

  lemma PairsNext(keys: seq<Key>, values: seq<real>, n: nat)
    requires n < |keys| == |values|
    ensures PairsTo(keys, values, n + 1) == PairsTo(keys, values, n) + {(keys[n], values[n])}
  {
  }

  lemma PairsEnds(keys: seq<Key>, values: seq<real>)
    requires |keys| == |values|
    ensures PairsTo(keys, values, 0) == {} && PairsTo(keys, values, |keys|) == Pairs(keys, values)
  {
  }

  /** One turn of either Lua script. */
  lemma ExtremeRaised(db: map<Key, real>, pushed: set<Push>, k: Key, v: real)
    requires Extreme(db, pushed)
    ensures Extreme(if k !in db || !Beyond(k.upper, db[k], v) then db[k := v] else db, pushed + {(k, v)})
  {
  }

  datatype Batch = Batch(keys: seq<Key>, values: seq<real>)

  predicate WellFormed(b: Batch, upper: bool) {
    |b.keys| == |b.values| && forall i | 0 <= i < |b.keys| :: b.keys[i].upper == upper
  }

  /** The pairs whose keys lie in the slots. */
  ghost function InSlots(all: set<Push>, slotOf: Key -> int, slots: set<int>): set<Push> {
    set p | p in all && slotOf(p.0) in slots
  }

  /** Every slot has the pairs of its keys, and every pair has its slot. */
  ghost predicate Slotted(slots: map<int, Batch>, slotOf: Key -> int, upper: bool, all: set<Push>) {
    && (forall s <- slots ::
          WellFormed(slots[s], upper) && Pairs(slots[s].keys, slots[s].values) == InSlots(all, slotOf, {s}))
    && (forall p <- all :: slotOf(p.0) in slots)
  }

  lemma SlottedNext(slots: map<int, Batch>, slotOf: Key -> int, upper: bool, all: set<Push>, k: Key, v: real)
    requires Slotted(slots, slotOf, upper, all) && k.upper == upper
    ensures var s := slotOf(k);
      var was := if s in slots then slots[s] else Batch([], []);
      Slotted(slots[s := Batch(was.keys + [k], was.values + [v])], slotOf, upper, all + {(k, v)})
  {
    var s := slotOf(k);
    var was := if s in slots then slots[s] else Batch([], []);
    assert Pairs(was.keys, was.values) == InSlots(all, slotOf, {s});
    PairsSnoc(was.keys, was.values, k, v);
    hide Pairs;
    var more := all + {(k, v)};
    forall t
      ensures InSlots(more, slotOf, {t}) ==
              if t == s then InSlots(all, slotOf, {t}) + {(k, v)} else InSlots(all, slotOf, {t})
    {
    }
  }

  method MakeSlots(slotOf: Key -> int, upper: bool, keys: seq<Key>, values: seq<real>) returns (slots: map<int, Batch>)
    requires WellFormed(Batch(keys, values), upper)
    ensures Slotted(slots, slotOf, upper, Pairs(keys, values))
  {
    slots := map[];
    assert |keys| == |values| && forall i | 0 <= i < |keys| :: keys[i].upper == upper;
    assert Slotted(slots, slotOf, upper, {});
    PairsEnds(keys, values);
    hide *;
    for i := 0 to |keys|
      invariant Slotted(slots, slotOf, upper, PairsTo(keys, values, i))
    {
      var k, slot := keys[i], slotOf(keys[i]);
      SlottedNext(slots, slotOf, upper, PairsTo(keys, values, i), k, values[i]);
      PairsNext(keys, values, i);
      var batch := if slot in slots then slots[slot] else Batch([], []);
      slots := slots[slot := Batch(batch.keys + [k], batch.values + [values[i]])];
    }
  }

  lemma OneMoreSlot(all: set<Push>, slotOf: Key -> int, run: set<int>, s: int)
    ensures InSlots(all, slotOf, run + {s}) == InSlots(all, slotOf, run) + InSlots(all, slotOf, {s})
  {
  }

  lemma OnePair(k: Key, v: real, upper: bool)
    requires k.upper == upper
    ensures WellFormed(Batch([k], [v]), upper) && Pairs([k], [v]) == {(k, v)}
  {
    assert PairsTo([k], [v], 1) == PairsTo([k], [v], 0) + {(k, v)};
  }

  lemma AllSlots(slots: map<int, Batch>, slotOf: Key -> int, upper: bool, all: set<Push>)
    requires Slotted(slots, slotOf, upper, all)
    ensures InSlots(all, slotOf, {}) == {} && InSlots(all, slotOf, slots.Keys) == all
  {
    hide WellFormed, Pairs;
    assert InSlots(all, slotOf, slots.Keys) == all;
  }

  lemma SlotIs(slots: map<int, Batch>, slotOf: Key -> int, upper: bool, all: set<Push>, s: int)
    requires Slotted(slots, slotOf, upper, all) && s in slots
    ensures WellFormed(slots[s], upper) && WellFormed(Batch(slots[s].keys, slots[s].values), upper)
    ensures |slots[s].keys| == |slots[s].values| && Pairs(slots[s].keys, slots[s].values) == InSlots(all, slotOf, {s})
  {
  }

  /** One execution of UPPER_BOUND_SCRIPT or LOWER_BOUND_SCRIPT. */
  datatype Script = Script(upper: bool, batch: Batch)

  ghost function Sent(script: Script): set<Push> {
    if |script.batch.keys| == |script.batch.values| then Pairs(script.batch.keys, script.batch.values) else {}
  }

  /** Everything that a sequence of scripts pushes. */
  ghost function Pushed(scripts: seq<Script>): set<Push> {
    if scripts == [] then {} else Pushed(scripts[..|scripts| - 1]) + Sent(scripts[|scripts| - 1])
  }

  predicate AllWellFormed(scripts: seq<Script>) {
    forall i | 0 <= i < |scripts| :: WellFormed(scripts[i].batch, scripts[i].upper)
  }

  lemma PushedSnoc(scripts: seq<Script>, script: Script)
    ensures Pushed(scripts + [script]) == Pushed(scripts) + Sent(script)
  {
    assert (scripts + [script])[..|scripts|] == scripts;
  }

  lemma {:induction false} PushedAppend(a: seq<Script>, b: seq<Script>)
    ensures Pushed(a + b) == Pushed(a) + Pushed(b)
  {
    hide Sent;
    if b == [] {
      assert a + b == a;
    } else {
      var n := |b| - 1;
      PushedAppend(a, b[..n]);
      PushedSnoc(a + b[..n], b[n]);
      assert a + b == (a + b[..n]) + [b[n]];
    }
  }

  lemma {:induction false} PushedBySome(scripts: seq<Script>, p: Push)
    ensures p in Pushed(scripts) <==> exists i :: 0 <= i < |scripts| && p in Sent(scripts[i])
  {
    hide Sent;
    if scripts != [] {
      var n := |scripts| - 1;
      PushedBySome(scripts[..n], p);
      if p in Pushed(scripts[..n]) {
        var i :| 0 <= i < n && p in Sent(scripts[..n][i]);
        assert p in Sent(scripts[i]);
      }
      if i :| 0 <= i < |scripts| && p in Sent(scripts[i]) {
        assert i < n ==> p in Sent(scripts[..n][i]);
      }
    }
  }

  /** push_keys_values_to_redis: the scripts sent, one pair at a time, all at once, or one script a slot. */
  method PushAll(batch: bool, slotOf: Key -> int, clustered: bool, upper: bool, keys: seq<Key>, values: seq<real>)
    returns (scripts: seq<Script>)
    requires WellFormed(Batch(keys, values), upper)
    ensures AllWellFormed(scripts) && Pushed(scripts) == Pairs(keys, values)
  {
    if !batch {
      scripts := PushOneByOne(upper, keys, values);
    } else if !clustered {
      scripts := [Script(upper, Batch(keys, values))];
      hide Pairs;
      PushedSnoc([], scripts[0]);
      assert [] + scripts == scripts;
    } else {
      var slots := MakeSlots(slotOf, upper, keys, values);
      scripts := PushSlots(upper, slots, slotOf, Pairs(keys, values));
    }
  }

  method PushOneByOne(upper: bool, keys: seq<Key>, values: seq<real>) returns (scripts: seq<Script>)
    requires WellFormed(Batch(keys, values), upper)
    ensures AllWellFormed(scripts) && Pushed(scripts) == Pairs(keys, values)
  {
    assert |keys| == |values| && forall i | 0 <= i < |keys| :: keys[i].upper == upper;
    scripts := [];
    PairsEnds(keys, values);
    assert Pushed([]) == {} && AllWellFormed([]);
    hide *;
    for i := 0 to |keys|
      invariant AllWellFormed(scripts) && Pushed(scripts) == PairsTo(keys, values, i)
    {
      OnePair(keys[i], values[i], upper);
      PairsNext(keys, values, i);
      scripts := SendScript(scripts, upper, Batch([keys[i]], [values[i]]));
    }
  }

  /** One more script. */
  method SendScript(was: seq<Script>, upper: bool, batch: Batch) returns (scripts: seq<Script>)
    requires AllWellFormed(was) && WellFormed(batch, upper)
    ensures AllWellFormed(scripts) && |batch.keys| == |batch.values|
    ensures scripts == was + [Script(upper, batch)] && Pushed(scripts) == Pushed(was) + Pairs(batch.keys, batch.values)
  {
    hide Pairs, Pushed;
    scripts := was + [Script(upper, batch)];
    PushedSnoc(was, Script(upper, batch));
  }

  /** The slots' scripts, in whatever order the threads send them. */
  method PushSlots(upper: bool, slots: map<int, Batch>, ghost slotOf: Key -> int, ghost all: set<Push>)
    returns (scripts: seq<Script>)
    requires Slotted(slots, slotOf, upper, all)
    ensures AllWellFormed(scripts) && Pushed(scripts) == all
  {
    scripts := [];
    var left := slots.Keys;
    ghost var run: set<int> := {};
    AllSlots(slots, slotOf, upper, all);
    assert Pushed([]) == {} && AllWellFormed([]);
    hide *;
    while left != {}
      invariant (forall t :: t in run || t in left <==> t in slots) && run !! left
      invariant AllWellFormed(scripts) && Pushed(scripts) == InSlots(all, slotOf, run)
      decreases |left|
    {
      ghost var some := Pick(left);
      var slot :| slot in left;
      SlotIs(slots, slotOf, upper, all, slot);
      OneMoreSlot(all, slotOf, run, slot);
      scripts := SendScript(scripts, upper, slots[slot]);
      left, run := left - {slot}, run + {slot};
    }
    assert forall t :: t in run <==> t in slots.Keys;
    assert run == slots.Keys;
  }

  /** The shared database. */
  class BoundStore {
    var db: map<Key, real>
    /** The scripts executed, in order. */
    ghost var log: seq<Script>

    constructor ()
      ensures Valid() && db == map[] && log == []
    {
      db, log := map[], [];
    }

    ghost predicate Valid()
      reads this
    {
      Extreme(db, Pushed(log))
    }

    /** The database executes a script atomically. */
    method RunScript(script: Script)
      requires Valid() && WellFormed(script.batch, script.upper)
      modifies this
      ensures Valid() && log == old(log) + [script]
    {
      var keys, args := script.batch.keys, script.batch.values;
      ghost var pushed := Pushed(log);
      PairsEnds(keys, args);
      PushedSnoc(log, script);
      assert |keys| == |args| && forall i | 0 <= i < |keys| :: keys[i].upper == script.upper;
      assert pushed + PairsTo(keys, args, 0) == pushed;
      assert Sent(script) == Pairs(keys, args);
      hide *;
      for i := 0 to |keys|
        invariant log == old(log) && Extreme(db, pushed + PairsTo(keys, args, i))
      {
        ScriptTurn(script.upper, keys[i], args[i], pushed + PairsTo(keys, args, i));
        PairsNext(keys, args, i);
        OneMorePair(pushed, PairsTo(keys, args, i), (keys[i], args[i]));
      }
      log := log + [script];
    }

    /** One turn of the loop in the script. */
    method ScriptTurn(upper: bool, key: Key, arg: real, ghost pushed: set<Push>)
      requires Extreme(db, pushed) && key.upper == upper
      modifies this`db
      ensures Extreme(db, pushed + {(key, arg)})
    {
      hide Extreme;
      ExtremeRaised(db, pushed, key, arg);
      if key in db {
        if (if upper then arg > db[key] else arg < db[key]) {
          db := db[key := arg];
        }
      } else {
        db := db[key := arg];
      }
    }

    /** The database serves scripts in the order in which they arrive. */
    method Serve(scripts: seq<Script>)
      requires Valid() && AllWellFormed(scripts)
      modifies this
      ensures Valid() && log == old(log) + scripts
    {
      for i := 0 to |scripts|
        invariant Valid() && log == old(log) + scripts[..i]
      {
        hide Extreme, Pushed, WellFormed;
        RunScript(scripts[i]);
      }
    }
  }

  lemma OneMorePair(was: set<Push>, more: set<Push>, p: Push)
    ensures (was + more) + {p} == was + (more + {p})
  {
  }

  /** The database bounds every value of the chunk. */
  ghost predicate Reaches(db: map<Key, real>, chunk: seq<Row>) {
    forall c, v, upper | Occurs(chunk, c, v) :: Key(c, upper) in db && Beyond(upper, db[Key(c, upper)], v)
  }

  ghost predicate OccursSomewhere(chunks: seq<seq<Row>>, c: int, v: real) {
    exists i :: 0 <= i < |chunks| && Occurs(chunks[i], c, v)
  }

  /** The global bounds are the exact extremes over all chunks. */
  ghost predicate IsGlobalBound(db: map<Key, real>, chunks: seq<seq<Row>>) {
    && (forall k <- db :: OccursSomewhere(chunks, k.column, db[k]))
    && (forall i | 0 <= i < |chunks| :: Reaches(db, chunks[i]))
  }

  /** The pairs of one map of local bounds. */
  ghost predicate PairsOf(pairs: set<Push>, m: map<int, real>, upper: bool) {
    && (forall p <- pairs :: p.0.upper == upper && p.0.column in m && m[p.0.column] == p.1)
    && (forall c <- m :: (Key(c, upper), m[c]) in pairs)
  }

  /** get_keys_values: both bounds of every column, in whatever order the dictionary yields them. */
  method GetKeysValues(m: map<int, real>, upper: bool) returns (keys: seq<Key>, values: seq<real>)
    ensures WellFormed(Batch(keys, values), upper) && PairsOf(Pairs(keys, values), m, upper)
  {
    keys, values := [], [];
    var left := m.Keys;
    while left != {}
      invariant left <= m.Keys && WellFormed(Batch(keys, values), upper)
      invariant forall p <- Pairs(keys, values) :: p.0.upper == upper && p.0.column in m && m[p.0.column] == p.1
      invariant forall c <- m :: c in left || (Key(c, upper), m[c]) in Pairs(keys, values)
      decreases |left|
    {
      hide Pairs;
      ghost var some := Pick(left);
      var c :| c in left;
      PairsSnoc(keys, values, Key(c, upper), m[c]);
      keys, values, left := keys + [Key(c, upper)], values + [m[c]], left - {c};
    }
  }

  ghost predicate Topped(pushed: set<Push>, k: Key, v: real) {
    exists w: real :: (k, w) in pushed && Beyond(k.upper, w, v)
  }

  /** The scripts push exactly the bounds of the chunk's columns. */
  ghost predicate IsWorkOf(scripts: seq<Script>, chunk: seq<Row>) {
    && AllWellFormed(scripts)
    && (forall p <- Pushed(scripts) :: Occurs(chunk, p.0.column, p.1))
    && (forall p, v | p in Pushed(scripts) && Occurs(chunk, p.0.column, v) :: Beyond(p.0.upper, p.1, v))
    && (forall c, v, upper | Occurs(chunk, c, v) :: Topped(Pushed(scripts), Key(c, upper), v))
  }

  lemma BoundsAreWork(scripts: seq<Script>, chunk: seq<Row>, maxima: map<int, real>, minima: map<int, real>,
                      above: set<Push>, below: set<Push>)
    requires IsBound(maxima, chunk, true) && IsBound(minima, chunk, false)
    requires PairsOf(above, maxima, true) && PairsOf(below, minima, false)
    requires AllWellFormed(scripts) && Pushed(scripts) == above + below
    ensures IsWorkOf(scripts, chunk)
  {
    hide Occurs, Pushed, AllWellFormed;
    forall c, v, upper | Occurs(chunk, c, v) ensures Topped(Pushed(scripts), Key(c, upper), v) {
      var w := if upper then maxima[c] else minima[c];
      assert (Key(c, upper), w) in above + below && Beyond(upper, w, v);
    }
  }

  lemma ListsInStep(keys: seq<Key>, values: seq<real>, upper: bool)
    requires WellFormed(Batch(keys, values), upper)
    ensures |keys| == |values|
  {
  }

  lemma BothWellFormed(a: seq<Script>, b: seq<Script>)
    requires AllWellFormed(a) && AllWellFormed(b)
    ensures AllWellFormed(a + b)
  {
    hide WellFormed;
  }

  /** One worker on one chunk: local bounds, then the scripts for both. */
  method Work(chunk: seq<Row>, batch: bool, slotOf: Key -> int, clustered: bool) returns (scripts: seq<Script>)
    ensures IsWorkOf(scripts, chunk)
  {
    hide *;
    var maxima, minima := GetDataBounds(chunk);
    var maxK, maxV := GetKeysValues(maxima, true);
    var minK, minV := GetKeysValues(minima, false);
    ListsInStep(maxK, maxV, true);
    ListsInStep(minK, minV, false);
    scripts := PushAll(batch, slotOf, clustered, true, maxK, maxV);
    var more := PushAll(batch, slotOf, clustered, false, minK, minV);
    BothWellFormed(scripts, more);
    PushedAppend(scripts, more);
    scripts := scripts + more;
    BoundsAreWork(scripts, chunk, maxima, minima, Pairs(maxK, maxV), Pairs(minK, minV));
  }

  /** The log holds the scripts of the workers and no others, in any order, interleaving or repetition. */
  ghost predicate Merges(log: seq<Script>, traces: seq<seq<Script>>) {
    && (forall s <- log :: exists w :: 0 <= w < |traces| && s in traces[w])
    && (forall w | 0 <= w < |traces| :: forall s <- traces[w] :: s in log)
  }

  /** Every worker works on a chunk, and every chunk is worked on. */
  ghost predicate Employed(traces: seq<seq<Script>>, tasks: seq<nat>, chunks: seq<seq<Row>>) {
    && |tasks| == |traces|
    && (forall w | 0 <= w < |traces| :: tasks[w] < |chunks| && IsWorkOf(traces[w], chunks[tasks[w]]))
    && (forall c: nat | c < |chunks| :: c in tasks)
  }

  lemma TracePushed(log: seq<Script>, traces: seq<seq<Script>>, w: nat, p: Push)
    requires Merges(log, traces) && w < |traces| && p in Pushed(traces[w])
    ensures p in Pushed(log)
  {
    hide Pushed, Sent;
    PushedBySome(traces[w], p);
    PushedBySome(log, p);
    var i :| 0 <= i < |traces[w]| && p in Sent(traces[w][i]);
    var s := traces[w][i];
    assert s in traces[w] && s in log;
    var j :| 0 <= j < |log| && log[j] == s;
  }

  lemma LogPushed(log: seq<Script>, traces: seq<seq<Script>>, p: Push) returns (w: nat)
    requires Merges(log, traces) && p in Pushed(log)
    ensures w < |traces| && p in Pushed(traces[w])
  {
    hide Pushed, Sent;
    PushedBySome(log, p);
    var i :| 0 <= i < |log| && p in Sent(log[i]);
    var s := log[i];
    assert s in log;
    w :| 0 <= w < |traces| && s in traces[w];
    var j :| 0 <= j < |traces[w]| && traces[w][j] == s;
    PushedBySome(traces[w], p);
  }

  /** However the scripts of the workers interleave, the database ends with the bounds of the whole. */
  lemma InterleavingDecides(db: map<Key, real>, log: seq<Script>, traces: seq<seq<Script>>, tasks: seq<nat>,
                            chunks: seq<seq<Row>>)
    requires Extreme(db, Pushed(log)) && Merges(log, traces) && Employed(traces, tasks, chunks)
    ensures IsGlobalBound(db, chunks)
  {
    hide Pushed, Merges, AllWellFormed, Occurs;
    forall k | k in db ensures OccursSomewhere(chunks, k.column, db[k]) {
      var p := (k, db[k]);
      var w := LogPushed(log, traces, p);
      assert p in Pushed(traces[w]);
      assert Occurs(chunks[tasks[w]], k.column, db[k]);
    }
    forall c: nat | c < |chunks| ensures Reaches(db, chunks[c]) {
      assert c in tasks;
      var w :| 0 <= w < |tasks| && tasks[w] == c;
      TraceReaches(db, log, traces, w, chunks[c]);
    }
  }

  lemma TraceReaches(db: map<Key, real>, log: seq<Script>, traces: seq<seq<Script>>, w: nat, chunk: seq<Row>)
    requires Extreme(db, Pushed(log)) && Merges(log, traces) && w < |traces| && IsWorkOf(traces[w], chunk)
    ensures Reaches(db, chunk)
  {
    hide Pushed, Merges, AllWellFormed, Occurs;
    forall c, v, upper | Occurs(chunk, c, v) ensures Key(c, upper) in db && Beyond(upper, db[Key(c, upper)], v) {
      assert Topped(Pushed(traces[w]), Key(c, upper), v);
      var x: real :| (Key(c, upper), x) in Pushed(traces[w]) && Beyond(upper, x, v);
      var p := (Key(c, upper), x);
      TracePushed(log, traces, w, p);
      assert p in Pushed(log) && p.0 in db;
    }
  }

  lemma LogWellFormed(log: seq<Script>, traces: seq<seq<Script>>, tasks: seq<nat>, chunks: seq<seq<Row>>)
    requires Merges(log, traces) && Employed(traces, tasks, chunks)
    ensures AllWellFormed(log)
  {
    hide WellFormed, Pushed, Occurs, Topped;
    forall i | 0 <= i < |log| ensures WellFormed(log[i].batch, log[i].upper) {
      var s := log[i];
      assert s in log;
      var w :| 0 <= w < |traces| && s in traces[w];
      var j :| 0 <= j < |traces[w]| && traces[w][j] == s;
      assert AllWellFormed(traces[w]);
    }
  }

  /** Any number of workers, several on one chunk or not, whose scripts reach the database in any order,
      interleaving or repetition: if every chunk has a worker, the stored bounds are those of the whole. */
  method ContributeAll(store: BoundStore, log: seq<Script>, ghost traces: seq<seq<Script>>, ghost tasks: seq<nat>,
                       ghost chunks: seq<seq<Row>>)
    requires store.Valid() && store.log == []
    requires Merges(log, traces) && Employed(traces, tasks, chunks)
    modifies store
    ensures store.Valid() && IsGlobalBound(store.db, chunks)
  {
    hide *;
    LogWellFormed(log, traces, tasks, chunks);
    store.Serve(log);
    assert [] + log == log;
    StoreHolds(store);
    InterleavingDecides(store.db, log, traces, tasks, chunks);
  }

  lemma StoreHolds(store: BoundStore)
    requires store.Valid()
    ensures Extreme(store.db, Pushed(store.log))
  {
  }

  const EPSILON := 0.0001

  /** One value scaled between the bounds of its column. */
  function ScaleValue(val: real, minV: real, maxV: real, newMin: real, newMax: real): real {
    if maxV - minV > EPSILON || minV - maxV > EPSILON then
      (val - minV) / (maxV - minV) * (newMax - newMin) + newMin
    else
      (newMin + newMax) / 2.0
  }

  lemma Fraction(a: real, b: real)
    requires 0.0 <= a <= b && 0.0 < b
    ensures 0.0 <= a / b <= 1.0 && b / b == 1.0
  {
    var q := a / b;
    assert q * b == a;
    assert (1.0 - q) * b == b - a;
  }

  lemma Portion(q: real, w: real)
    requires 0.0 <= q <= 1.0 && 0.0 <= w
    ensures 0.0 <= q * w <= w
  {
  }

  /** A value between the bounds of its column lands in the new range. */
  lemma ScaledInRange(val: real, minV: real, maxV: real, newMin: real, newMax: real)
    requires minV <= val <= maxV && newMin <= newMax
    ensures newMin <= ScaleValue(val, minV, maxV, newMin, newMax) <= newMax
  {
    if maxV - minV > EPSILON {
      var q, w := (val - minV) / (maxV - minV), newMax - newMin;
      Fraction(val - minV, maxV - minV);
      Portion(q, w);
      assert ScaleValue(val, minV, maxV, newMin, newMax) == q * w + newMin;
    }
  }

  /** Between bounds that are apart, scaling is the affine map of the old range to the new one. */
  lemma ScaledIsAffine(val: real, minV: real, maxV: real, newMin: real, newMax: real)
    requires maxV - minV > 0.0001
    ensures (ScaleValue(val, minV, maxV, newMin, newMax) - newMin) * (maxV - minV) == (val - minV) * (newMax - newMin)
  {
    var d, w := maxV - minV, newMax - newMin;
    var q := (val - minV) / d;
    assert q * d == val - minV;
    assert ScaleValue(val, minV, maxV, newMin, newMax) == q * w + newMin;
    assert q * w * d == q * d * w;
  }

  /** Where the bounds nearly coincide, every value becomes the middle of the new range. */
  lemma ScaledIsMiddle(val: real, minV: real, maxV: real, newMin: real, newMax: real)
    requires -0.0001 <= maxV - minV <= 0.0001
    ensures var scaled := ScaleValue(val, minV, maxV, newMin, newMax); scaled - newMin == newMax - scaled
  {
  }

  lemma ScaledEnds(minV: real, maxV: real, newMin: real, newMax: real)
    requires maxV - minV > 0.0001
    ensures ScaleValue(minV, minV, maxV, newMin, newMax) == newMin
    ensures ScaleValue(maxV, minV, maxV, newMin, newMax) == newMax
  {
    var d, w := maxV - minV, newMax - newMin;
    Fraction(0.0, d);
    assert 0.0 / d * d == 0.0;
    var q := d / d;
    assert q == 1.0;
    assert q * w == w;
  }

  /** scale_data on a chunk whose values the database bounds: every scaled value lies in the new range. */
  method ScaleData(data: seq<Row>, db: map<Key, real>, newMin: real, newMax: real) returns (scaled: seq<Row>)
    requires Reaches(db, data) && newMin <= newMax
    ensures |scaled| == |data|
    ensures forall i | 0 <= i < |data| :: |scaled[i]| == |data[i]|
    ensures forall i, j | 0 <= i < |data| && 0 <= j < |data[i]| ::
              && scaled[i][j].0 == data[i][j].0 && Key(data[i][j].0, false) in db && Key(data[i][j].0, true) in db
              && scaled[i][j].1 == ScaleValue(data[i][j].1, db[Key(data[i][j].0, false)], db[Key(data[i][j].0, true)],
                                              newMin, newMax)
              && newMin <= scaled[i][j].1 <= newMax
  {
    hide ScaleValue;
    scaled := [];
    for i := 0 to |data|
      invariant |scaled| == i && forall r | 0 <= r < i :: IsScaled(scaled[r], data[r], db, newMin, newMax)
    {
      hide IsScaled;
      assert RowBounded(data[i], db) by {
        RowReached(data, db, i);
      }
      var row := ScaleRow(data[i], db, newMin, newMax);
      scaled := scaled + [row];
    }
  }

  ghost predicate RowBounded(row: Row, db: map<Key, real>) {
    forall j | 0 <= j < |row| ::
      && Key(row[j].0, false) in db && Key(row[j].0, true) in db
      && db[Key(row[j].0, false)] <= row[j].1 <= db[Key(row[j].0, true)]
  }

  lemma RowReached(data: seq<Row>, db: map<Key, real>, i: nat)
    requires Reaches(db, data) && i < |data|
    ensures RowBounded(data[i], db)
  {
    forall j | 0 <= j < |data[i]|
      ensures && Key(data[i][j].0, false) in db && Key(data[i][j].0, true) in db
              && db[Key(data[i][j].0, false)] <= data[i][j].1 <= db[Key(data[i][j].0, true)]
    {
      var e := data[i][j];
      assert data[i][j] == (e.0, e.1);
      assert Occurs(data, e.0, e.1);
      assert Beyond(false, db[Key(e.0, false)], e.1) && Beyond(true, db[Key(e.0, true)], e.1);
    }
  }

  ghost predicate IsScaled(row: Row, was: Row, db: map<Key, real>, newMin: real, newMax: real) {
    && |row| == |was|
    && forall j | 0 <= j < |was| ::
         && row[j].0 == was[j].0 && Key(was[j].0, false) in db && Key(was[j].0, true) in db
         && row[j].1 == ScaleValue(was[j].1, db[Key(was[j].0, false)], db[Key(was[j].0, true)], newMin, newMax)
         && newMin <= row[j].1 <= newMax
  }

  method ScaleRow(was: Row, db: map<Key, real>, newMin: real, newMax: real) returns (row: Row)
    requires RowBounded(was, db) && newMin <= newMax
    ensures IsScaled(row, was, db, newMin, newMax)
  {
    hide ScaleValue;
    row := was;
    for j := 0 to |was|
      invariant |row| == |was| && forall k | j <= k < |was| :: row[k] == was[k]
      invariant IsScaled(row[..j], was[..j], db, newMin, newMax)
    {
      var idx, val := row[j].0, row[j].1;
      var minV, maxV := db[Key(idx, false)], db[Key(idx, true)];
      ScaledInRange(val, minV, maxV, newMin, newMax);
      row := row[j := (idx, ScaleValue(val, minV, maxV, newMin, newMax))];
    }
    assert row[..|was|] == row && was[..|was|] == was;
  }

  /** The chunks after scaling: entries keep their places and columns, values lie in the new range. */
  ghost predicate ChunkScaled(scaled: seq<Row>, chunk: seq<Row>, db: map<Key, real>, newMin: real, newMax: real) {
    && |scaled| == |chunk|
    && forall i | 0 <= i < |chunk| :: IsScaled(scaled[i], chunk[i], db, newMin, newMax)
  }

  /** Every chunk is scaled with the bounds that all workers together left in the database. */
  method ScaleChunks(chunks: seq<seq<Row>>, db: map<Key, real>, newMin: real, newMax: real)
    returns (scaled: seq<seq<Row>>)
    requires IsGlobalBound(db, chunks) && newMin <= newMax
    ensures |scaled| == |chunks|
    ensures forall c | 0 <= c < |chunks| :: ChunkScaled(scaled[c], chunks[c], db, newMin, newMax)
  {
    hide Reaches, ScaleValue;
    scaled := [];
    for c := 0 to |chunks|
      invariant |scaled| == c
      invariant forall d | 0 <= d < c :: ChunkScaled(scaled[d], chunks[d], db, newMin, newMax)
    {
      var chunk := ScaleData(chunks[c], db, newMin, newMax);
      assert ChunkScaled(chunk, chunks[c], db, newMin, newMax);
      hide ChunkScaled;
      scaled := scaled + [chunk];
    }
  }

  /** With them no part of the new range is wasted: a column whose bounds are apart has a value at either end. */
  lemma EndsAreTaken(chunks: seq<seq<Row>>, db: map<Key, real>, column: int, newMin: real, newMax: real)
    requires IsGlobalBound(db, chunks) && Key(column, false) in db && Key(column, true) in db
    requires db[Key(column, true)] - db[Key(column, false)] > 0.0001
    ensures exists v ::
              OccursSomewhere(chunks, column, v)
              && ScaleValue(v, db[Key(column, false)], db[Key(column, true)], newMin, newMax) == newMin
    ensures exists v ::
              OccursSomewhere(chunks, column, v)
              && ScaleValue(v, db[Key(column, false)], db[Key(column, true)], newMin, newMax) == newMax
  {
    ScaledEnds(db[Key(column, false)], db[Key(column, true)], newMin, newMax);
    hide ScaleValue, OccursSomewhere, Reaches;
    assert OccursSomewhere(chunks, column, db[Key(column, false)]);
    assert OccursSomewhere(chunks, column, db[Key(column, true)]);
  }
}
