/** Reading the Netflix ratings: threads take lines from one file and give each user the next free row,
    as interleaved steps of any number of threads. */
module Densify {
  import opened Repeats
  import opened Sets

  datatype Line = Line(user: int, movie: int, rating: real)

  /** What the map lock guards: the row of each user seen, the next free row, and the rows. */
  datatype Table = Table(ids: map<int, int>, userIndex: nat, rows: seq<seq<(int, real)>>)

  /** The row a line goes to. */
  function RowFor(t: Table, line: Line): int {
    if line.user in t.ids then t.ids[line.user] else t.userIndex
  }

  /** The section under the map lock, when the row exists. */
  function Insert(t: Table, line: Line): Table
    requires 0 <= RowFor(t, line) < |t.rows|
  {
    var k := RowFor(t, line);
    Table(if line.user in t.ids then t.ids else t.ids[line.user := t.userIndex],
          if line.user in t.ids then t.userIndex else t.userIndex + 1,
          t.rows[k := t.rows[k] + [(line.movie - 1, line.rating)]])
  }

  function Blank(capacity: nat): (rows: seq<seq<(int, real)>>)
    ensures |rows| == capacity && forall k | 0 <= k < capacity :: rows[k] == []
  {
    if capacity == 0 then [] else Blank(capacity - 1) + [[]]
  }

  /** The pairs of one user, in the order of the lines. */
  function Entries(lines: seq<Line>, user: int): seq<(int, real)> {
    if lines == [] then [] else
      var last := lines[|lines| - 1];
      Entries(lines[..|lines| - 1], user) + if last.user == user then [(last.movie - 1, last.rating)] else []
  }

  ghost predicate Seen(lines: seq<Line>, user: int) {
    exists i :: 0 <= i < |lines| && lines[i].user == user
  }

  /** The users by row: ids and owners are inverse to each other. */
  ghost predicate Bijective(t: Table, owners: seq<int>) {
    && |owners| == t.userIndex
    && (forall k | 0 <= k < |owners| :: owners[k] in t.ids && t.ids[owners[k]] == k)
    && (forall u <- t.ids :: 0 <= t.ids[u] < |owners| && owners[t.ids[u]] == u)
  }

  /** Each row holds the lines of its owner in order; rows without an owner are empty. */
  ghost predicate Filled(t: Table, owners: seq<int>, lines: seq<Line>) {
    && |owners| <= |t.rows|
    && (forall k | 0 <= k < |owners| :: t.rows[k] == Entries(lines, owners[k]))
    && (forall k | |owners| <= k < |t.rows| :: t.rows[k] == [])
  }

  /** The table holds exactly the given lines, placed in this order. */
  ghost predicate Holds(t: Table, owners: seq<int>, lines: seq<Line>) {
    && Bijective(t, owners)
    && Filled(t, owners, lines)
    && forall u :: u in t.ids <==> Seen(lines, u)
  }

  lemma EntriesSnoc(lines: seq<Line>, line: Line, user: int)
    ensures Entries(lines + [line], user) ==
            Entries(lines, user) + if line.user == user then [(line.movie - 1, line.rating)] else []
  {
    assert (lines + [line])[..|lines|] == lines;
  }

  lemma {:induction false} NoEntries(lines: seq<Line>, user: int)
    requires !Seen(lines, user)
    ensures Entries(lines, user) == []
  {
    if lines != [] {
      var n := |lines| - 1;
      assert lines[n].user != user;
      assert forall i | 0 <= i < n :: lines[..n][i] == lines[i];
      NoEntries(lines[..n], user);
    }
  }

  lemma SeenSnoc(lines: seq<Line>, line: Line, user: int)
    ensures Seen(lines + [line], user) <==> user == line.user || Seen(lines, user)
  {
    if i :| 0 <= i < |lines| && lines[i].user == user {
      assert (lines + [line])[i].user == user;
    }
    assert (lines + [line])[|lines|] == line;
  }

  ghost function OwnersAfter(t: Table, owners: seq<int>, line: Line): seq<int> {
    if line.user in t.ids then owners else owners + [line.user]
  }

  lemma InsertFills(t: Table, owners: seq<int>, lines: seq<Line>, line: Line)
    requires Holds(t, owners, lines) && 0 <= RowFor(t, line) < |t.rows|
    ensures Filled(Insert(t, line), OwnersAfter(t, owners, line), lines + [line])
  {
    if line.user !in t.ids {
      NoEntries(lines, line.user);
    }
    hide Seen, Entries;
    var owners' := OwnersAfter(t, owners, line);
    forall k | 0 <= k < |owners'| ensures Insert(t, line).rows[k] == Entries(lines + [line], owners'[k]) {
      EntriesSnoc(lines, line, owners'[k]);
    }
  }

  lemma InsertHolds(t: Table, owners: seq<int>, lines: seq<Line>, line: Line)
    requires Holds(t, owners, lines) && RowFor(t, line) < |t.rows|
    ensures 0 <= RowFor(t, line)
    ensures Holds(Insert(t, line), OwnersAfter(t, owners, line), lines + [line])
  {
    InsertFills(t, owners, lines, line);
    hide Seen, Entries;
    var owners', t' := OwnersAfter(t, owners, line), Insert(t, line);
    assert Bijective(t', owners') by {
      hide Filled;
    }
    forall u ensures u in t'.ids <==> Seen(lines + [line], u) {
      SeenSnoc(lines, line, u);
    }
  }

  lemma CountSnoc<T>(s: seq<T>, x: T, p: T)
    ensures multiset(s + [x])[p] == multiset(s)[p] + if x == p then 1 else 0
  {
  }

  /** How often a pair stands in a user's row is how often its line stands in the file. */
  lemma {:induction false} EntryCount(lines: seq<Line>, user: int, p: (int, real))
    ensures multiset(Entries(lines, user))[p] == multiset(lines)[Line(user, p.0 + 1, p.1)]
  {
    if lines != [] {
      var n := |lines| - 1;
      var last := lines[n];
      var entry, before, line := (last.movie - 1, last.rating), lines[..n], Line(user, p.0 + 1, p.1);
      hide *;
      EntryCount(before, user, p);
      assert lines == before + [last];
      EntriesSnoc(before, last, user);
      CountSnoc(before, last, line);
      CountSnoc(Entries(before, user), entry, p);
      assert last.user == user ==> (entry == p <==> last == line);
    }
  }

  /** Where a reader thread stands. */
  datatype Pc = Fetching | Placing(line: Line) | Leaving | Done

  /** `placed` records the lines in the order in which the map lock admitted them. */
  datatype State = State(pos: nat, pcs: seq<Pc>, topUser: seq<int>, topMovie: seq<int>, table: Table,
                         numberUsers: int, numberMovies: int, fault: bool, owners: seq<int>, placed: seq<Line>)

  /** The file: its lines, and whether the last one ends with a newline.  getline on a last line without
      one returns its text and the end of the file at once, and the thread drops it. */
  datatype File = File(lines: seq<Line>, terminated: bool)

  function Readable(f: File): (r: seq<Line>)
    ensures r <= f.lines
  {
    if f.terminated || f.lines == [] then f.lines else f.lines[..|f.lines| - 1]
  }

  function Max(a: int, b: int): int {
    if a < b then b else a
  }

  function Start(threads: nat, capacity: nat): State {
    State(0, Repeat(threads, Fetching), Repeat(threads, 0), Repeat(threads, 0), Table(map[], 0, Blank(capacity)),
          0, 0, false, [], [])
  }

  predicate Shaped(s: State) {
    |s.topUser| == |s.pcs| == |s.topMovie|
  }

  /** Reading a line under the file lock. */
  function Fetched(f: File, s: State, t: nat): State
    requires t < |s.pcs|
  {
    if s.pos < |Readable(f)| then s.(pos := s.pos + 1, pcs := s.pcs[t := Placing(Readable(f)[s.pos])])
    else s.(pcs := s.pcs[t := Leaving])
  }

  /** The map-locked section, and the thread's own maxima behind it.  A row that does not exist throws. */
  function Placed(s: State, t: nat): State
    requires Shaped(s) && t < |s.pcs| && s.pcs[t].Placing?
  {
    var line := s.pcs[t].line;
    var k := RowFor(s.table, line);
    if 0 <= k < |s.table.rows| then
      s.(table := Insert(s.table, line),
         owners := if line.user in s.table.ids then s.owners else s.owners + [line.user],
         placed := s.placed + [line], pcs := s.pcs[t := Fetching],
         topUser := s.topUser[t := Max(s.topUser[t], k)], topMovie := s.topMovie[t := Max(s.topMovie[t], line.movie)])
    else
      s.(fault := true)
  }

  /** The thread's maxima join the totals. */
  function Merged(s: State, t: nat): State
    requires Shaped(s) && t < |s.pcs|
  {
    s.(pcs := s.pcs[t := Done], numberUsers := Max(s.numberUsers, s.topUser[t]),
       numberMovies := Max(s.numberMovies, s.topMovie[t]))
  }

  /** The thread that moves next; what it does is decided by where it stands. */
  predicate Enabled(s: State, t: nat) {
    Shaped(s) && t < |s.pcs| && !s.pcs[t].Done? && !s.fault
  }

  function Next(f: File, s: State, t: nat): State
    requires Enabled(s, t)
  {
    match s.pcs[t]
    case Fetching => Fetched(f, s, t)
    case Placing(_) => Placed(s, t)
    case Leaving => Merged(s, t)
  }

  ghost predicate IsRun(f: File, s: State, schedule: seq<nat>)
    decreases |schedule|
  {
    schedule == [] || (Enabled(s, schedule[0]) && IsRun(f, Next(f, s, schedule[0]), schedule[1..]))
  }

  ghost function RunTo(f: File, s: State, schedule: seq<nat>): State
    requires IsRun(f, s, schedule)
    decreases |schedule|
  {
    if schedule == [] then s else RunTo(f, Next(f, s, schedule[0]), schedule[1..])
  }

  ghost function Hand(pc: Pc): multiset<Line> {
    if pc.Placing? then multiset{pc.line} else multiset{}
  }

  /** The lines that threads have read and not yet placed. */
  ghost function InHand(pcs: seq<Pc>): multiset<Line> {
    if pcs == [] then multiset{} else InHand(pcs[..|pcs| - 1]) + Hand(pcs[|pcs| - 1])
  }

  lemma Regroup(a: multiset<Line>, b: multiset<Line>, c: multiset<Line>)
    ensures a + (b + c) == (a + b) + c
    ensures (a + c) + b == a + (b + c)
  {
  }

  lemma {:induction false} InHandUpdate(pcs: seq<Pc>, t: nat, pc: Pc)
    requires t < |pcs|
    ensures InHand(pcs[t := pc]) + Hand(pcs[t]) == InHand(pcs) + Hand(pc)
  {
    hide Hand;
    var n := |pcs| - 1;
    if t < n {
      InHandUpdate(pcs[..n], t, pc);
      assert pcs[t := pc][..n] == pcs[..n][t := pc];
      Regroup(InHand(pcs[..n][t := pc]), Hand(pcs[t]), Hand(pcs[n]));
      Regroup(InHand(pcs[..n]), Hand(pc), Hand(pcs[n]));
    } else {
      assert pcs[t := pc][..n] == pcs[..n];
      Regroup(InHand(pcs[..n]), Hand(pcs[n]), Hand(pc));
    }
  }

  lemma NothingAdded(m: multiset<Line>)
    ensures m + multiset{} == m
  {
  }

  /** The largest of the numbers, and 0. */
  function Peak(s: seq<int>): int {
    if s == [] then 0 else Max(Peak(s[..|s| - 1]), s[|s| - 1])
  }

  lemma {:induction false} PeakRaise(s: seq<int>, t: nat, x: int)
    requires t < |s|
    ensures Peak(s[t := Max(s[t], x)]) == Max(Peak(s), x)
  {
    var n := |s| - 1;
    var s' := s[t := Max(s[t], x)];
    if t < n {
      PeakRaise(s[..n], t, x);
      assert s'[..n] == s[..n][t := Max(s[t], x)];
    } else {
      assert s'[..n] == s[..n];
    }
  }

  lemma {:induction false} PeakBounds(s: seq<int>, t: nat)
    requires t < |s|
    ensures s[t] <= Peak(s) && 0 <= Peak(s)
  {
    var n := |s| - 1;
    if n > 0 {
      PeakBounds(s[..n], if t < n then t else 0);
      assert t < n ==> s[..n][t] == s[t];
    } else {
      assert s[..n] == [];
    }
  }

  lemma {:induction false} PeakReached(s: seq<int>, total: int)
    requires forall t | 0 <= t < |s| :: s[t] <= total
    requires 0 <= total
    ensures Peak(s) <= total
  {
    if s != [] {
      PeakReached(s[..|s| - 1], total);
    }
  }

  function Movies(lines: seq<Line>): (m: seq<int>)
    ensures |m| == |lines| && forall i | 0 <= i < |m| :: m[i] == lines[i].movie
  {
    if lines == [] then [] else Movies(lines[..|lines| - 1]) + [lines[|lines| - 1].movie]
  }

  /** Placed and held lines are the lines read. */
  ghost predicate Complete(f: File, s: State) {
    s.pos <= |Readable(f)| && multiset(s.placed) + InHand(s.pcs) == multiset(Readable(f)[..s.pos])
  }

  /** The totals and the threads' maxima together bound, and reach, what was placed. */
  ghost predicate Topped(total: int, tops: seq<int>, pcs: seq<Pc>, peak: int) {
    && |tops| == |pcs|
    && 0 <= total <= Peak(tops) && Peak(tops) == peak
    && forall t | 0 <= t < |pcs| && pcs[t].Done? :: tops[t] <= total
  }

  /** Nobody leaves before the file is read. */
  ghost predicate LeftLate(f: File, s: State) {
    forall t | 0 <= t < |s.pcs| && (s.pcs[t].Leaving? || s.pcs[t].Done?) :: s.pos == |Readable(f)|
  }

  ghost predicate Safe(f: File, s: State) {
    && Shaped(s) && Complete(f, s) && LeftLate(f, s)
    && Holds(s.table, s.owners, s.placed)
    && Topped(s.numberUsers, s.topUser, s.pcs, Max(0, s.table.userIndex - 1))
    && Topped(s.numberMovies, s.topMovie, s.pcs, Peak(Movies(s.placed)))
  }

  lemma CompleteFetched(f: File, s: State, t: nat)
    requires Complete(f, s) && Enabled(s, t) && s.pcs[t].Fetching?
    ensures Complete(f, Fetched(f, s, t))
  {
    var lines := Readable(f);
    hide InHand, Readable;
    if s.pos < |lines| {
      HandTakes(s.pcs, t, lines[s.pos]);
      ReadsOne(lines, s.pos, multiset(s.placed), InHand(s.pcs));
    } else {
      HandLeaves(s.pcs, t);
    }
  }

  lemma ReadsOne(lines: seq<Line>, pos: nat, placed: multiset<Line>, hand: multiset<Line>)
    requires pos < |lines| && placed + hand == multiset(lines[..pos])
    ensures placed + (hand + multiset{lines[pos]}) == multiset(lines[..pos + 1])
  {
    Regroup(placed, hand, multiset{lines[pos]});
    assert lines[..pos + 1] == lines[..pos] + [lines[pos]];
  }

  lemma HandTakes(pcs: seq<Pc>, t: nat, line: Line)
    requires t < |pcs| && pcs[t].Fetching?
    ensures InHand(pcs[t := Placing(line)]) == InHand(pcs) + multiset{line}
  {
    InHandUpdate(pcs, t, Placing(line));
    NothingAdded(InHand(pcs[t := Placing(line)]));
    hide InHand;
  }

  lemma HandLeaves(pcs: seq<Pc>, t: nat)
    requires t < |pcs| && pcs[t].Fetching?
    ensures InHand(pcs[t := Leaving]) == InHand(pcs)
  {
    InHandUpdate(pcs, t, Leaving);
    NothingAdded(InHand(pcs[t := Leaving]));
    NothingAdded(InHand(pcs));
    hide InHand;
  }

  lemma CompletePlaced(f: File, s: State, t: nat)
    requires Complete(f, s) && Enabled(s, t) && s.pcs[t].Placing? && !Placed(s, t).fault
    ensures Complete(f, Placed(s, t))
  {
    var s' := Placed(s, t);
    var line := s.pcs[t].line;
    InHandUpdate(s.pcs, t, Fetching);
    NothingAdded(InHand(s.pcs));
    assert s'.pcs == s.pcs[t := Fetching] && s'.placed == s.placed + [line] && s'.pos == s.pos;
    hide InHand, Readable, Placed;
    assert multiset(s'.placed) == multiset(s.placed) + multiset{line};
    Regroup(multiset(s.placed), InHand(s'.pcs), multiset{line});
  }

  lemma CompleteMerged(f: File, s: State, t: nat)
    requires Complete(f, s) && Enabled(s, t) && s.pcs[t].Leaving?
    ensures Complete(f, Merged(s, t))
  {
    InHandUpdate(s.pcs, t, Done);
    NothingAdded(InHand(s.pcs));
    NothingAdded(InHand(s.pcs[t := Done]));
    hide InHand, Readable;
  }

  lemma ToppedMerged(total: int, tops: seq<int>, pcs: seq<Pc>, peak: int, t: nat)
    requires Topped(total, tops, pcs, peak) && t < |pcs|
    ensures Topped(Max(total, tops[t]), tops, pcs[t := Done], peak)
  {
    PeakBounds(tops, t);
    hide Peak;
  }

  lemma ToppedPlaced(total: int, tops: seq<int>, pcs: seq<Pc>, peak: int, t: nat, x: int)
    requires Topped(total, tops, pcs, peak) && t < |pcs|
    ensures Topped(total, tops[t := Max(tops[t], x)], pcs[t := Fetching], Max(peak, x))
  {
    PeakRaise(tops, t, x);
    hide Peak;
  }

  lemma MoviesSnoc(lines: seq<Line>, line: Line)
    ensures Peak(Movies(lines + [line])) == Max(Peak(Movies(lines)), line.movie)
  {
    assert (lines + [line])[..|lines|] == lines;
    var m := Movies(lines + [line]);
    assert m[..|m| - 1] == Movies(lines);
  }

  lemma RowNumbers(t: Table, owners: seq<int>, lines: seq<Line>, line: Line)
    requires Holds(t, owners, lines) && RowFor(t, line) < |t.rows|
    ensures 0 <= RowFor(t, line)
    ensures Max(0, Insert(t, line).userIndex - 1) == Max(Max(0, t.userIndex - 1), RowFor(t, line))
  {
    hide Filled, Seen;
  }

  lemma ToppedMoved(total: int, tops: seq<int>, pcs: seq<Pc>, peak: int, t: nat, pc: Pc)
    requires Topped(total, tops, pcs, peak) && t < |pcs| && !pc.Done?
    ensures Topped(total, tops, pcs[t := pc], peak)
  {
    hide Peak;
  }

  lemma LeftLateFetched(f: File, s: State, t: nat)
    requires Complete(f, s) && LeftLate(f, s) && Enabled(s, t) && s.pcs[t].Fetching?
    ensures LeftLate(f, Fetched(f, s, t))
  {
    hide Readable, InHand;
  }

  lemma FetchedSafe(f: File, s: State, t: nat)
    requires Safe(f, s) && Enabled(s, t) && s.pcs[t].Fetching?
    ensures Safe(f, Fetched(f, s, t))
  {
    CompleteFetched(f, s, t);
    LeftLateFetched(f, s, t);
    ToppedMoved(s.numberUsers, s.topUser, s.pcs, Max(0, s.table.userIndex - 1), t, Fetched(f, s, t).pcs[t]);
    ToppedMoved(s.numberMovies, s.topMovie, s.pcs, Peak(Movies(s.placed)), t, Fetched(f, s, t).pcs[t]);
    hide Holds, Complete, Topped, Peak, Movies, Readable, LeftLate;
  }

  lemma MergedSafe(f: File, s: State, t: nat)
    requires Safe(f, s) && Enabled(s, t) && s.pcs[t].Leaving?
    ensures Safe(f, Merged(s, t))
  {
    CompleteMerged(f, s, t);
    ToppedMerged(s.numberUsers, s.topUser, s.pcs, Max(0, s.table.userIndex - 1), t);
    ToppedMerged(s.numberMovies, s.topMovie, s.pcs, Peak(Movies(s.placed)), t);
    hide Holds, Complete, Topped, Peak, Movies, Readable;
  }

  lemma LeftLatePlaced(f: File, s: State, t: nat)
    requires LeftLate(f, s) && Enabled(s, t) && s.pcs[t].Placing? && !Placed(s, t).fault
    ensures LeftLate(f, Placed(s, t))
  {
    hide Readable, Insert;
  }

  lemma PlacedIs(s: State, t: nat)
    requires Enabled(s, t) && s.pcs[t].Placing? && !Placed(s, t).fault
    ensures var line, k := s.pcs[t].line, RowFor(s.table, s.pcs[t].line);
      && 0 <= k < |s.table.rows|
      && Placed(s, t) == s.(table := Insert(s.table, line), owners := OwnersAfter(s.table, s.owners, line),
                            placed := s.placed + [line], pcs := s.pcs[t := Fetching],
                            topUser := s.topUser[t := Max(s.topUser[t], k)],
                            topMovie := s.topMovie[t := Max(s.topMovie[t], line.movie)])
  {
    hide Insert, Max, RowFor;
  }

  lemma PlacedTops(f: File, s: State, t: nat, line: Line, k: int)
    requires Safe(f, s) && t < |s.pcs| && k == RowFor(s.table, line) < |s.table.rows|
    ensures Topped(s.numberUsers, s.topUser[t := Max(s.topUser[t], k)], s.pcs[t := Fetching],
                   Max(0, Insert(s.table, line).userIndex - 1))
    ensures Topped(s.numberMovies, s.topMovie[t := Max(s.topMovie[t], line.movie)], s.pcs[t := Fetching],
                   Peak(Movies(s.placed + [line])))
  {
    hide Topped, Holds, Complete, LeftLate, Peak, Movies, Max, Insert;
    RowNumbers(s.table, s.owners, s.placed, line);
    ToppedPlaced(s.numberUsers, s.topUser, s.pcs, Max(0, s.table.userIndex - 1), t, k);
    ToppedPlaced(s.numberMovies, s.topMovie, s.pcs, Peak(Movies(s.placed)), t, line.movie);
    MoviesSnoc(s.placed, line);
  }

  lemma TogetherSafe(f: File, s: State)
    requires |s.topUser| == |s.pcs| == |s.topMovie| && Complete(f, s) && LeftLate(f, s)
    requires Holds(s.table, s.owners, s.placed)
    requires Topped(s.numberUsers, s.topUser, s.pcs, Max(0, s.table.userIndex - 1))
    requires Topped(s.numberMovies, s.topMovie, s.pcs, Peak(Movies(s.placed)))
    ensures Safe(f, s)
  {
    hide Complete, LeftLate, Holds, Topped;
  }

  lemma PlacedKeeps(f: File, s: State, t: nat, line: Line, k: int, s': State)
    requires Safe(f, s) && Enabled(s, t) && s.pcs[t].Placing? && s' == Placed(s, t) && !s'.fault
    requires line == s.pcs[t].line && k == RowFor(s.table, line)
    requires 0 <= k < |s.table.rows|
    requires s'.table == Insert(s.table, line) && s'.owners == OwnersAfter(s.table, s.owners, line)
    requires s'.placed == s.placed + [line] && s'.pcs == s.pcs[t := Fetching]
    requires s'.topUser == s.topUser[t := Max(s.topUser[t], k)]
    requires s'.topMovie == s.topMovie[t := Max(s.topMovie[t], line.movie)]
    requires s'.numberUsers == s.numberUsers && s'.numberMovies == s.numberMovies
    ensures Safe(f, s')
  {
    assert Complete(f, s) && LeftLate(f, s) && Holds(s.table, s.owners, s.placed) && t < |s.pcs|;
    assert |s'.topUser| == |s'.pcs| == |s'.topMovie|;
    hide *;
    CompletePlaced(f, s, t);
    LeftLatePlaced(f, s, t);
    InsertHolds(s.table, s.owners, s.placed, line);
    PlacedTops(f, s, t, line, k);
    TogetherSafe(f, s');
  }

  lemma PlacedSafe(f: File, s: State, t: nat)
    requires Safe(f, s) && Enabled(s, t) && s.pcs[t].Placing?
    ensures Placed(s, t).fault || Safe(f, Placed(s, t))
  {
    var line, s' := s.pcs[t].line, Placed(s, t);
    var k := RowFor(s.table, line);
    if !s'.fault {
      PlacedIs(s, t);
      PlacedKeeps(f, s, t, line, k, s');
    }
  }

  lemma StepSafe(f: File, s: State, t: nat)
    requires Safe(f, s) && Enabled(s, t)
    ensures Next(f, s, t).fault || Safe(f, Next(f, s, t))
  {
    hide Safe, Placed, Merged, Fetched;
    match s.pcs[t]
    case Fetching => FetchedSafe(f, s, t);
    case Placing(_) => PlacedSafe(f, s, t);
    case Leaving => MergedSafe(f, s, t);
    case Done => assert false;
  }

  lemma {:induction false} NoneInHand(threads: nat)
    ensures InHand(Repeat(threads, Fetching)) == multiset{} && Peak(Repeat(threads, 0)) == 0
  {
    if threads > 0 {
      NoneInHand(threads - 1);
      assert Repeat(threads, Fetching)[..threads - 1] == Repeat(threads - 1, Fetching);
      assert Repeat(threads, 0)[..threads - 1] == Repeat(threads - 1, 0);
    }
  }

  lemma StartSafe(f: File, threads: nat, capacity: nat)
    ensures Safe(f, Start(threads, capacity))
  {
    StartComplete(f, threads, capacity);
    NothingPlaced(capacity);
    NothingTopped(threads);
    hide Complete, Holds, Topped, Movies, Peak, Readable, Blank;
    TogetherSafe(f, Start(threads, capacity));
  }

  lemma StartComplete(f: File, threads: nat, capacity: nat)
    ensures Complete(f, Start(threads, capacity))
  {
    NoneInHand(threads);
    assert Readable(f)[..0] == [];
    hide InHand, Readable, Blank, Repeat;
  }

  lemma NothingTopped(threads: nat)
    ensures Topped(0, Repeat(threads, 0), Repeat(threads, Fetching), 0) && Peak(Movies([])) == 0
  {
    NoneInHand(threads);
    assert Peak(Movies([])) == 0;
    hide Peak, Movies;
  }

  lemma NothingPlaced(capacity: nat)
    ensures Holds(Table(map[], 0, Blank(capacity)), [], [])
  {
    assert forall u :: !Seen([], u);
    hide Seen, Entries;
  }

  lemma {:induction false} RunSafe(f: File, s: State, schedule: seq<nat>)
    requires Safe(f, s) && IsRun(f, s, schedule) && !RunTo(f, s, schedule).fault
    ensures Safe(f, RunTo(f, s, schedule))
    decreases |schedule|
  {
    hide Safe, Next;
    if schedule != [] {
      StepSafe(f, s, schedule[0]);
      FaultIsLast(f, Next(f, s, schedule[0]), schedule[1..]);
      RunSafe(f, Next(f, s, schedule[0]), schedule[1..]);
    }
  }

  lemma FaultIsLast(f: File, s: State, schedule: seq<nat>)
    requires IsRun(f, s, schedule) && !RunTo(f, s, schedule).fault
    ensures !s.fault
  {
    hide Next;
  }

  /** The users the lines name. */
  ghost function Users(lines: seq<Line>): (u: set<int>)
    ensures forall i | 0 <= i < |lines| :: lines[i].user in u
  {
    set line <- lines :: line.user
  }

  lemma HeldIsRead(pcs: seq<Pc>, t: nat)
    requires t < |pcs| && pcs[t].Placing?
    ensures pcs[t].line in InHand(pcs)
  {
    if t < |pcs| - 1 {
      HeldIsRead(pcs[..|pcs| - 1], t);
    }
  }

  /** A line in hand finds its row if the file has no more users than there are rows. */
  lemma RoomLeft(f: File, s: State, t: nat)
    requires Safe(f, s) && t < |s.pcs| && s.pcs[t].Placing?
    requires |Users(Readable(f))| <= |s.table.rows|
    ensures 0 <= RowFor(s.table, s.pcs[t].line) < |s.table.rows|
  {
    var line, lines := s.pcs[t].line, Readable(f);
    HeldIsRead(s.pcs, t);
    assert line in multiset(lines[..s.pos]);
    assert line in lines;
    hide InHand, Readable;
    if line.user !in s.table.ids {
      var more := s.owners + [line.user];
      forall k | 0 <= k < |more| ensures more[k] in Users(lines) {
        if k < |s.owners| {
          PlacedIsRead(f, s, s.owners[k]);
        }
      }
      var ids := set u | u in more;
      DistinctCount(more, ids);
      SubsetCount(ids, Users(lines));
    }
  }

  lemma SubsetCount(a: set<int>, b: set<int>)
    requires a <= b
    ensures |a| <= |b|
  {
    assert b == a + (b - a);
  }

  lemma PlacedIsRead(f: File, s: State, u: int)
    requires Complete(f, s) && Seen(s.placed, u)
    ensures u in Users(Readable(f))
  {
    var i :| 0 <= i < |s.placed| && s.placed[i].user == u;
    var line := s.placed[i];
    assert line in multiset(s.placed);
    assert line in multiset(Readable(f)[..s.pos]);
    assert line in Readable(f);
  }

  /** With a row for every user of the file no interleaving runs out of rows. */
  lemma {:induction false} NeverOutOfRows(f: File, s: State, schedule: seq<nat>)
    requires Safe(f, s) && !s.fault && IsRun(f, s, schedule)
    requires |Users(Readable(f))| <= |s.table.rows|
    ensures !RunTo(f, s, schedule).fault
    decreases |schedule|
  {
    hide Safe, Next, Users;
    if schedule != [] {
      var t := schedule[0];
      if s.pcs[t].Placing? {
        RoomLeft(f, s, t);
      }
      StepSafe(f, s, t);
      StepKeepsRows(f, s, t);
      NeverOutOfRows(f, Next(f, s, t), schedule[1..]);
    }
  }

  lemma StepKeepsRows(f: File, s: State, t: nat)
    requires Enabled(s, t)
    requires s.pcs[t].Placing? ==> 0 <= RowFor(s.table, s.pcs[t].line) < |s.table.rows|
    ensures !Next(f, s, t).fault && |Next(f, s, t).table.rows| == |s.table.rows|
  {
    hide Readable, RowFor, Max;
  }

  lemma {:induction false} NoneLeft(pcs: seq<Pc>)
    requires forall t | 0 <= t < |pcs| :: pcs[t].Done?
    ensures InHand(pcs) == multiset{}
  {
    if pcs != [] {
      NoneLeft(pcs[..|pcs| - 1]);
    }
  }

  /** When every thread is done, the users seen are exactly those of the readable lines, rows and users
      correspond one to one, each row holds each of its user's pairs as often as the file has the line,
      and the totals are the largest row number (not the number of users) and the largest movie. */
  lemma EveryInterleavingDensifies(f: File, threads: nat, capacity: nat, schedule: seq<nat>)
    requires threads > 0 && IsRun(f, Start(threads, capacity), schedule)
    requires var s := RunTo(f, Start(threads, capacity), schedule);
      !s.fault && forall t | 0 <= t < |s.pcs| :: s.pcs[t].Done?
    ensures var s := RunTo(f, Start(threads, capacity), schedule);
      && Bijective(s.table, s.owners) && s.table.userIndex <= |s.table.rows|
      && (forall u :: u in s.table.ids <==> Seen(Readable(f), u))
      && (forall k, p | 0 <= k < s.table.userIndex ::
            multiset(s.table.rows[k])[p] == multiset(Readable(f))[Line(s.owners[k], p.0 + 1, p.1)])
      && (forall k | s.table.userIndex <= k < |s.table.rows| :: s.table.rows[k] == [])
      && s.numberUsers == Max(0, s.table.userIndex - 1)
      && s.numberMovies == Peak(Movies(s.placed)) && multiset(s.placed) == multiset(Readable(f))
  {
    var s := RunTo(f, Start(threads, capacity), schedule);
    StartSafe(f, threads, capacity);
    RunSafe(f, Start(threads, capacity), schedule);
    ThreadsStay(f, Start(threads, capacity), schedule);
    hide IsRun, RunTo, Start;
    FinishedIs(f, s);
  }

  lemma {:induction false} ThreadsStay(f: File, s: State, schedule: seq<nat>)
    requires IsRun(f, s, schedule)
    ensures |RunTo(f, s, schedule).pcs| == |s.pcs|
    ensures |RunTo(f, s, schedule).table.rows| == |s.table.rows|
    decreases |schedule|
  {
    hide Readable, RowFor, Max;
    if schedule != [] {
      ThreadsStay(f, Next(f, s, schedule[0]), schedule[1..]);
    }
  }

  lemma SameSeen(a: seq<Line>, b: seq<Line>, u: int)
    requires multiset(a) == multiset(b) && Seen(a, u)
    ensures Seen(b, u)
  {
    var i :| 0 <= i < |a| && a[i].user == u;
    assert a[i] in multiset(a);
    assert a[i] in b;
  }

  lemma FinishedIs(f: File, s: State)
    requires Safe(f, s) && |s.pcs| > 0 && forall t | 0 <= t < |s.pcs| :: s.pcs[t].Done?
    ensures Bijective(s.table, s.owners) && s.table.userIndex <= |s.table.rows|
    ensures forall u :: u in s.table.ids <==> Seen(Readable(f), u)
    ensures forall k, p | 0 <= k < s.table.userIndex ::
              multiset(s.table.rows[k])[p] == multiset(Readable(f))[Line(s.owners[k], p.0 + 1, p.1)]
    ensures forall k | s.table.userIndex <= k < |s.table.rows| :: s.table.rows[k] == []
    ensures s.numberUsers == Max(0, s.table.userIndex - 1)
    ensures s.numberMovies == Peak(Movies(s.placed)) && multiset(s.placed) == multiset(Readable(f))
  {
    NoneLeft(s.pcs);
    NothingAdded(multiset(s.placed));
    PeakReached(s.topUser, s.numberUsers);
    PeakReached(s.topMovie, s.numberMovies);
    assert LeftLate(f, s) && s.pcs[0].Done?;
    assert Readable(f)[..s.pos] == Readable(f);
    hide InHand, Peak, Movies, Seen, Entries, Readable;
    forall u ensures u in s.table.ids <==> Seen(Readable(f), u) {
      if Seen(s.placed, u) {
        SameSeen(s.placed, Readable(f), u);
      }
      if Seen(Readable(f), u) {
        SameSeen(Readable(f), s.placed, u);
      }
    }
    forall k, p | 0 <= k < s.table.userIndex
      ensures multiset(s.table.rows[k])[p] == multiset(Readable(f))[Line(s.owners[k], p.0 + 1, p.1)]
    {
      EntryCount(s.placed, s.owners[k], p);
    }
  }

  /** When every thread is done there was a row for every user. */
  lemma OwnersAreUsers(f: File, s: State)
    requires Safe(f, s) && |s.pcs| > 0 && forall t | 0 <= t < |s.pcs| :: s.pcs[t].Done?
    ensures |Users(Readable(f))| <= |s.table.rows|
  {
    FinishedIs(f, s);
    hide Readable, Complete, LeftLate, Topped;
    var users := Users(Readable(f));
    forall u ensures u in s.owners <==> u in users {
      if u in users {
        var line :| line in Readable(f) && line.user == u;
        assert Seen(Readable(f), u);
        assert u in s.table.ids && s.owners[s.table.ids[u]] == u;
      }
      if k :| 0 <= k < |s.owners| && s.owners[k] == u {
        assert u in s.table.ids && Seen(Readable(f), u);
      }
    }
    DistinctCount(s.owners, users);
  }

  /** Every interleaving that comes to its end throws exactly when the file has more users than there
      are rows. */
  lemma OutOfRowsIff(f: File, threads: nat, capacity: nat, schedule: seq<nat>)
    requires threads > 0 && IsRun(f, Start(threads, capacity), schedule)
    requires var s := RunTo(f, Start(threads, capacity), schedule);
      s.fault || forall t | 0 <= t < |s.pcs| :: s.pcs[t].Done?
    ensures RunTo(f, Start(threads, capacity), schedule).fault <==> |Users(Readable(f))| > capacity
  {
    var start := Start(threads, capacity);
    var s := RunTo(f, start, schedule);
    StartSafe(f, threads, capacity);
    ThreadsStay(f, start, schedule);
    assert |start.pcs| == threads && |start.table.rows| == capacity && !start.fault;
    hide IsRun, RunTo, Start, Safe, Users, Readable;
    if |Users(Readable(f))| <= capacity {
      NeverOutOfRows(f, start, schedule);
    } else if !s.fault {
      RunSafe(f, start, schedule);
      OwnersAreUsers(f, s);
      assert false;
    }
  }

  /** What a thread still has to do, without the lines it has yet to read. */
  function Steps(pc: Pc): nat {
    match pc
    case Fetching => 2
    case Placing(_) => 3
    case Leaving => 1
    case Done => 0
  }

  function StepsLeft(pcs: seq<Pc>): nat {
    if pcs == [] then 0 else StepsLeft(pcs[..|pcs| - 1]) + Steps(pcs[|pcs| - 1])
  }

  lemma {:induction false} StepsUpdate(pcs: seq<Pc>, t: nat, pc: Pc)
    requires t < |pcs|
    ensures StepsLeft(pcs[t := pc]) + Steps(pcs[t]) == StepsLeft(pcs) + Steps(pc)
  {
    var n := |pcs| - 1;
    hide Steps;
    if t < n {
      StepsUpdate(pcs[..n], t, pc);
      assert pcs[t := pc][..n] == pcs[..n][t := pc];
    } else {
      assert pcs[t := pc][..n] == pcs[..n];
    }
  }

  /** An upper bound on the steps from here on; a throw ends everything. */
  ghost function Measure(f: File, s: State): int {
    2 * (|Readable(f)| - s.pos) + StepsLeft(s.pcs) + if s.fault then 0 else 1
  }

  lemma StepCountsDown(f: File, s: State, t: nat)
    requires Enabled(s, t) && s.pos <= |Readable(f)|
    ensures Measure(f, Next(f, s, t)) < Measure(f, s) && Next(f, s, t).pos <= |Readable(f)|
  {
    StepsUpdate(s.pcs, t, Next(f, s, t).pcs[t]);
    hide StepsLeft, Readable, Insert, RowFor, Max;
  }

  lemma {:induction false} RunCountsDown(f: File, s: State, schedule: seq<nat>)
    requires IsRun(f, s, schedule) && s.pos <= |Readable(f)|
    ensures |schedule| + Measure(f, RunTo(f, s, schedule)) <= Measure(f, s)
    ensures RunTo(f, s, schedule).pos <= |Readable(f)|
    decreases |schedule|
  {
    hide Next, Readable, Measure, Enabled;
    if schedule != [] {
      StepCountsDown(f, s, schedule[0]);
      RunCountsDown(f, Next(f, s, schedule[0]), schedule[1..]);
    }
  }

  lemma {:induction false} StepsAtStart(threads: nat)
    ensures StepsLeft(Repeat(threads, Fetching)) == 2 * threads
  {
    if threads > 0 {
      StepsAtStart(threads - 1);
      assert Repeat(threads, Fetching)[..threads - 1] == Repeat(threads - 1, Fetching);
    }
  }

  /** Whether nothing can happen any more. */
  ghost predicate IsOver(s: State) {
    s.fault || forall t | 0 <= t < |s.pcs| :: s.pcs[t].Done?
  }

  /** Every schedule ends after a bounded number of steps, and only with a throw or with all threads done;
      and where it has not ended, some thread can go on. */
  lemma EveryScheduleEnds(f: File, threads: nat, capacity: nat, schedule: seq<nat>)
    requires IsRun(f, Start(threads, capacity), schedule)
    ensures |schedule| <= 2 * |Readable(f)| + 2 * threads + 1
    ensures var s := RunTo(f, Start(threads, capacity), schedule); IsOver(s) <==> forall t: nat :: !Enabled(s, t)
  {
    var start := Start(threads, capacity);
    StepsAtStart(threads);
    RunCountsDown(f, start, schedule);
    var s := RunTo(f, start, schedule);
    AlwaysShaped(f, start, schedule);
    hide IsRun, RunTo, Start, Readable, StepsLeft;
    if !IsOver(s) {
      var t :| 0 <= t < |s.pcs| && !s.pcs[t].Done?;
      assert Enabled(s, t);
    }
  }

  lemma {:induction false} AlwaysShaped(f: File, s: State, schedule: seq<nat>)
    requires Shaped(s) && IsRun(f, s, schedule)
    ensures Shaped(RunTo(f, s, schedule))
    decreases |schedule|
  {
    hide Readable, RowFor, Max, Insert;
    if schedule != [] {
      AlwaysShaped(f, Next(f, s, schedule[0]), schedule[1..]);
    }
  }

  /** All lines are read if the last one ends with a newline; otherwise all but the last. */
  lemma LastLineDropped(f: File)
    ensures Readable(f) == f.lines <==> f.terminated || f.lines == []
    ensures |f.lines| - 1 <= |Readable(f)| <= |f.lines|
  {
  }
}
