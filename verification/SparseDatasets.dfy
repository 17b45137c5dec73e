/** The object-store format of a sparse dataset: its encoder, its two decoders, and the walk that
    cuts an object into minibatches without decoding it. */
module SparseDatasets {
  import opened Multiples
  import opened Words

  type Row = seq<(int, real)>

  /** Rows of (index, value) pairs, and their labels if the dataset has any. */
  datatype Dataset = Dataset(rows: seq<Row>, labels: seq<real>)

  const MAX_VALUES := 1_000_000
  const MAX_SAMPLES := 1_000_000
  const TOLERANCE := 1e-7

  ghost function EntryWords(row: Row, j: nat): seq<Word>
    requires j <= |row|
    decreases |row| - j
  {
    if j == |row| then [] else [StoreInt(row[j].0), Feature(row[j].1)] + EntryWords(row, j + 1)
  }

  ghost function LabelWords(d: Dataset, i: nat, labels: bool): (w: seq<Word>)
    ensures |w| == if labels then 1 else 0
  {
    if !labels then [] else [Feature(if i < |d.labels| then d.labels[i] else 0.0)]
  }

  ghost function SampleWords(d: Dataset, i: nat, labels: bool): seq<Word>
    requires i < |d.rows|
  {
    LabelWords(d, i, labels) + [StoreInt(|d.rows[i]|)] + EntryWords(d.rows[i], 0)
  }

  /** Samples i up to r. */
  ghost function SamplesWords(d: Dataset, i: nat, r: nat, labels: bool): seq<Word>
    requires i <= r <= |d.rows|
    decreases r - i
  {
    if i == r then [] else SampleWords(d, i, labels) + SamplesWords(d, i + 1, r, labels)
  }

  ghost function Entries(d: Dataset, i: nat, r: nat): nat
    requires i <= r <= |d.rows|
  {
    if i == r then 0 else Entries(d, i, r - 1) + |d.rows[r - 1]|
  }

  /** The size the encoder computes before it writes anything. */
  function ObjectSize(entries: nat, samples: nat, labels: bool): nat {
    entries * (4 + 4) + samples * ((if labels then 4 else 0) + 4) + 4 * 2
  }

  lemma {:induction false} EntryLength(row: Row, j: nat)
    requires j <= |row|
    ensures |EntryWords(row, j)| == 2 * (|row| - j)
    decreases |row| - j
  {
    if j < |row| {
      EntryLength(row, j + 1);
    }
  }

  lemma {:induction false} EntriesSplit(d: Dataset, i: nat, r: nat)
    requires i < r <= |d.rows|
    ensures Entries(d, i, r) == |d.rows[i]| + Entries(d, i + 1, r)
  {
    if i + 1 < r {
      EntriesSplit(d, i, r - 1);
    }
  }

  lemma {:induction false} SamplesLength(d: Dataset, i: nat, r: nat, labels: bool)
    requires i <= r <= |d.rows|
    ensures WORD_BYTES * (2 + |SamplesWords(d, i, r, labels)|) == ObjectSize(Entries(d, i, r), r - i, labels)
    decreases r - i
  {
    if i < r {
      SamplesLength(d, i + 1, r, labels);
      EntryLength(d.rows[i], 0);
      EntriesSplit(d, i, r);
    }
  }

  /** What the field types say: indices and row lengths are ints. */
  ghost predicate Representable(d: Dataset) {
    forall i | 0 <= i < |d.rows| ::
      (|d.rows[i]| < TWO_31 && forall j | 0 <= j < |d.rows[i]| :: FitsInt(d.rows[i][j].0))
  }

  method CountEntries(d: Dataset, l: nat, r: nat) returns (count: nat)
    requires l <= r <= |d.rows|
    ensures count == Entries(d, l, r)
  {
    count := 0;
    for i := l to r
      invariant count == Entries(d, l, i)
    {
      for j := 0 to |d.rows[i]|
        invariant count == Entries(d, l, i) + j
      {
        count := count + 1;
      }
    }
  }

  method StoreEntries(mem: seq<Word>, row: Row) returns (out: seq<Word>)
    ensures out == mem + EntryWords(row, 0)
  {
    out := mem;
    for j := 0 to |row|
      invariant out + EntryWords(row, j) == mem + EntryWords(row, 0)
    {
      out := out + [StoreInt(row[j].0)] + [Feature(row[j].1)];
    }
  }

  /** build_serialized_s3_obj: the object holding samples l up to r takes exactly the bytes its
      size announces. */
  method Build(d: Dataset, l: nat, r: nat, labels: bool) returns (mem: seq<Word>, size: nat)
    requires l < r <= |d.rows| && (labels ==> |d.labels| == |d.rows|)
    ensures mem == [StoreInt(size), StoreInt(r - l)] + SamplesWords(d, l, r, labels)
    ensures WORD_BYTES * |mem| == size
  {
    hide *;
    var entries := CountEntries(d, l, r);
    size := ObjectSize(entries, r - l, labels);
    SamplesLength(d, l, r, labels);
    mem := [StoreInt(size), StoreInt(r - l)];
    mem := StoreSamples(mem, d, l, r, labels);
  }

  method StoreSamples(mem: seq<Word>, d: Dataset, l: nat, r: nat, labels: bool) returns (out: seq<Word>)
    requires l <= r <= |d.rows| && (labels ==> |d.labels| == |d.rows|)
    ensures out == mem + SamplesWords(d, l, r, labels)
  {
    out := mem;
    NoSamples(d, r, labels);
    hide SampleWords, SamplesWords;
    for i := l to r
      invariant out + SamplesWords(d, i, r, labels) == mem + SamplesWords(d, l, r, labels)
    {
      SamplesNext(d, i, r, labels);
      out := StoreSample(out, d, i, labels);
    }
  }

  lemma NoSamples(d: Dataset, r: nat, labels: bool)
    requires r <= |d.rows|
    ensures SamplesWords(d, r, r, labels) == []
  {
  }

  method StoreSample(mem: seq<Word>, d: Dataset, i: nat, labels: bool) returns (out: seq<Word>)
    requires i < |d.rows| && (labels ==> |d.labels| == |d.rows|)
    ensures out == mem + SampleWords(d, i, labels)
  {
    out := mem;
    if labels {
      out := out + [Feature(d.labels[i])];
    }
    assert out == mem + LabelWords(d, i, labels);
    hide LabelWords, EntryWords;
    out := out + [StoreInt(|d.rows[i]|)];
    out := StoreEntries(out, d.rows[i]);
  }

  method LoadEntries(mem: seq<Word>, at: nat, count: int, ghost row: Row, ghost rest: seq<Word>)
    returns (loaded: Row, next: nat)
    requires forall j | 0 <= j < |row| :: FitsInt(row[j].0)
    requires count == |row| && at <= |mem| && mem[at..] == EntryWords(row, 0) + rest
    ensures loaded == row
    ensures next <= |mem| && mem[next..] == rest
  {
    loaded, next := [], at;
    for j := 0 to count
      invariant loaded == row[..j]
      invariant next <= |mem| && mem[next..] == EntryWords(row, j) + rest
    {
      LoadStore(row[j].0);
      assert mem[next] == mem[next..][0] && mem[next + 1] == mem[next..][1];
      assert mem[next + 2..] == mem[next..][2..];
      loaded := loaded + [(LoadInt(mem[next]), mem[next + 1].value)];
      next := next + 2;
    }
  }

  /** The samples i up to i + n of a dataset. */
  ghost predicate Holds(out: Dataset, d: Dataset, i: nat, n: nat, labels: bool) {
    && i + n <= |d.rows| && out.rows == d.rows[i..i + n]
    && out.labels == if labels && i + n <= |d.labels| then d.labels[i..i + n] else []
  }

  /** A pointer at which samples i up to r are stored. */
  ghost predicate PointsAt(mem: seq<Word>, at: nat, d: Dataset, i: nat, r: nat, labels: bool) {
    i <= r <= |d.rows| && at <= |mem| && mem[at..] == SamplesWords(d, i, r, labels)
  }

  /** The decoder for one minibatch, at a pointer into an object that holds samples i up to r.  An assertion
      stops it at the first sample that is not as expected. */
  method DecodeMinibatch(mem: seq<Word>, at: nat, n: nat, labels: bool, ghost d: Dataset, ghost i: nat, ghost r: nat)
    returns (ok: bool, out: Dataset, next: nat)
    requires Representable(d) && i + n <= r <= |d.rows| && (labels ==> |d.labels| == |d.rows|)
    requires PointsAt(mem, at, d, i, r, labels)
    ensures ok <==> AllDecodable(d, i, n, labels, Minibatch)
    ensures ok ==> Holds(out, d, i, n, labels) && PointsAt(mem, next, d, i + n, r, labels)
  {
    ok, out, next := DecodeSamples(mem, at, n, labels, Minibatch, d, i, r);
  }

  lemma SamplesNext(d: Dataset, i: nat, r: nat, labels: bool)
    requires i < r <= |d.rows|
    ensures SamplesWords(d, i, r, labels) == SampleWords(d, i, labels) + SamplesWords(d, i + 1, r, labels)
  {
  }

  /** push_back of one decoded sample. */
  method Append(out: Dataset, row: Row, tag: real, labels: bool, ghost d: Dataset, ghost i: nat, ghost k: nat)
    returns (grown: Dataset)
    requires Holds(out, d, i, k, labels) && i + k < |d.rows| && (labels ==> |d.labels| == |d.rows|)
    requires row == d.rows[i + k] && (labels ==> tag == d.labels[i + k])
    ensures Holds(grown, d, i, k + 1, labels)
  {
    grown := Dataset(out.rows + [row], if labels then out.labels + [tag] else out.labels);
  }

  /** Reads a sample's label, if it has one, and how many values follow. */
  method LoadHeader(mem: seq<Word>, at: nat, labels: bool, ghost d: Dataset, ghost i: nat, ghost r: nat)
    returns (tag: real, count: int, next: nat)
    requires Representable(d) && i < r <= |d.rows| && (labels ==> |d.labels| == |d.rows|)
    requires PointsAt(mem, at, d, i, r, labels)
    ensures labels ==> tag == d.labels[i]
    ensures count == |d.rows[i]|
    ensures next <= |mem| && mem[next..] == EntryWords(d.rows[i], 0) + SamplesWords(d, i + 1, r, labels)
  {
    next, tag := at, 0.0;
    SamplesNext(d, i, r, labels);
    ghost var rest := SamplesWords(d, i + 1, r, labels);
    hide SamplesWords;
    ghost var entries := EntryWords(d.rows[i], 0);
    assert mem[at..] == LabelWords(d, i, labels) + ([StoreInt(|d.rows[i]|)] + (entries + rest));
    Past(mem, at, LabelWords(d, i, labels), [StoreInt(|d.rows[i]|)] + (entries + rest));
    if labels {
      assert mem[at + 0] == LabelWords(d, i, labels)[0];
      tag := mem[at].value;
      next := at + 1;
    }
    hide EntryWords, LabelWords;
    Past(mem, next, [StoreInt(|d.rows[i]|)], entries + rest);
    assert mem[next + 0] == StoreInt(|d.rows[i]|);
    LoadStore(|d.rows[i]|);
    count := LoadInt(mem[next]);
    next := next + 1;
  }

  predicate IsLabel(x: real) {
    x == 0.0 || x == 1.0
  }

  /** FLOAT_EQ */
  predicate Near(x: real, y: real) {
    (if x < y then y - x else x - y) < TOLERANCE
  }

  /** What the walk asserts of sample i. */
  ghost predicate Walkable(d: Dataset, i: nat, labels: bool)
    requires i < |d.rows| && (labels ==> |d.labels| == |d.rows|)
  {
    |d.rows[i]| < MAX_VALUES && (labels ==> IsLabel(d.labels[i]))
  }

  /** In numbers. */
  lemma WalkableIff(d: Dataset, i: nat, labels: bool)
    requires i < |d.rows| && (labels ==> |d.labels| == |d.rows|)
    ensures Walkable(d, i, labels) <==> |d.rows[i]| <= 999_999 && (labels ==> d.labels[i] in {0.0, 1.0})
  {
  }

  ghost predicate AllWalkable(d: Dataset, i: nat, n: nat, labels: bool)
    requires i + n <= |d.rows| && (labels ==> |d.labels| == |d.rows|)
  {
    forall k: nat | i <= k < i + n :: Walkable(d, k, labels)
  }

  lemma AllWalkableJoin(d: Dataset, i: nat, m: nat, n: nat, labels: bool)
    requires i + m + n <= |d.rows| && (labels ==> |d.labels| == |d.rows|)
    ensures AllWalkable(d, i, m + n, labels) <==> (AllWalkable(d, i, m, labels) && AllWalkable(d, i + m, n, labels))
  {
    hide Walkable;
  }

  lemma WalkProgress(d: Dataset, l: nat, i: nat, rows: nat, minibatches: nat, labels: bool)
    requires i < minibatches && l + Times(minibatches, rows) <= |d.rows| && (labels ==> |d.labels| == |d.rows|)
    ensures Times(i + 1, rows) == Times(i, rows) + rows <= Times(minibatches, rows)
    ensures AllWalkable(d, l, Times(i + 1, rows), labels)
       <==> (AllWalkable(d, l, Times(i, rows), labels) && AllWalkable(d, l + Times(i, rows), rows, labels))
    ensures AllWalkable(d, l, Times(minibatches, rows), labels) ==> AllWalkable(d, l, Times(i + 1, rows), labels)
  {
    TimesMonotone(i + 1, minibatches, rows);
    TimesNext(i, rows);
    var total := Times(minibatches, rows);
    hide Times, AllWalkable;
    AllWalkableJoin(d, l, Times(i, rows), rows, labels);
    AllWalkableJoin(d, l, Times(i + 1, rows), total - Times(i + 1, rows), labels);
  }

  /** Advances past one sample without decoding its values: a row of n values is skipped as
      n * (sizeof(int) + sizeof(FEATURE_TYPE)) bytes. */
  method SkipSample(mem: seq<Word>, at: nat, labels: bool, ghost d: Dataset, ghost i: nat, ghost r: nat)
    returns (ok: bool, next: nat)
    requires Representable(d) && i < r <= |d.rows| && (labels ==> |d.labels| == |d.rows|)
    requires PointsAt(mem, at, d, i, r, labels)
    ensures ok <==> Walkable(d, i, labels)
    ensures ok ==> PointsAt(mem, next, d, i + 1, r, labels)
  {
    hide EntryWords, SampleWords, SamplesWords, Representable;
    ok := false;
    var tag, count;
    tag, count, next := LoadHeader(mem, at, labels, d, i, r);
    if (labels && !IsLabel(tag)) || !(0 <= count < MAX_VALUES) {
      return;
    }
    EntryLength(d.rows[i], 0);
    Past(mem, next, EntryWords(d.rows[i], 0), SamplesWords(d, i + 1, r, labels));
    var bytes := count * (4 + 4);
    next := next + bytes / WORD_BYTES;
    ok := true;
  }

  /** The pointer loop of pushSamples over an object that holds samples l up to r: a pointer to
      every minibatch, each where that minibatch's samples start.  An assertion stops it at the
      first sample that is not as expected. */
  method Walk(mem: seq<Word>, at: nat, minibatches: nat, rows: nat, labels: bool, ghost d: Dataset, ghost l: nat,
              ghost r: nat)
    returns (ok: bool, pointers: seq<nat>, end: nat)
    requires Representable(d) && l + Times(minibatches, rows) <= r <= |d.rows| && (labels ==> |d.labels| == |d.rows|)
    requires PointsAt(mem, at, d, l, r, labels)
    ensures ok <==> AllWalkable(d, l, Times(minibatches, rows), labels)
    ensures ok ==> |pointers| == minibatches && Cut(mem, pointers, d, l, rows, r, labels)
    ensures ok ==> PointsAt(mem, end, d, l + Times(minibatches, rows), r, labels)
  {
    pointers, end, ok := [], at, true;
    TimesNext(0, rows);
    assert AllWalkable(d, l, 0, labels);
    assert Cut(mem, pointers, d, l, rows, r, labels);
    hide *;
    for i := 0 to minibatches
      invariant l + Times(i, rows) <= r
      invariant AllWalkable(d, l, Times(i, rows), labels)
      invariant |pointers| == i && Cut(mem, pointers, d, l, rows, r, labels)
      invariant PointsAt(mem, end, d, l + Times(i, rows), r, labels)
    {
      ok, pointers, end := WalkOn(mem, end, pointers, rows, labels, d, l, r, minibatches);
      if !ok {
        return;
      }
    }
  }

  /** One turn of that loop. */
  method WalkOn(mem: seq<Word>, at: nat, pointers: seq<nat>, rows: nat, labels: bool, ghost d: Dataset, ghost l: nat,
                ghost r: nat, ghost minibatches: nat)
    returns (ok: bool, grown: seq<nat>, end: nat)
    requires Representable(d) && l + Times(minibatches, rows) <= r <= |d.rows| && (labels ==> |d.labels| == |d.rows|)
    requires |pointers| < minibatches && l + Times(|pointers|, rows) <= r
    requires AllWalkable(d, l, Times(|pointers|, rows), labels)
    requires Cut(mem, pointers, d, l, rows, r, labels)
    requires PointsAt(mem, at, d, l + Times(|pointers|, rows), r, labels)
    ensures !ok ==> !AllWalkable(d, l, Times(minibatches, rows), labels)
    ensures ok ==> l + Times(|pointers| + 1, rows) <= r && AllWalkable(d, l, Times(|pointers| + 1, rows), labels)
    ensures ok ==> |grown| == |pointers| + 1 && Cut(mem, grown, d, l, rows, r, labels)
    ensures ok ==> PointsAt(mem, end, d, l + Times(|pointers| + 1, rows), r, labels)
  {
    hide *;
    ghost var i := |pointers|;
    grown := PushPointer(pointers, at, mem, d, l, rows, r, labels);
    WalkProgress(d, l, i, rows, minibatches, labels);
    ok, end := WalkMinibatch(mem, at, rows, labels, d, l + Times(i, rows), r);
  }

  /** The pointers start one minibatch each. */
  ghost predicate Cut(mem: seq<Word>, pointers: seq<nat>, d: Dataset, l: nat, rows: nat, r: nat, labels: bool) {
    forall i | 0 <= i < |pointers| :: PointsAt(mem, pointers[i], d, l + Times(i, rows), r, labels)
  }

  method PushPointer(pointers: seq<nat>, at: nat, ghost mem: seq<Word>, ghost d: Dataset, ghost l: nat, ghost rows: nat,
                     ghost r: nat, labels: bool)
    returns (grown: seq<nat>)
    requires Cut(mem, pointers, d, l, rows, r, labels)
    requires PointsAt(mem, at, d, l + Times(|pointers|, rows), r, labels)
    ensures |grown| == |pointers| + 1 && Cut(mem, grown, d, l, rows, r, labels)
  {
    hide PointsAt, Times;
    grown := pointers + [at];
  }

  /** A pointer to sample i stands at the end of the object exactly if there is no sample i. */
  lemma NothingLeftIff(mem: seq<Word>, at: nat, d: Dataset, i: nat, r: nat, labels: bool)
    requires i <= r <= |d.rows| && PointsAt(mem, at, d, i, r, labels)
    ensures at == |mem| <==> i == r
  {
    assert i < r ==> |SamplesWords(d, i, r, labels)| > 0;
    assert |mem[at..]| == |mem| - at;
  }

  method WalkMinibatch(mem: seq<Word>, at: nat, rows: nat, labels: bool, ghost d: Dataset, ghost i: nat, ghost r: nat)
    returns (ok: bool, next: nat)
    requires Representable(d) && i + rows <= r <= |d.rows| && (labels ==> |d.labels| == |d.rows|)
    requires PointsAt(mem, at, d, i, r, labels)
    ensures ok <==> AllWalkable(d, i, rows, labels)
    ensures ok ==> PointsAt(mem, next, d, i + rows, r, labels)
  {
    next, ok := at, true;
    hide PointsAt, Representable, Walkable;
    for j := 0 to rows
      invariant forall k: nat | i <= k < i + j :: Walkable(d, k, labels)
      invariant PointsAt(mem, next, d, i + j, r, labels)
    {
      ok, next := SkipSample(mem, next, labels, d, i + j, r);
      if !ok {
        return;
      }
    }
  }

  /** The decoder for a whole object, with its sanity checks. */
  method DecodeObject(mem: seq<Word>, labels: bool, ghost d: Dataset, ghost l: nat, ghost r: nat, ghost size: nat)
    returns (ok: bool, out: Dataset)
    requires Representable(d) && l <= r <= |d.rows| && r - l < TWO_31 && (labels ==> |d.labels| == |d.rows|)
    requires mem == [StoreInt(size), StoreInt(r - l)] + SamplesWords(d, l, r, labels)
    ensures ok <==> (l < r < l + 1_000_000 && AllDecodable(d, l, r - l, labels, Object))
    ensures ok ==> Holds(out, d, l, r - l, labels)
  {
    out, ok := Dataset([], []), false;
    LoadStore(r - l);
    Past(mem, 0, [StoreInt(size), StoreInt(r - l)], SamplesWords(d, l, r, labels));
    var n := LoadInt(mem[1]);
    if !(0 < n < MAX_SAMPLES) {
      return;
    }
    hide SampleWords, SamplesWords, Holds, Representable, Decodable, AllDecodable;
    var next;
    ok, out, next := DecodeSamples(mem, 2, n, labels, Object, d, l, r);
  }

  method DecodeSamples(mem: seq<Word>, at: nat, n: nat, labels: bool, whose: Decoder,
                       ghost d: Dataset, ghost l: nat, ghost r: nat)
    returns (ok: bool, out: Dataset, next: nat)
    requires Representable(d) && l + n <= r <= |d.rows| && (labels ==> |d.labels| == |d.rows|)
    requires PointsAt(mem, at, d, l, r, labels)
    ensures ok <==> AllDecodable(d, l, n, labels, whose)
    ensures ok ==> Holds(out, d, l, n, labels) && PointsAt(mem, next, d, l + n, r, labels)
  {
    ok, out, next := true, Dataset([], []), at;
    assert Holds(out, d, l, 0, labels) && AllDecodable(d, l, 0, labels, whose);
    hide *;
    for k := 0 to n
      invariant PointsAt(mem, next, d, l + k, r, labels)
      invariant AllDecodable(d, l, k, labels, whose)
      invariant Holds(out, d, l, k, labels)
    {
      var row, tag;
      AllDecodableNext(d, l, k, n, labels, whose);
      ok, tag, row, next := DecodeChecked(mem, next, labels, whose, d, l + k, r);
      if !ok {
        return;
      }
      out := Append(out, row, tag, labels, d, l, k);
    }
  }

  /** The two decoders. */
  datatype Decoder = Minibatch | Object

  /** What a decoder asserts of a sample's label and number of values. */
  predicate Sane(tag: real, count: int, labels: bool, whose: Decoder) {
    match whose
    case Minibatch => 0 <= count < MAX_VALUES && (labels ==> Near(tag, 0.0) || Near(tag, 1.0))
    case Object => 0 <= count <= MAX_VALUES && (labels ==> IsLabel(tag))
  }

  /** The numbers: a minibatch's sample has fewer than a million values and a label within 1e-7 of 0 or 1; a
      whole object's sample may have a million values, and its label is 0 or 1. */
  lemma SaneIff(tag: real, count: int, labels: bool)
    ensures Sane(tag, count, labels, Minibatch) <==>
              0 <= count <= 999_999 && (labels ==> -0.0000001 < tag < 0.0000001 || 0.9999999 < tag < 1.0000001)
    ensures Sane(tag, count, labels, Object) <==> 0 <= count <= 1_000_000 && (labels ==> tag in {0.0, 1.0})
  {
  }

  ghost predicate Decodable(d: Dataset, i: nat, labels: bool, whose: Decoder)
    requires i < |d.rows| && (labels ==> |d.labels| == |d.rows|)
  {
    Sane(if labels then d.labels[i] else 0.0, |d.rows[i]|, labels, whose)
  }

  ghost predicate AllDecodable(d: Dataset, i: nat, n: nat, labels: bool, whose: Decoder)
    requires i + n <= |d.rows| && (labels ==> |d.labels| == |d.rows|)
  {
    forall k: nat | i <= k < i + n :: Decodable(d, k, labels, whose)
  }

  lemma AllDecodableNext(d: Dataset, i: nat, k: nat, n: nat, labels: bool, whose: Decoder)
    requires i + n <= |d.rows| && k < n && (labels ==> |d.labels| == |d.rows|)
    requires AllDecodable(d, i, k, labels, whose)
    ensures AllDecodable(d, i, k + 1, labels, whose) <==> Decodable(d, i + k, labels, whose)
    ensures !Decodable(d, i + k, labels, whose) ==> !AllDecodable(d, i, n, labels, whose)
  {
    hide Decodable;
  }

  /** The minibatch decoder asserts less than the walk before it. */
  lemma WalkedDecodes(d: Dataset, l: nat, m: nat, i: nat, n: nat, labels: bool)
    requires l <= i && i + n <= l + m <= |d.rows| && (labels ==> |d.labels| == |d.rows|)
    requires AllWalkable(d, l, m, labels)
    ensures AllDecodable(d, i, n, labels, Minibatch)
  {
    forall k: nat | i <= k < i + n ensures Decodable(d, k, labels, Minibatch) {
      assert Walkable(d, k, labels);
    }
  }

  method DecodeChecked(mem: seq<Word>, at: nat, labels: bool, whose: Decoder,
                       ghost d: Dataset, ghost i: nat, ghost r: nat)
    returns (ok: bool, tag: real, row: Row, next: nat)
    requires Representable(d) && i < r <= |d.rows| && (labels ==> |d.labels| == |d.rows|)
    requires PointsAt(mem, at, d, i, r, labels)
    ensures ok <==> Decodable(d, i, labels, whose)
    ensures ok ==> (labels ==> tag == d.labels[i]) && row == d.rows[i] && PointsAt(mem, next, d, i + 1, r, labels)
  {
    hide EntryWords, SampleWords, SamplesWords, Near, IsLabel;
    var count;
    tag, count, next := LoadHeader(mem, at, labels, d, i, r);
    if !Sane(tag, count, labels, whose) {
      return false, tag, [], next;
    }
    row, next := LoadEntries(mem, next, count, d.rows[i], SamplesWords(d, i + 1, r, labels));
    ok := true;
  }

  /** The samples that whole minibatches cover. */
  ghost function Whole(n: nat, rows: nat): (w: nat)
    requires rows > 0
    ensures w <= n
  {
    TimesIsProduct(n / rows, rows);
    Divided(n, rows);
    Times(n / rows, rows)
  }

  lemma WholeIff(n: nat, rows: nat)
    requires rows > 0
    ensures Whole(n, rows) == n <==> n % rows == 0
  {
    TimesIsProduct(n / rows, rows);
    assert n == n / rows * rows + n % rows;
    hide Times;
  }

  /** Minibatch i of n samples, if they hold it. */
  lemma Cuts(n: nat, rows: nat, i: nat)
    requires rows > 0 && Times(i + 1, rows) <= n
    ensures var all := n / rows;
      && i < all && Times(all, rows) == Whole(n, rows) <= n
      && Times(i, rows) + rows == Times(i + 1, rows) <= Times(all, rows)
      && (Whole(n, rows) == n <==> n % rows == 0)
  {
    var all := n / rows;
    TimesIsProduct(all, rows);
    Divided(n, rows);
    WholeIff(n, rows);
    TimesNext(i, rows);
    if i >= all {
      TimesMonotone(all + 1, i + 1, rows);
      assert false;
    }
    TimesMonotone(i + 1, all, rows);
    hide Times;
  }

  /** The two sides together: an object the encoder writes for samples l up to r, walked into
      minibatches and each minibatch decoded at its pointer, gives back the samples in order, and the
      walk ends at the end of the object exactly if minibatches fill it. */
  method RoundTrip(d: Dataset, l: nat, r: nat, labels: bool, rows: nat, i: nat)
    returns (ok: bool, out: Dataset, mem: seq<Word>, end: nat)
    requires Representable(d) && l < r <= |d.rows| && (labels ==> |d.labels| == |d.rows|)
    requires rows > 0 && Times(i + 1, rows) <= r - l
    ensures ok <==> AllWalkable(d, l, Whole(r - l, rows), labels)
    ensures ok ==> Holds(out, d, l + Times(i, rows), rows, labels)
    ensures ok ==> (end == |mem| <==> (r - l) % rows == 0)
  {
    hide *;
    var size;
    mem, size := Build(d, l, r, labels);
    BehindHeader(mem, size, d, l, r, labels);
    var minibatches := (r - l) / rows;
    Cuts(r - l, rows, i);
    var pointers;
    ok, pointers, end := Walk(mem, 2, minibatches, rows, labels, d, l, r);
    out := Dataset([], []);
    if ok {
      NothingLeftIff(mem, end, d, l + Times(minibatches, rows), r, labels);
      WalkedDecodes(d, l, Times(minibatches, rows), l + Times(i, rows), rows, labels);
      CutAt(mem, pointers, d, l, rows, r, labels, i);
      var decoded, next;
      decoded, out, next := DecodeMinibatch(mem, pointers[i], rows, labels, d, l + Times(i, rows), r);
    }
  }

  lemma BehindHeader(mem: seq<Word>, size: nat, d: Dataset, l: nat, r: nat, labels: bool)
    requires l <= r <= |d.rows|
    requires mem == [StoreInt(size), StoreInt(r - l)] + SamplesWords(d, l, r, labels)
    ensures PointsAt(mem, 2, d, l, r, labels)
  {
    Past(mem, 0, [StoreInt(size), StoreInt(r - l)], SamplesWords(d, l, r, labels));
  }

  lemma CutAt(mem: seq<Word>, pointers: seq<nat>, d: Dataset, l: nat, rows: nat, r: nat, labels: bool, i: nat)
    requires i < |pointers| && Cut(mem, pointers, d, l, rows, r, labels)
    ensures PointsAt(mem, pointers[i], d, l + Times(i, rows), r, labels)
  {
    hide PointsAt, Times;
  }
}
