/** The libsvm parser on a chunk cut out of printed text at any byte.  The text is an array whose last
    cell is the terminator of the C string; numbers are read by overwriting the character behind them
    and restoring it. */
module LibsvmParsers {
  import opened LibsvmText
  import opened Multiples
  import opened SparseDatasets

  predicate InNumber(c: char, dots: bool) {
    IsDigit(c) || (dots && c == '.')
  }

  ghost predicate Terminated(t: string) {
    |t| > 0 && t[|t| - 1] == NUL
  }

  /** What is left of the text is what is expected, cut somewhere. */
  ghost predicate At(t: string, index: nat, expected: string) {
    && Terminated(t) && index < |t| && |t| - 1 - index <= |expected|
    && forall i | index <= i < |t| - 1 :: t[i] == expected[i - index]
  }

  lemma Advance(t: string, index: nat, a: string, rest: string)
    requires At(t, index, a + rest) && index + |a| < |t|
    ensures At(t, index + |a|, rest) && t[index..index + |a|] == a
  {
    forall i | index + |a| <= i < |t| - 1 ensures t[i] == rest[i - (index + |a|)] {
      assert t[i] == (a + rest)[i - index];
    }
  }

  /** The string that sscanf sees. */
  function CString(t: string, index: nat): string
    requires index <= |t|
    decreases |t| - index
  {
    if index == |t| || t[index] == NUL then [] else [t[index]] + CString(t, index + 1)
  }

  lemma {:induction false} CStringIs(t: string, index: nat, next: nat)
    requires index <= next < |t| && t[next] == NUL
    requires forall i | index <= i < next :: t[i] != NUL
    ensures CString(t, index) == t[index..next]
    decreases next - index
  {
    if index < next {
      CStringIs(t, index + 1, next);
    }
  }

  method IgnoreSpaces(index: nat, text: array<char>) returns (digit: bool, next: nat)
    requires Terminated(text[..]) && index < text.Length
    ensures index <= next < text.Length && digit == IsDigit(text[next])
    ensures forall i | index <= i < next :: IsSpace(text[i])
    ensures !IsSpace(text[next])
  {
    next := index;
    while IsSpace(text[next])
      invariant index <= next < text.Length
      invariant forall i | index <= i < next :: IsSpace(text[i])
      decreases text.Length - next
    {
      next := next + 1;
    }
    digit := IsDigit(text[next]);
  }

  method IgnoreSpacesNotNewline(index: nat, text: array<char>) returns (digit: bool, next: nat)
    requires Terminated(text[..]) && index < text.Length
    ensures index <= next < text.Length && digit == IsDigit(text[next])
    ensures forall i | index <= i < next :: IsSpace(text[i]) && text[i] != '\n'
    ensures text[next] == '\n' || !IsSpace(text[next])
  {
    next := index;
    while text[next] != '\n' && IsSpace(text[next])
      invariant index <= next < text.Length
      invariant forall i | index <= i < next :: IsSpace(text[i]) && text[i] != '\n'
      decreases text.Length - next
    {
      next := next + 1;
    }
    digit := IsDigit(text[next]);
  }

  /** readNum up to the conversion: the maximal run of number characters, as sscanf is given it. */
  method ReadNum(index: nat, text: array<char>, dots: bool) returns (ok: bool, token: string, next: nat)
    requires Terminated(text[..]) && index < text.Length
    modifies text
    ensures text[..] == old(text[..])
    ensures ok == IsDigit(text[index])
    ensures ok ==> index < next < text.Length && token == text[index..next] && !InNumber(text[next], dots)
    ensures ok ==> forall i | index <= i < next :: InNumber(text[i], dots)
  {
    ok, token, next := IsDigit(text[index]), [], index;
    if !ok {
      return;
    }
    while InNumber(text[next], dots)
      invariant index <= next < text.Length
      invariant forall i | index <= i < next :: InNumber(text[i], dots)
      decreases text.Length - next
    {
      next := next + 1;
    }
    var c := text[next];
    text[next] := NUL;
    CStringIs(text[..], index, next);
    token := CString(text[..], index);
    text[next] := c;
    assert text[..] == old(text[..]);
  }

  /** A run of number characters ends with the expected number, or with the text. */
  lemma RunStops(t: string, index: nat, next: nat, number: string, rest: string, dots: bool)
    requires At(t, index, number + rest) && index <= next < |t|
    requires forall i | 0 <= i < |number| :: InNumber(number[i], dots)
    requires rest == [] || !InNumber(rest[0], dots)
    requires forall i | index <= i < next :: InNumber(t[i], dots)
    requires !InNumber(t[next], dots)
    ensures next == if index + |number| < |t| then index + |number| else |t| - 1
    ensures index + |number| < |t| ==> t[index..next] == number && At(t, next, rest)
  {
    var stop := if index + |number| < |t| then index + |number| else |t| - 1;
    forall i | index <= i < stop ensures InNumber(t[i], dots) {
      assert t[i] == (number + rest)[i - index];
    }
    assert !InNumber(t[stop], dots) by {
      if stop < |t| - 1 {
        assert t[stop] == (number + rest)[|number|];
      }
    }
    if index + |number| < |t| {
      Advance(t, index, number, rest);
    }
  }

  /** readNum<int> and readNum<uint64_t> where the number n is expected, perhaps cut. */
  method ReadNat(index: nat, text: array<char>, ghost n: nat, ghost rest: string)
    returns (ok: bool, value: int, next: nat)
    requires At(text[..], index, Digits(n) + rest) && (rest == [] || !IsDigit(rest[0]))
    modifies text
    ensures text[..] == old(text[..])
    ensures ok <==> index < text.Length - 1
    ensures ok ==> index < next < text.Length && InNumber(text[next - 1], false)
    ensures ok ==> next == if index + |Digits(n)| < text.Length then index + |Digits(n)| else text.Length - 1
    ensures ok && index + |Digits(n)| < text.Length ==> value == n && At(text[..], next, rest)
  {
    hide Digits;
    DigitsRead(n);
    var token;
    assert index < text.Length - 1 ==> text[index] == (Digits(n) + rest)[0];
    ok, token, next := ReadNum(index, text, false);
    value := 0;
    if ok {
      RunStops(text[..], index, next, Digits(n), rest, false);
      value := ScanNat(token);
      ScanDigits(n);
    }
  }

  lemma DecimalIsNumber(d: Decimal)
    requires AllDigits(d.fraction)
    ensures forall i | 0 <= i < |DecimalText(d)| :: InNumber(DecimalText(d)[i], true)
    ensures IsDigit(DecimalText(d)[0])
  {
    DigitsRead(d.whole);
  }

  /** readNum<FEATURE_TYPE> where the value d is expected, perhaps cut. */
  method ReadReal(index: nat, text: array<char>, ghost d: Decimal, ghost rest: string)
    returns (ok: bool, value: real, next: nat)
    requires AllDigits(d.fraction)
    requires At(text[..], index, DecimalText(d) + rest) && (rest == [] || !InNumber(rest[0], true))
    modifies text
    ensures text[..] == old(text[..])
    ensures ok <==> index < text.Length - 1
    ensures ok ==> next == if index + |DecimalText(d)| < text.Length then index + |DecimalText(d)| else text.Length - 1
    ensures ok ==> InNumber(text[next - 1], true)
    ensures ok && index + |DecimalText(d)| < text.Length ==> value == ValueOf(d) && At(text[..], next, rest)
  {
    DecimalIsNumber(d);
    hide DecimalText;
    var token;
    assert index < text.Length - 1 ==> text[index] == (DecimalText(d) + rest)[0];
    ok, token, next := ReadNum(index, text, true);
    value := 0.0;
    if ok {
      RunStops(text[..], index, next, DecimalText(d), rest, true);
      value := ScanReal(token);
      ScanDecimal(d);
    }
  }

  datatype Status = Pair(key: int, value: real) | EndOfLine | Cut | Error

  /** Where the text ends inside feature f, and what the parser makes of it. */
  ghost predicate CutInside(t: string, status: Status, next: nat) {
    && |t| >= 2
    && (status.Error? <==> t[|t| - 2] == ':')
    && (status.Pair? ==> next == |t| - 1)
    && !status.EndOfLine?
  }

  lemma RestStarts(features: seq<(nat, Decimal)>, j: nat, tail: string)
    requires j <= |features|
    ensures var rest := RestOfLine(features, j, tail);
      |rest| > 0 && rest[0] == (if j == |features| then '\n' else ' ')
  {
    if j < |features| {
      NextFeature(features, j, tail);
    }
  }

  /** The parts of a feature's text, with what follows. */
  lemma FeatureParts(f: (nat, Decimal), rest: string)
    ensures FeatureText(f) + rest == " " + (Digits(f.0) + (":" + (DecimalText(f.1) + rest)))
    ensures |FeatureText(f)| == 2 + |Digits(f.0)| + |DecimalText(f.1)|
    ensures IsDigit(Digits(f.0)[0])
  {
    DigitsRead(f.0);
    hide Digits, DecimalText;
    var a, b := Digits(f.0), DecimalText(f.1);
    assert (((" " + a) + ":") + b) + rest == " " + (a + (":" + (b + rest)));
  }

  /** The value of a pair, behind its colon. */
  method ReadValue(index: nat, text: array<char>, key: int, ghost f: (nat, Decimal), ghost rest: string)
    returns (status: Status, next: nat)
    requires AllDigits(f.1.fraction) && 0 < index < text.Length && text[index - 1] == ':'
    requires At(text[..], index, DecimalText(f.1) + rest) && (rest == [] || !InNumber(rest[0], true))
    modifies text
    ensures text[..] == old(text[..])
    ensures index + |DecimalText(f.1)| >= text.Length ==> CutInside(text[..], status, next)
    ensures index + |DecimalText(f.1)| < text.Length ==>
              && status == Pair(key, ValueOf(f.1)) && next == index + |DecimalText(f.1)|
              && At(text[..], next, rest) && text[next - 1] != ':'
  {
    hide DecimalText, AllDigits, ValueOf;
    var ok, value;
    ok, value, next := ReadReal(index, text, f.1, rest);
    status := if ok then Pair(key, value) else Error;
    assert text[..][text.Length - 2] == text[text.Length - 2];
  }

  /** One turn of the loop that reads the pairs of a line, with feature j of the line expected next. */
  method ReadFeature(index: nat, text: array<char>, ghost features: seq<(nat, Decimal)>, ghost j: nat,
                     ghost tail: string)
    returns (status: Status, next: nat)
    requires j <= |features| && (j < |features| ==> AllDigits(features[j].1.fraction))
    requires Terminated(text[..]) && index < text.Length
    requires index < text.Length - 1 ==> At(text[..], index, RestOfLine(features, j, tail))
    modifies text
    ensures text[..] == old(text[..])
    ensures index == text.Length - 1 ==> status.Cut?
    ensures index < text.Length - 1 && j == |features| ==> status.EndOfLine? && next == index
    ensures index < text.Length - 1 && j < |features| ==>
              if index + |FeatureText(features[j])| >= text.Length then CutInside(text[..], status, next) else
                && status == Pair(features[j].0, ValueOf(features[j].1)) && next == index + |FeatureText(features[j])|
                && At(text[..], next, RestOfLine(features, j + 1, tail)) && text[next - 1] != ':'
  {
    hide FeatureText, RestOfLine, Digits, DecimalText, AllDigits, ValueOf, FeaturesText;
    RestStarts(features, j, tail);
    var digit, at := IgnoreSpacesNotNewline(index, text);
    assert text[text.Length - 1] == NUL && (text.Length >= 2 ==> text[..][text.Length - 2] == text[text.Length - 2]);
    assert index < text.Length - 1 ==> text[index] == RestOfLine(features, j, tail)[0];
    if index == text.Length - 1 || j == |features| {
      assert at == index;
    } else {
      SpaceThenDigit(text[..], index, at, features, j, tail);
    }
    if !digit {
      return if text[at] == '\n' then EndOfLine else if text[at] == NUL then Cut else Error, at;
    }
    ghost var f, rest := features[j], RestOfLine(features, j + 1, tail);
    RestStarts(features, j + 1, tail);
    FeatureParts(f, rest);
    var ok, key;
    ok, key, next := ReadNat(at, text, f.0, ":" + (DecimalText(f.1) + rest));
    assert next < text.Length - 1 ==> text[next] == ':';
    if text[next] != ':' {
      return Cut, next;
    }
    Advance(text[..], next, ":", DecimalText(f.1) + rest);
    status, next := ReadValue(next + 1, text, key, f, rest);
  }

  /** A feature starts with one space and a digit. */
  lemma SpaceThenDigit(t: string, index: nat, at: nat, features: seq<(nat, Decimal)>, j: nat, tail: string)
    requires j < |features| && index < |t| - 1 && At(t, index, RestOfLine(features, j, tail))
    requires index <= at < |t| && (t[at] == '\n' || !IsSpace(t[at]))
    requires forall i | index <= i < at :: IsSpace(t[i]) && t[i] != '\n'
    ensures at == index + 1 && t[index] == ' ' && |FeatureText(features[j])| > 1
    ensures at < |t| - 1 <==> IsDigit(t[at])
    ensures var f, rest := features[j], RestOfLine(features, j + 1, tail);
      At(t, at, Digits(f.0) + (":" + (DecimalText(f.1) + rest)))
  {
    var f, rest := features[j], RestOfLine(features, j + 1, tail);
    NextFeature(features, j, tail);
    FeatureParts(f, rest);
    hide *;
    var number := Digits(f.0) + (":" + (DecimalText(f.1) + rest));
    assert number[0] == Digits(f.0)[0];
    SpaceThenNumber(t, index, at, number);
  }

  lemma SpaceThenNumber(t: string, index: nat, at: nat, number: string)
    requires |number| > 0 && IsDigit(number[0])
    requires index < |t| - 1 && At(t, index, " " + number)
    requires index <= at < |t| && (t[at] == '\n' || !IsSpace(t[at]))
    requires forall i | index <= i < at :: IsSpace(t[i]) && t[i] != '\n'
    ensures at == index + 1 && t[index] == ' ' && At(t, at, number)
    ensures at < |t| - 1 <==> IsDigit(t[at])
  {
    Advance(t, index, " ", number);
    assert t[index] == (" " + number)[0];
    assert index + 1 < |t| - 1 ==> t[index + 1] == number[0];
  }

  datatype Outcome<T> = Full(value: T) | Partial | Throws

  /** The cursor stands at a line start, or at the newline that ends the line before. */
  ghost predicate Before(t: string, index: nat, sep: string, samples: seq<Sample>) {
    && At(t, index, sep + LinesText(samples))
    && (sep == [] || sep == "\n") && index + |sep| < |t|
    && 0 < index && t[index - 1] != ':'
  }

  /** How many characters are left behind the separator. */
  ghost function Left(t: string, index: nat, sep: string): nat {
    if index + |sep| < |t| then |t| - 1 - index - |sep| else 0
  }

  /** The pairs of one line.  `spent` tells that the text already ended inside the label. */
  method ReadFeatures(index: nat, text: array<char>, ghost features: seq<(nat, Decimal)>, ghost tail: string,
                      ghost spent: bool)
    returns (outcome: Outcome<Row>, next: nat)
    requires forall j | 0 <= j < |features| :: AllDigits(features[j].1.fraction)
    requires Terminated(text[..]) && 0 < index < text.Length && text[index - 1] != ':'
    requires if spent then index == text.Length - 1 else At(text[..], index, RestOfLine(features, 0, tail))
    modifies text
    ensures text[..] == old(text[..])
    ensures var end := index + |FeaturesText(features, 0)|;
      if !spent && end < text.Length - 1 then
        && outcome == Full(RowOf(features, |features|)) && next == end
        && At(text[..], next, "\n" + tail) && text[next - 1] != ':'
      else
        !outcome.Full? && (outcome.Throws? <==> text[text.Length - 2] == ':')
  {
    hide FeaturesText, RestOfLine, FeatureText, RowOf, ValueOf, DecimalText, Digits, AllDigits;
    var row: Row := [];
    next := index;
    ghost var j, doomed := 0, spent;
    while true
      invariant text[..] == old(text[..])
      invariant j <= |features| && 0 < next < text.Length && text[next - 1] != ':'
      invariant doomed ==> next == text.Length - 1 && (spent || index + |FeaturesText(features, 0)| >= text.Length - 1)
      invariant spent ==> doomed
      invariant !doomed ==> next + |FeaturesText(features, j)| == index + |FeaturesText(features, 0)|
      invariant !doomed ==> At(text[..], next, RestOfLine(features, j, tail)) && row == RowOf(features, j)
      decreases text.Length - next, !doomed
    {
      ghost var before := next;
      var status;
      LengthLeft(features, j);
      assert before == text.Length - 1 ==> text[text.Length - 2] != ':';
      status, next := ReadFeature(next, text, features, j, tail);
      assert text[..][text.Length - 2] == text[text.Length - 2];
      match status
      case EndOfLine =>
        RestOfNone(features, tail);
        return Full(row), next;
      case Cut =>
        return Partial, next;
      case Error =>
        return Throws, next;
      case Pair(key, value) =>
        row := row + [(key, value)];
        if before + |FeatureText(features[j])| < text.Length {
          RowNext(features, j);
          j := j + 1;
        } else {
          doomed := true;
        }
    }
  }

  lemma LengthLeft(features: seq<(nat, Decimal)>, j: nat)
    requires j <= |features|
    ensures j < |features| ==>
            |FeaturesText(features, j)| == |FeatureText(features[j])| + |FeaturesText(features, j + 1)|
    ensures j == |features| ==> FeaturesText(features, j) == []
    ensures j < |features| ==> |FeatureText(features[j])| > 0
  {
  }

  lemma RestOfNone(features: seq<(nat, Decimal)>, tail: string)
    ensures RestOfLine(features, |features|, tail) == "\n" + tail
  {
  }

  lemma RowNext(features: seq<(nat, Decimal)>, j: nat)
    requires j < |features|
    ensures RowOf(features, j + 1) == RowOf(features, j) + [(features[j].0, ValueOf(features[j].1))]
  {
  }

  /** One sample of a minibatch: its label and its pairs.  The cursor ends at the newline. */
  method ReadSample(index: nat, text: array<char>, ghost sep: string, ghost samples: seq<Sample>)
    returns (outcome: Outcome<(Row, real)>, next: nat)
    requires forall i | 0 <= i < |samples| :: Printable(samples[i])
    requires Before(text[..], index, sep, samples)
    modifies text
    ensures text[..] == old(text[..])
    ensures if samples != [] && |LineText(samples[0])| <= Left(text[..], index, sep) then
              var s := samples[0];
              && outcome == Full((RowOf(s.features, |s.features|), s.target as real))
              && Before(text[..], next, "\n", samples[1..])
              && Left(text[..], next, "\n") == Left(text[..], index, sep) - |LineText(s)|
            else
              !outcome.Full? && (outcome.Throws? <==> text[text.Length - 2] == ':')
  {
    assert samples != [] ==>
        forall j | 0 <= j < |samples[0].features| :: AllDigits(samples[0].features[j].1.fraction);
    hide LinesText, LineText, FeaturesText, RestOfLine, FeatureText, RowOf, DecimalText, Digits, Printable;
    outcome := Partial;
    var digit;
    assert text[..][text.Length - 2] == text[text.Length - 2];
    digit, next := IgnoreSpaces(index, text);
    SkipsSeparator(text[..], index, next, sep, samples);
    if !digit {
      return if text[next] == NUL then Partial else Throws, next;
    }
    ghost var s, tail := samples[0], LinesText(samples[1..]);
    SampleParts(samples);
    ghost var line := RestOfLine(s.features, 0, tail);
    RestStarts(s.features, 0, tail);
    var ok, target;
    ok, target, next := ReadNat(next, text, s.target, line);
    var features;
    features, next := ReadFeatures(next, text, s.features, tail, index + |sep| + |Digits(s.target)| >= text.Length);
    match features
    case Full(row) => outcome := Full((row, target as real));
    case Partial => outcome := Partial;
    case Throws => outcome := Throws;
  }

  lemma SkipsSeparator(t: string, index: nat, next: nat, sep: string, samples: seq<Sample>)
    requires Before(t, index, sep, samples)
    requires index <= next < |t| && !IsSpace(t[next])
    requires forall i | index <= i < next :: IsSpace(t[i])
    ensures next == index + |sep| && At(t, next, LinesText(samples)) && t[next - 1] != ':'
    ensures IsDigit(t[next]) <==> next < |t| - 1
    ensures next < |t| - 1 ==> samples != []
  {
    var at := index + |sep|;
    LineStarts(samples);
    assert LinesText([]) == [];
    hide LinesText, LineText;
    Advance(t, index, sep, LinesText(samples));
    assert t[at] == if at == |t| - 1 then NUL else LinesText(samples)[0];
    assert sep == "\n" ==> t[index] == t[index..at][0];
  }

  lemma LineStarts(samples: seq<Sample>)
    ensures samples != [] ==> LinesText(samples) != [] && IsDigit(LinesText(samples)[0])
  {
    if samples != [] {
      SampleParts(samples);
      DigitsRead(samples[0].target);
      hide LinesText, LineText, Digits, RestOfLine;
    }
  }

  lemma SampleParts(samples: seq<Sample>)
    requires samples != []
    ensures var s, tail := samples[0], LinesText(samples[1..]);
      && LinesText(samples) == Digits(s.target) + RestOfLine(s.features, 0, tail)
      && |LineText(s)| == |Digits(s.target)| + |FeaturesText(s.features, 0)| + 1
  {
    LineIs(samples[0], LinesText(samples[1..]));
    hide FeaturesText, Digits, RestOfLine;
  }

  /** buildDatasetLibsvm: a minibatch of exactly `rows` samples if that many lines are complete. */
  method BuildDataset(index: nat, text: array<char>, rows: nat, ghost sep: string, ghost samples: seq<Sample>)
    returns (outcome: Outcome<Dataset>, next: nat)
    requires forall i | 0 <= i < |samples| :: Printable(samples[i])
    requires rows > 0 && Before(text[..], index, sep, samples)
    modifies text
    ensures text[..] == old(text[..])
    ensures if rows <= CompleteLines(samples, Left(text[..], index, sep)) then
              && outcome.Full? && IsDatasetOf(outcome.value, samples[..rows])
              && Before(text[..], next, "\n", samples[rows..])
              && CompleteLines(samples[rows..], Left(text[..], next, "\n"))
                 == CompleteLines(samples, Left(text[..], index, sep)) - rows
            else
              !outcome.Full? && (outcome.Throws? <==> text[text.Length - 2] == ':')
  {
    hide LineText, LinesText, Before, Left, Printable, RowOf, CompleteLines;
    var data, labels := [], [];
    next := index;
    ghost var complete := CompleteLines(samples, Left(text[..], index, sep));
    ghost var now := sep;
    assert samples[0..] == samples;
    for sample := 0 to rows
      invariant text[..] == old(text[..])
      invariant sample <= complete <= |samples|
      invariant Before(text[..], next, now, samples[sample..])
      invariant CompleteLines(samples[sample..], Left(text[..], next, now)) == complete - sample
      invariant IsDatasetOf(Dataset(data, labels), samples[..sample])
      invariant sample > 0 ==> now == "\n"
    {
      ghost var rest := samples[sample..];
      ghost var left := Left(text[..], next, now);
      MoreLines(rest, left);
      var read;
      read, next := ReadSample(next, text, now, rest);
      match read
      case Full(pair) =>
        DatasetSnoc(Dataset(data, labels), samples[..sample], samples[sample], pair.0, pair.1);
        assert samples[..sample + 1] == samples[..sample] + [samples[sample]];
        assert rest[1..] == samples[sample + 1..];
        data, labels := data + [pair.0], labels + [pair.1];
        now := "\n";
      case Partial => return Partial, next;
      case Throws => return Throws, next;
    }
    outcome := Full(Dataset(data, labels));
  }

  lemma MoreLines(samples: seq<Sample>, n: nat)
    ensures CompleteLines(samples, n) > 0 <==> samples != [] && |LineText(samples[0])| <= n
    ensures CompleteLines(samples, n) > 0 ==>
              CompleteLines(samples, n) == 1 + CompleteLines(samples[1..], n - |LineText(samples[0])|)
  {
    hide LineText;
  }

  lemma DatasetSnoc(d: Dataset, samples: seq<Sample>, s: Sample, row: Row, target: real)
    requires IsDatasetOf(d, samples)
    requires row == RowOf(s.features, |s.features|) && target == s.target as real
    ensures IsDatasetOf(Dataset(d.rows + [row], d.labels + [target]), samples + [s])
  {
    hide RowOf;
  }

  /** readUntilNewline */
  method ReadUntilNewline(text: array<char>) returns (ok: bool, index: nat)
    requires Terminated(text[..])
    ensures ok <==> exists i :: 0 <= i < text.Length - 1 && text[i] == '\n'
    ensures ok ==> 0 < index < text.Length && text[index - 1] == '\n' && '\n' !in text[..index - 1]
  {
    index := 0;
    while index < text.Length - 1
      invariant index <= text.Length - 1
      invariant '\n' !in text[..index]
    {
      if text[index] == '\n' {
        return true, index + 1;
      }
      index := index + 1;
    }
    ok := false;
  }

  /** Minibatch g holds the samples of lines Times(g, rows) and on. */
  ghost predicate IsGrouped(result: seq<Dataset>, samples: seq<Sample>, rows: nat)
    requires Times(|result|, rows) <= |samples|
  {
    forall g | 0 <= g < |result| ::
      Times(g, rows) + rows <= |samples| && IsDatasetOf(result[g], samples[Times(g, rows)..Times(g, rows) + rows])
  }

  /** parseObjLibsvm on junk, a newline and the first n characters of the printed samples: the complete
      lines, in order, grouped into full minibatches; and a throw exactly when there is no character
      behind the newline or the cut falls right behind a colon. */
  method ParseObj(text: array<char>, rows: nat, ghost junk: string, ghost samples: seq<Sample>, ghost n: nat)
    returns (ok: bool, result: seq<Dataset>)
    requires rows > 0 && n <= |LinesText(samples)|
    requires forall i | 0 <= i < |samples| :: Printable(samples[i])
    requires '\n' !in junk && text[..] == junk + "\n" + LinesText(samples)[..n] + [NUL]
    modifies text
    ensures text[..] == old(text[..])
    ensures ok <==> n > 0 && LinesText(samples)[n - 1] != ':'
    ensures ok ==>
      && Times(|result|, rows) <= CompleteLines(samples, n) < Times(|result| + 1, rows)
      && IsGrouped(result, samples, rows)
  {
    hide LinesText, LineText, CompleteLines, IsDatasetOf, Printable, Times;
    TimesNext(0, rows);
    result := [];
    var index: nat;
    ok, index := ReadUntilNewline(text);
    FirstLineFound(text[..], junk, LinesText(samples)[..n], index, ok);
    if index >= text.Length - 1 {
      return false, [];
    }
    AtTheStart(text[..], junk, samples, n);
    ghost var sep, k, complete := "", 0, CompleteLines(samples, n);
    assert samples[0..] == samples;
    while true
      invariant text[..] == old(text[..])
      invariant k == Times(|result|, rows) && k <= complete <= |samples|
      invariant Before(text[..], index, sep, samples[k..])
      invariant CompleteLines(samples[k..], Left(text[..], index, sep)) == complete - k
      invariant IsGrouped(result, samples, rows)
      decreases |samples| - k
    {
      hide Before, Left, IsGrouped;
      var minibatch;
      minibatch, index := BuildDataset(index, text, rows, sep, samples[k..]);
      TimesNext(|result|, rows);
      match minibatch
      case Full(d) =>
        assert samples[k..][..rows] == samples[k..k + rows];
        assert samples[k..][rows..] == samples[k + rows..];
        GroupedNext(result, samples, rows, d);
        result, k, sep := result + [d], k + rows, "\n";
      case Partial => return true, result;
      case Throws => return false, result;
    }
  }

  lemma GroupedNext(result: seq<Dataset>, samples: seq<Sample>, rows: nat, d: Dataset)
    requires Times(|result|, rows) + rows <= |samples| && Times(|result| + 1, rows) == Times(|result|, rows) + rows
    requires IsGrouped(result, samples, rows)
    requires IsDatasetOf(d, samples[Times(|result|, rows)..Times(|result|, rows) + rows])
    ensures IsGrouped(result + [d], samples, rows)
  {
    hide IsDatasetOf, Times;
  }

  lemma FirstLineFound(t: string, junk: string, rest: string, index: nat, ok: bool)
    requires '\n' !in junk && t == junk + "\n" + rest + [NUL]
    requires ok <==> exists i :: 0 <= i < |t| - 1 && t[i] == '\n'
    requires ok ==> 0 < index < |t| && t[index - 1] == '\n' && '\n' !in t[..index - 1]
    ensures ok && index == |junk| + 1 && |t| == |junk| + |rest| + 2
  {
    assert t[|junk|] == '\n';
    forall i | 0 <= i < |junk| ensures t[i] != '\n' {
      assert t[i] == junk[i] && junk[i] in junk;
    }
    forall i | 0 <= i < index - 1 ensures t[i] != '\n' {
      assert t[..index - 1][i] in t[..index - 1];
    }
  }

  lemma AtTheStart(t: string, junk: string, samples: seq<Sample>, n: nat)
    requires 0 < n <= |LinesText(samples)|
    requires t == junk + "\n" + LinesText(samples)[..n] + [NUL]
    ensures Before(t, |junk| + 1, "", samples) && Left(t, |junk| + 1, "") == n
    ensures t[|t| - 2] == LinesText(samples)[n - 1]
  {
    hide LinesText;
    var lines := LinesText(samples);
    assert "" + lines == lines;
    assert |t| == |junk| + n + 2;
    forall i | |junk| + 1 <= i < |t| - 1 ensures t[i] == lines[i - (|junk| + 1)] {
      assert t[i] == lines[..n][i - (|junk| + 1)];
    }
    assert t[|junk|] == '\n';
  }
}
