/** What the libsvm printer writes, and what the C library reads back from runs of characters. */
module LibsvmText {
  import opened SparseDatasets
  import opened Words

  const NUL := '\0'

  predicate IsDigit(c: char) {
    '0' <= c <= '9'
  }

  /** isspace in the C locale */
  predicate IsSpace(c: char) {
    c == ' ' || c == '\t' || c == '\n' || c == '\U{000B}' || c == '\U{000C}' || c == '\r'
  }

  ghost predicate AllDigits(s: string) {
    forall i | 0 <= i < |s| :: IsDigit(s[i])
  }

  function DigitOf(c: char): int {
    c as int - '0' as int
  }

  function DigitChar(d: nat): char
    requires d < 10
  {
    (d + '0' as int) as char
  }

  /** A non-negative number as the stream operator prints it. */
  function Digits(n: nat): (s: string)
    ensures |s| > 0
  {
    if n < 10 then [DigitChar(n)] else Digits(n / 10) + [DigitChar(n % 10)]
  }

  function NatValue(s: string): int {
    if s == [] then 0 else 10 * NatValue(s[..|s| - 1]) + DigitOf(s[|s| - 1])
  }

  lemma {:induction false} DigitsRead(n: nat)
    ensures AllDigits(Digits(n)) && NatValue(Digits(n)) == n
  {
    if n >= 10 {
      DigitsRead(n / 10);
      assert Digits(n)[..|Digits(n)| - 1] == Digits(n / 10);
    }
  }

  /** A non-negative feature value in fixed notation: whole part, and the digits after the point if any. */
  datatype Decimal = Decimal(whole: nat, fraction: string)

  function FractionValue(s: string): real {
    if s == [] then 0.0 else (DigitOf(s[0]) as real + FractionValue(s[1..])) / 10.0
  }

  function ValueOf(d: Decimal): real {
    d.whole as real + FractionValue(d.fraction)
  }

  function DecimalText(d: Decimal): (s: string)
    ensures |s| > 0
  {
    Digits(d.whole) + if d.fraction == [] then [] else "." + d.fraction
  }

  /** How many digits a string starts with. */
  function DigitRun(s: string): (n: nat)
    ensures n <= |s| && AllDigits(s[..n]) && (n < |s| ==> !IsDigit(s[n]))
  {
    if s == [] || !IsDigit(s[0]) then 0 else
      var n := 1 + DigitRun(s[1..]);
      assert forall i | 0 < i < n :: s[i] == s[1..][i - 1];
      n
  }

  /** sscanf "%d" and "%lu" on a string that starts with a digit */
  function ScanNat(s: string): int {
    NatValue(s[..DigitRun(s)])
  }

  /** sscanf "%f" on a string of digits and points that starts with a digit */
  function ScanReal(s: string): real {
    var n := DigitRun(s);
    var rest := if n < |s| then s[n + 1..] else [];
    NatValue(s[..n]) as real + FractionValue(rest[..DigitRun(rest)])
  }

  lemma {:induction false} RunIsAll(s: string, tail: string)
    requires AllDigits(s) && (tail == [] || !IsDigit(tail[0]))
    ensures DigitRun(s + tail) == |s|
  {
    if s == [] {
      assert s + tail == tail;
    } else {
      assert (s + tail)[1..] == s[1..] + tail;
      RunIsAll(s[1..], tail);
    }
  }

  lemma ScanDigits(n: nat)
    ensures ScanNat(Digits(n)) == n
  {
    DigitsRead(n);
    RunIsAll(Digits(n), []);
    assert Digits(n) + [] == Digits(n);
    assert Digits(n)[..|Digits(n)|] == Digits(n);
  }

  lemma ScanDecimal(d: Decimal)
    requires AllDigits(d.fraction)
    ensures ScanReal(DecimalText(d)) == ValueOf(d)
  {
    DigitsRead(d.whole);
    var s, whole := DecimalText(d), Digits(d.whole);
    RunIsAll(whole, s[|whole|..]);
    assert s == whole + s[|whole|..];
    assert s[..|whole|] == whole;
    if d.fraction != [] {
      assert s[|whole| + 1..] == d.fraction;
      RunIsAll(d.fraction, []);
      assert d.fraction + [] == d.fraction;
      assert d.fraction[..|d.fraction|] == d.fraction;
    }
  }

  function Power10(n: nat): nat {
    if n == 0 then 1 else 10 * Power10(n - 1)
  }

  /** A number's first digit counts as many powers of ten as there are digits behind it. */
  lemma {:induction false} FirstDigit(s: string)
    requires s != []
    ensures NatValue(s) == DigitOf(s[0]) * Power10(|s[1..]|) + NatValue(s[1..])
  {
    var n := |s| - 1;
    if n > 0 {
      var front := s[..n];
      FirstDigit(front);
      assert front[1..] == s[1..][..n - 1] && s[1..][n - 1] == s[n];
      assert NatValue(s[1..]) == 10 * NatValue(front[1..]) + DigitOf(s[n]);
      TenTimes(DigitOf(s[0]), Power10(n - 1));
      hide DigitOf;
    }
  }

  lemma TenTimes(d: int, p: nat)
    ensures 10 * (d * p) == d * (10 * p)
  {
  }

  lemma {:induction false} Appended(a: string, b: string)
    ensures NatValue(a + b) == NatValue(a) * Power10(|b|) + NatValue(b)
  {
    if b == [] {
      assert a + b == a;
      hide NatValue;
    } else {
      var n := |b| - 1;
      assert NatValue(b) == 10 * NatValue(b[..n]) + DigitOf(b[n]) && Power10(|b|) == 10 * Power10(n);
      assert (a + b)[..|a + b| - 1] == a + b[..n];
      assert NatValue(a + b) == 10 * NatValue(a + b[..n]) + DigitOf(b[n]);
      hide *;
      Appended(a, b[..n]);
      TenTimes(NatValue(a), Power10(n));
    }
  }

  /** f is n decimal places below v. */
  ghost predicate IsBelow(f: real, n: nat, v: int) {
    f * Power10(n) as real == v as real
  }

  lemma NextPlace(digit: int, f: real, n: nat, v: int)
    requires IsBelow(f, n, v)
    ensures IsBelow((digit as real + f) / 10.0, n + 1, digit * Power10(n) + v)
  {
    var d, p := digit as real, Power10(n) as real;
    assert Power10(n + 1) == 10 * Power10(n);
    assert (digit * Power10(n)) as real == d * p;
    assert (d + f) / 10.0 * (10.0 * p) == d * p + f * p;
  }

  /** The digits behind a point are worth the number they spell, as many places down as there are digits. */
  lemma {:induction false} FractionIs(s: string)
    ensures IsBelow(FractionValue(s), |s|, NatValue(s))
  {
    if s != [] {
      assert FractionValue(s) == (DigitOf(s[0]) as real + FractionValue(s[1..])) / 10.0;
      hide *;
      FractionIs(s[1..]);
      FirstDigit(s);
      NextPlace(DigitOf(s[0]), FractionValue(s[1..]), |s[1..]|, NatValue(s[1..]));
    }
  }

  /** They are worth less than one. */
  lemma {:induction false} FractionIsSmall(s: string)
    requires AllDigits(s)
    ensures 0.0 <= FractionValue(s) < 1.0
  {
    if s != [] {
      FractionIsSmall(s[1..]);
    }
  }

  /** A value is the number that its digits spell without the point, as many places down as stand
      behind the point. */
  lemma ValueIs(d: Decimal)
    ensures IsBelow(ValueOf(d), |d.fraction|, NatValue(Digits(d.whole) + d.fraction))
  {
    hide Digits, NatValue, FractionValue, Power10;
    DigitsRead(d.whole);
    Appended(Digits(d.whole), d.fraction);
    FractionIs(d.fraction);
    var w, p, f := d.whole as real, Power10(|d.fraction|), FractionValue(d.fraction);
    assert (d.whole * p) as real == w * p as real;
    assert (w + f) * p as real == w * p as real + f * p as real;
  }

  /** The line of the sample with label 1 and the value 12.05 at index 3. */
  lemma LineOfOne()
    ensures LineText(Sample(1, [(3, Decimal(12, "05"))])) == "1 3:12.05\n"
  {
    var d := Decimal(12, "05");
    assert Digits(12) == "12" && Digits(1) == "1" && Digits(3) == "3";
    assert DecimalText(d) == "12.05";
    hide Digits, DecimalText;
    var features := [(3, d)];
    assert FeaturesText(features, 0) == " 3:12.05" + FeaturesText(features, 1);
  }

  /** And what its value is read as. */
  lemma ValueOfOne()
    ensures ScanReal("12.05") == 12.05
  {
    var d := Decimal(12, "05");
    assert Digits(12) == "12";
    assert DecimalText(d) == "12.05";
    assert d.fraction[1..] == "5" && "5"[1..] == "";
    assert FractionValue("5") == 0.5 && FractionValue("05") == 0.05;
    hide DecimalText, FractionValue;
    ScanDecimal(d);
  }

  datatype Sample = Sample(target: nat, features: seq<(nat, Decimal)>)

  /** Features j and on of a line, each after a space. */
  ghost function FeaturesText(features: seq<(nat, Decimal)>, j: nat): string
    requires j <= |features|
    decreases |features| - j
  {
    if j == |features| then [] else
      " " + Digits(features[j].0) + ":" + DecimalText(features[j].1) + FeaturesText(features, j + 1)
  }

  ghost function LineText(s: Sample): (t: string)
    ensures |t| > 0
  {
    Digits(s.target) + FeaturesText(s.features, 0) + "\n"
  }

  ghost function LinesText(samples: seq<Sample>): string {
    if samples == [] then [] else LineText(samples[0]) + LinesText(samples[1..])
  }

  ghost function FeatureText(f: (nat, Decimal)): string {
    " " + Digits(f.0) + ":" + DecimalText(f.1)
  }

  /** What is left of a line from feature j on, and what follows it. */
  ghost function RestOfLine(features: seq<(nat, Decimal)>, j: nat, tail: string): string
    requires j <= |features|
  {
    FeaturesText(features, j) + ("\n" + tail)
  }

  lemma NextFeature(features: seq<(nat, Decimal)>, j: nat, tail: string)
    requires j < |features|
    ensures RestOfLine(features, j, tail) == FeatureText(features[j]) + RestOfLine(features, j + 1, tail)
  {
    hide DecimalText, Digits;
    var rest := FeaturesText(features, j + 1);
    assert FeaturesText(features, j) == FeatureText(features[j]) + rest;
    assert (FeatureText(features[j]) + rest) + ("\n" + tail) == FeatureText(features[j]) + (rest + ("\n" + tail));
  }

  lemma LineIs(s: Sample, tail: string)
    ensures LineText(s) + tail == Digits(s.target) + RestOfLine(s.features, 0, tail)
  {
    hide Digits;
    var features := FeaturesText(s.features, 0);
    hide FeaturesText;
    assert Digits(s.target) + features + "\n" + tail == Digits(s.target) + (features + ("\n" + tail));
  }

  lemma FeatureIs(f: (nat, Decimal))
    ensures FeatureText(f) == " " + Digits(f.0) + ":" + DecimalText(f.1)
  {
  }

  lemma Reassociate(a: string, b: string, c: string)
    ensures (a + b) + c == a + (b + c)
  {
  }

  /** The printing loop of CriteoCsvToLibSVM, line by line. */
  method PrintLine(before: string, s: Sample) returns (out: string)
    ensures out == before + LineText(s)
  {
    out := before + Digits(s.target);
    LineIs(s, []);
    assert LineText(s) + [] == LineText(s);
    assert RestOfLine(s.features, |s.features|, []) == "\n";
    hide *;
    Reassociate(before, Digits(s.target), RestOfLine(s.features, 0, []));
    for j := 0 to |s.features|
      invariant out + RestOfLine(s.features, j, []) == before + LineText(s)
    {
      NextFeature(s.features, j, []);
      Reassociate(out, FeatureText(s.features[j]), RestOfLine(s.features, j + 1, []));
      FeatureIs(s.features[j]);
      out := out + (" " + Digits(s.features[j].0) + ":" + DecimalText(s.features[j].1));
    }
    out := out + "\n";
  }

  lemma NextLine(samples: seq<Sample>, i: nat)
    requires i < |samples|
    ensures LinesText(samples[i..]) == LineText(samples[i]) + LinesText(samples[i + 1..])
  {
    hide LineText;
    assert samples[i..][1..] == samples[i + 1..];
  }

  /** Printing line i takes the text from lines 0..i to lines 0..i+1. */
  lemma Printed(samples: seq<Sample>, i: nat, out: string)
    requires i < |samples| && out + LinesText(samples[i..]) == LinesText(samples)
    ensures (out + LineText(samples[i])) + LinesText(samples[i + 1..]) == LinesText(samples)
  {
    NextLine(samples, i);
    hide *;
    Reassociate(out, LineText(samples[i]), LinesText(samples[i + 1..]));
  }

  method Print(samples: seq<Sample>) returns (out: string)
    ensures out == LinesText(samples)
  {
    out := [];
    assert samples[0..] == samples && samples[|samples|..] == [] && LinesText([]) == [];
    hide *;
    for i := 0 to |samples|
      invariant out + LinesText(samples[i..]) == LinesText(samples)
    {
      Printed(samples, i, out);
      out := PrintLine(out, samples[i]);
    }
  }

  /** Labels and indices are ints, values have digits behind the point and no exponent. */
  ghost predicate Printable(s: Sample) {
    && s.target < TWO_31
    && forall j | 0 <= j < |s.features| :: s.features[j].0 < TWO_31 && AllDigits(s.features[j].1.fraction)
  }

  /** The values of a sample's features. */
  ghost function RowOf(features: seq<(nat, Decimal)>, n: nat): (r: Row)
    requires n <= |features|
    ensures |r| == n && forall j | 0 <= j < n :: r[j] == (features[j].0, ValueOf(features[j].1))
  {
    if n == 0 then [] else RowOf(features, n - 1) + [(features[n - 1].0, ValueOf(features[n - 1].1))]
  }

  ghost predicate IsDatasetOf(d: Dataset, samples: seq<Sample>) {
    && |d.rows| == |d.labels| == |samples|
    && forall i | 0 <= i < |samples| ::
         d.rows[i] == RowOf(samples[i].features, |samples[i].features|) && d.labels[i] == samples[i].target as real
  }

  /** How many lines of the text are complete in its first n characters. */
  ghost function CompleteLines(samples: seq<Sample>, n: nat): (c: nat)
    ensures c <= |samples|
  {
    if samples == [] || |LineText(samples[0])| > n then 0 else
      1 + CompleteLines(samples[1..], n - |LineText(samples[0])|)
  }
}
