/**
  Two messages worked through the extractor by proof: one that yields an age and a
  weight, and a feet-and-inches height whose capture stops at the feet,
  because a bare apostrophe is itself a height unit. Each message is written
  as a concatenation of short pieces; the pieces spell the message out.
*/
module ExtractorSamples {
  import opened Wrappers
  import opened Regex
  import opened ProfilePatterns
  import opened Extractor

  /** Lower-casing works piece by piece. */
  lemma LowerConcat(a: string, b: string)
    ensures Lower(a + b) == Lower(a) + Lower(b)
  {
  }

  /** A match found at `i`, with no match before it, is the one `re.search` reports. */
  lemma FirstGroupAt(p: Pattern, s: string, i: nat, marks: seq<nat>)
    requires i <= |s| && forall j :: 0 <= j < i ==> Bt(p, s, j).None?
    requires Bt(p, s, i) == Some(marks) && |marks| >= 2 && marks[0] <= marks[1] <= |s|
    ensures FirstGroup(p, s) == Some(s[marks[0]..marks[1]])
  {
    SearchFindsFirst(p, s, 0, i);
  }

  /** A text that starts with a word starts with the word's first letter. */
  lemma StartsAtHead(s: string, q: nat, w: string)
    requires StartsAt(s, q, w) && w != []
    ensures q < |s| && s[q] == w[0]
  {
    assert s[q..q + |w|][0] == s[q];
  }

  /** Each age unit starts with `y` or `a`. */
  lemma AgeUnitHead(s: string, q: nat)
    requires q <= |s|
    ensures UnitAt(AgeUnits, s, q) ==> q < |s| && (s[q] == 'y' || s[q] == 'a')
  {
    AgeUnitsAt(s, q);
    if StartsAt(s, q, "years old") { StartsAtHead(s, q, "years old"); }
    if StartsAt(s, q, "year old") { StartsAtHead(s, q, "year old"); }
    if StartsAt(s, q, "yo") { StartsAtHead(s, q, "yo"); }
    if StartsAt(s, q, "age") { StartsAtHead(s, q, "age"); }
  }

  /** Each weight unit starts with `k`, `p` or `l`. */
  lemma WeightUnitHead(s: string, q: nat)
    requires q <= |s|
    ensures UnitAt(WeightUnits, s, q) ==> q < |s| && (s[q] == 'k' || s[q] == 'p' || s[q] == 'l')
  {
    WeightUnitsAt(s, q);
    if StartsAt(s, q, "kg") { StartsAtHead(s, q, "kg"); }
    if StartsAt(s, q, "kilos") { StartsAtHead(s, q, "kilos"); }
    if StartsAt(s, q, "kilogram") { StartsAtHead(s, q, "kilogram"); }
    if StartsAt(s, q, "pound") { StartsAtHead(s, q, "pound"); }
    if StartsAt(s, q, "lbs") { StartsAtHead(s, q, "lbs"); }
  }

  /** Each height unit starts with `c`, `m`, an apostrophe or `f`. */
  lemma HeightUnitHead(s: string, q: nat)
    requires q <= |s|
    ensures UnitAt(HeightUnits, s, q) ==> q < |s| && (s[q] == 'c' || s[q] == 'm' || s[q] == '\'' || s[q] == 'f')
  {
    HeightUnitsAt(s, q);
    if StartsAt(s, q, "cm") { StartsAtHead(s, q, "cm"); }
    if StartsAt(s, q, "meter") { StartsAtHead(s, q, "meter"); }
    if StartsAt(s, q, "'") { StartsAtHead(s, q, "'"); }
    if StartsAt(s, q, "ft") { StartsAtHead(s, q, "ft"); }
    if StartsAt(s, q, "feet") { StartsAtHead(s, q, "feet"); }
  }

  /** The extraction result, given what each of the three patterns captures. */
  lemma ExtractionIs(message: string, age: Option<string>, weight: Option<string>, height: Option<string>)
    requires FirstGroup(AgePattern, Lower(message)) == age
    requires FirstGroup(WeightPattern, Lower(message)) == weight
    requires FirstGroup(HeightPattern, Lower(message)) == height
    requires age.Some? || weight.Some? || height.Some?
    ensures Extraction(message) == Some(Present(age, weight, height))
  {
    TableCollected(Lower(message));
    var m := Present(age, weight, height);
    assert "age" in m || "weight" in m || "height" in m;
  }

  // ---------------------------------------------------------------------
  // "I am 34 years old and weigh 70 kg"
  // ---------------------------------------------------------------------

  /** The lower-cased sentence, piece by piece. */
  predicate AgeWeightText(low: string, a: string, b: string, c: string, d: string, e: string, f: string, g: string, h: string) {
    && a == "i am " && b == "34" && c == " " && d == "years old" && e == " and weigh " && f == "70" && g == " " && h == "kg"
    && low == a + b + c + d + e + f + g + h
  }

  lemma AgeWeightLowered(message: string, a: string, b: string, c: string, d: string, e: string, f: string, g: string, h: string)
    requires message == "I am " + b + c + d + e + f + g + h
    requires a == "i am " && b == "34" && c == " " && d == "years old" && e == " and weigh " && f == "70" && g == " " && h == "kg"
    ensures AgeWeightText(Lower(message), a, b, c, d, e, f, g, h)
  {
    var up := "I am ";
    LowerConcat(up + b + c + d + e + f + g, h);
    LowerConcat(up + b + c + d + e + f, g);
    LowerConcat(up + b + c + d + e, f);
    LowerConcat(up + b + c + d, e);
    LowerConcat(up + b + c, d);
    LowerConcat(up + b, c);
    LowerConcat(up, b);
    assert Lower(up) == a;
    assert Lower(b) == b && Lower(c) == c && Lower(d) == d;
    assert Lower(e) == e && Lower(f) == f && Lower(g) == g && Lower(h) == h;
  }

  /** Where the lower-cased sentence has no digits. */
  predicate AgeWeightGaps(low: string) {
    && |low| == 33
    && (forall j :: 0 <= j < 5 ==> !IsDigit(low[j]))
    && (forall j :: 7 <= j < 28 ==> !IsDigit(low[j]))
    && (forall j :: 30 <= j < 33 ==> !IsDigit(low[j]))
  }

  /** Its two numbers and what follows them. */
  predicate AgeWeightRuns(low: string) {
    && |low| == 33
    && Run(Digit, low, 5) == 2 && Run(Digit, low, 6) == 1 && Run(Digit, low, 28) == 2 && Run(Digit, low, 29) == 1
    && SpaceEnd(low, 7) == 8 && SpaceEnd(low, 30) == 31 && low[7] == ' ' && low[30] == ' '
    && StartsAt(low, 8, "years old") && low[8] == 'y' && StartsAt(low, 31, "kg") && low[31] == 'k'
    && low[5..7] == "34" && low[28..30] == "70"
  }

  lemma AgeWeightHasGaps(low: string, a: string, b: string, c: string, d: string, e: string, f: string, g: string, h: string)
    requires AgeWeightText(low, a, b, c, d, e, f, g, h)
    ensures AgeWeightGaps(low)
  {
    assert DigitFree(a) && DigitFree(c + d + e) && DigitFree(g + h);
    assert low[..5] == a;
    assert low[7..28] == c + d + e;
    assert low[30..] == g + h;
  }

  lemma AgeWeightHasRuns(low: string, a: string, b: string, c: string, d: string, e: string, f: string, g: string, h: string)
    requires AgeWeightText(low, a, b, c, d, e, f, g, h)
    ensures AgeWeightRuns(low)
  {
    assert Run(Digit, low, 7) == 0 && Run(Digit, low, 30) == 0;
    assert Run(Space, low, 8) == 0 && Run(Space, low, 31) == 0;
    assert low[8..17] == d && low[31..33] == h;
  }

  lemma AgeWeightAge(low: string)
    requires AgeWeightGaps(low) && AgeWeightRuns(low)
    ensures FirstGroup(AgePattern, low) == Some("34")
  {
    AgeUnitsAt(low, 8);
    assert DigitMatch(AgeUnits, low, 5) == Some([5, 7]);
    AgeAt(low, 5);
    forall j | 0 <= j < 5 ensures Bt(AgePattern, low, j).None? {
      NoDigitNoMatch(AgeUnits, low, j);
      AgeAt(low, j);
    }
    FirstGroupAt(AgePattern, low, 5, [5, 7]);
  }

  lemma AgeWeightWeight(low: string)
    requires AgeWeightGaps(low) && AgeWeightRuns(low)
    ensures FirstGroup(WeightPattern, low) == Some("70")
  {
    WeightUnitsAt(low, 31);
    WeightUnitHead(low, 8);
    assert DigitMatch(WeightUnits, low, 28) == Some([28, 30]);
    WeightAt(low, 28);
    forall j | 0 <= j < 28 ensures Bt(WeightPattern, low, j).None? {
      if j == 5 || j == 6 {
        assert DigitMatch(WeightUnits, low, j) == None;
      } else {
        NoDigitNoMatch(WeightUnits, low, j);
      }
      WeightAt(low, j);
    }
    FirstGroupAt(WeightPattern, low, 28, [28, 30]);
  }

  lemma AgeWeightNoHeight(low: string)
    requires AgeWeightGaps(low) && AgeWeightRuns(low)
    ensures FirstGroup(HeightPattern, low) == None
  {
    HeightUnitHead(low, 8);
    HeightUnitHead(low, 31);
    forall i | 0 <= i <= |low| ensures HeightMatch(HeightUnits, low, i).None? {
      if i == 5 || i == 6 || i == 28 || i == 29 || i == |low| {
      } else {
        NoDigitNoMatch(HeightUnits, low, i);
      }
    }
    HeightCaptured(low);
  }

  /** The sentence is the concatenation of its pieces. */
  lemma AgeWeightSplit(message: string)
    requires message == "I am 34 years old and weigh 70 kg"
    ensures message == "I am " + "34" + " " + "years old" + " and weigh " + "70" + " " + "kg"
  {
  }

  /**
    "I am 34 years old and weigh 70 kg" yields the age 34 and the weight 70;
    no height, since neither number is followed by a height unit.
  */
  lemma AgeWeightSample(message: string)
    requires message == "I am 34 years old and weigh 70 kg"
    ensures Extraction(message) == Some(map["age" := "34", "weight" := "70"])
  {
    AgeWeightSplit(message);
    AgeWeightPieces(message);
  }

  lemma AgeWeightPieces(message: string)
    requires message == "I am " + "34" + " " + "years old" + " and weigh " + "70" + " " + "kg"
    ensures Extraction(message) == Some(map["age" := "34", "weight" := "70"])
  {
    AgeWeightGroups(message);
    ExtractionIs(message, Some("34"), Some("70"), None);
  }

  lemma AgeWeightGroups(message: string)
    requires message == "I am " + "34" + " " + "years old" + " and weigh " + "70" + " " + "kg"
    ensures FirstGroup(AgePattern, Lower(message)) == Some("34")
    ensures FirstGroup(WeightPattern, Lower(message)) == Some("70")
    ensures FirstGroup(HeightPattern, Lower(message)) == None
  {
    var a, b, c, d, e, f, g, h := "i am ", "34", " ", "years old", " and weigh ", "70", " ", "kg";
    AgeWeightLowered(message, a, b, c, d, e, f, g, h);
    var low := Lower(message);
    AgeWeightHasGaps(low, a, b, c, d, e, f, g, h);
    AgeWeightHasRuns(low, a, b, c, d, e, f, g, h);
    AgeWeightAge(low);
    AgeWeightWeight(low);
    AgeWeightNoHeight(low);
  }

  // ---------------------------------------------------------------------
  // "5'10 tall"
  // ---------------------------------------------------------------------

  /** The message, piece by piece; lower-casing leaves it as it is. */
  predicate FeetText(low: string, a: string, b: string, c: string, d: string, e: string) {
    && a == "5" && b == "'" && c == "10" && d == " " && e == "tall"
    && low == a + b + c + d + e
  }

  lemma FeetLowered(message: string, a: string, b: string, c: string, d: string, e: string)
    requires a == "5" && b == "'" && c == "10" && d == " " && e == "tall"
    requires message == a + b + c + d + e
    ensures FeetText(Lower(message), a, b, c, d, e)
  {
    LowerConcat(a + b + c + d, e);
    LowerConcat(a + b + c, d);
    LowerConcat(a + b, c);
    LowerConcat(a, b);
    assert Lower(a) == a && Lower(b) == b && Lower(c) == c && Lower(d) == d && Lower(e) == e;
  }

  /** What the proofs below need to know about the message. */
  predicate FeetFacts(low: string) {
    && |low| == 9
    && low[1] == '\'' && low[4] == ' ' && low[5] == 't'
    && (forall j :: 4 <= j < 9 ==> !IsDigit(low[j]))
    && Run(Digit, low, 0) == 1 && Run(Digit, low, 2) == 2 && Run(Digit, low, 3) == 1
    && SpaceEnd(low, 1) == 1 && SpaceEnd(low, 4) == 5
    && StartsAt(low, 1, "'") && low[0..1] == "5"
  }

  lemma FeetHasFacts(low: string, a: string, b: string, c: string, d: string, e: string)
    requires FeetText(low, a, b, c, d, e)
    ensures FeetFacts(low)
  {
    assert low[4..] == d + e;
    assert DigitFree(d + e);
    assert Run(Digit, low, 1) == 0 && Run(Digit, low, 4) == 0;
    assert Run(Space, low, 1) == 0 && Run(Space, low, 5) == 0;
    assert low[1..2] == b;
  }

  lemma FeetNoAge(low: string)
    requires FeetFacts(low)
    ensures FirstGroup(AgePattern, low) == None
  {
    AgeUnitHead(low, 1);
    AgeUnitHead(low, 5);
    forall i | 0 <= i <= |low| ensures DigitMatch(AgeUnits, low, i).None? {
      if i == 0 {
        assert i + Run(Digit, low, i) == 1 && !UnitAt(AgeUnits, low, 1);
      } else if i == 2 || i == 3 {
        assert i + Run(Digit, low, i) == 4 && !UnitAt(AgeUnits, low, 5);
      } else if i < |low| {
        NoDigitNoMatch(AgeUnits, low, i);
      }
    }
    AgeCaptured(low);
  }

  lemma FeetNoWeight(low: string)
    requires FeetFacts(low)
    ensures FirstGroup(WeightPattern, low) == None
  {
    WeightUnitHead(low, 1);
    WeightUnitHead(low, 5);
    forall i | 0 <= i <= |low| ensures DigitMatch(WeightUnits, low, i).None? {
      if i == 0 {
        assert i + Run(Digit, low, i) == 1 && !UnitAt(WeightUnits, low, 1);
      } else if i == 2 || i == 3 {
        assert i + Run(Digit, low, i) == 4 && !UnitAt(WeightUnits, low, 5);
      } else if i < |low| {
        NoDigitNoMatch(WeightUnits, low, i);
      }
    }
    WeightCaptured(low);
  }

  lemma FeetHeight(low: string)
    requires FeetFacts(low)
    ensures FirstGroup(HeightPattern, low) == Some("5")
  {
    HeightUnitHead(low, 5);
    HeightUnitsAt(low, 1);
    assert HeightMatch(HeightUnits, low, 0) == Some([0, 1]);
    HeightAt(low, 0);
    FirstGroupAt(HeightPattern, low, 0, [0, 1]);
  }

  lemma FeetGroups(message: string)
    requires message == "5" + "'" + "10" + " " + "tall"
    ensures FirstGroup(AgePattern, Lower(message)) == None
    ensures FirstGroup(WeightPattern, Lower(message)) == None
    ensures FirstGroup(HeightPattern, Lower(message)) == Some("5")
  {
    var a, b, c, d, e := "5", "'", "10", " ", "tall";
    FeetLowered(message, a, b, c, d, e);
    var low := Lower(message);
    FeetHasFacts(low, a, b, c, d, e);
    FeetNoAge(low);
    FeetNoWeight(low);
    FeetHeight(low);
  }

  /**
    "5'10 tall" yields only a height, and it is "5": the apostrophe after the
    feet is itself a height unit, and with no unit after the inches the
    longer reading fails.
  */
  lemma FeetSample(message: string)
    requires message == "5'10 tall"
    ensures Extraction(message) == Some(map["height" := "5"])
  {
    assert message == "5" + "'" + "10" + " " + "tall";
    FeetGroups(message);
    ExtractionIs(message, None, None, Some("5"));
  }
}
