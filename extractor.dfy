/**
  The profile-extraction heuristic: three regular expressions run over the
  lower-cased message, each contributing the first capture group of its
  leftmost match. The result is `None` when none of them matched.
*/
module Extractor {
  import opened Wrappers
  import opened Regex
  import opened ProfilePatterns

  /** The profile fields the heuristic looks for, with their patterns, in the table's order. */
  const Table: seq<(string, Pattern)> :=
    [("age", AgePattern), ("weight", WeightPattern), ("height", HeightPattern)]

  const Fields: set<string> := {"age", "weight", "height"}

  /** `str.lower()` restricted to ASCII letters. */
  function LowerChar(c: char): char {
    if 'A' <= c <= 'Z' then (c as int + 32) as char else c
  }

  /**
    The lower-cased message: no capital is left, each capital becomes the same
    letter in small, and every other character (digits, whitespace, the
    apostrophe) is kept, so the digits stand where they stood.
  */
  function Lower(s: string): (r: string)
    ensures |r| == |s|
    ensures forall k :: 0 <= k < |r| ==> !('A' <= r[k] <= 'Z')
    ensures forall k :: 0 <= k < |s| && 'A' <= s[k] <= 'Z' ==>
      'a' <= r[k] <= 'z' && r[k] as int - 'a' as int == s[k] as int - 'A' as int
    ensures forall k :: 0 <= k < |s| && !('A' <= s[k] <= 'Z') ==> r[k] == s[k]
    ensures forall k :: 0 <= k < |s| ==> (IsDigit(r[k]) <==> IsDigit(s[k]))
  {
    seq(|s|, k requires 0 <= k < |s| => LowerChar(s[k]))
  }

  /**
    The dictionary the loop builds from the entries of `table`, in order: an
    entry whose pattern matches `low` sets its key to the first group.
  */
  function Collected(table: seq<(string, Pattern)>, low: string): (m: map<string, string>)
    ensures m.Keys <= set k | 0 <= k < |table| :: table[k].0
  {
    if table == [] then map[]
    else
      var m := Collected(table[..|table| - 1], low);
      var (key, pattern) := table[|table| - 1];
      match FirstGroup(pattern, low)
      case Some(group) => m[key := group]
      case None => m
  }

  /**
    The capture of `key`'s pattern in the lower-cased message, if it matched:
    the key-to-pattern pairing of `Table`, spelled out key by key.
  */
  function Captured(key: string, low: string): Option<string> {
    if key == "age" then FirstGroup(AgePattern, low)
    else if key == "weight" then FirstGroup(WeightPattern, low)
    else if key == "height" then FirstGroup(HeightPattern, low)
    else None
  }

  /** Lower-casing twice is lower-casing once. */
  lemma LowerIdempotent(s: string)
    ensures Lower(Lower(s)) == Lower(s)
  {
  }

  /** What `extract_profile_info` returns. */
  function Extraction(message: string): Option<map<string, string>> {
    var m := Collected(Table, Lower(message));
    if m == map[] then None else Some(m)
  }

  /** `extract_profile_info`: runs the pattern table in order and fills the result field by field. */
  method ExtractProfileInfo(message: string) returns (r: Option<map<string, string>>)
    ensures r == Extraction(message)
    ensures r.Some? ==> r.value != map[]
  {
    var low := Lower(message);
    var extracted: map<string, string> := map[];
    for i := 0 to |Table|
      invariant extracted == Collected(Table[..i], low)
    {
      var (key, pattern) := Table[i];
      assert Table[..i + 1][..i] == Table[..i];
      var group := FirstGroup(pattern, low);
      if group.Some? {
        extracted := extracted[key := group.value];
      }
    }
    assert Table[..|Table|] == Table;
    r := if extracted == map[] then None else Some(extracted);
  }

  /** The dictionary holding the captures that are present, filled in the table's order. */
  function Present(age: Option<string>, weight: Option<string>, height: Option<string>): map<string, string> {
    var m0 := if age.Some? then map["age" := age.value] else map[];
    var m1 := if weight.Some? then m0["weight" := weight.value] else m0;
    if height.Some? then m1["height" := height.value] else m1
  }

  /** The dictionary after the first two entries of the table. */
  lemma PairCollected(low: string)
    ensures Collected(Table[..2], low) == Present(Captured("age", low), Captured("weight", low), None)
  {
    assert Table[..2][..1] == [("age", AgePattern)];
    assert Table[..2][..1][..0] == [];
    var age := Captured("age", low);
    assert Collected(Table[..2][..1], low) == if age.Some? then map["age" := age.value] else map[];
  }

  /** The loop's dictionary, written out for the three-entry table. */
  lemma TableCollected(low: string)
    ensures Collected(Table, low) ==
      Present(Captured("age", low), Captured("weight", low), Captured("height", low))
  {
    assert Table[..|Table| - 1] == Table[..2];
    PairCollected(low);
  }

  /**
    The result, field by field: a field is present exactly when its pattern
    matched, with the pattern's capture as its value; no other key appears,
    and `None` stands for "no pattern matched", never for an empty dictionary.
  */
  lemma {:induction false} ExtractionFields(message: string)
    ensures var low := Lower(message);
      Extraction(message).None? <==> forall key :: key in Fields ==> Captured(key, low).None?
    ensures var low := Lower(message);
      Extraction(message).Some? ==>
        Extraction(message).value.Keys <= Fields &&
        forall key :: key in Fields ==>
          (key in Extraction(message).value <==> Captured(key, low).Some?) &&
          (key in Extraction(message).value ==> Some(Extraction(message).value[key]) == Captured(key, low))
  {
    var low := Lower(message);
    var age, weight, height := Captured("age", low), Captured("weight", low), Captured("height", low);
    TableCollected(low);
    var m := Collected(Table, low);
    assert m == map[] <==> age.None? && weight.None? && height.None? by {
      if age.Some? { assert "age" in m; }
      if weight.Some? { assert "weight" in m; }
      if height.Some? { assert "height" in m; }
    }
    forall key | key in Fields
      ensures (key in m <==> Captured(key, low).Some?) && (key in m ==> Some(m[key]) == Captured(key, low))
    {
      assert key == "age" || key == "weight" || key == "height";
    }
  }

  /**
    A pattern that yields `DigitMatch(units, low, i)` at every `i` captures the
    first run of digits, from the left, that whitespace and a unit follow: a
    non-empty string of digits.
  */
  lemma {:induction false} DigitCapture(p: Pattern, units: seq<seq<Atom>>, low: string)
    requires forall i :: 0 <= i <= |low| ==> Bt(p, low, i) == DigitMatch(units, low, i)
    ensures FirstGroup(p, low).Some? <==> exists i :: 0 <= i <= |low| && DigitMatch(units, low, i).Some?
    ensures FirstGroup(p, low).Some? ==>
      exists i, e :: 0 <= i <= |low| && DigitMatch(units, low, i) == Some([i, e]) &&
        (forall j :: 0 <= j < i ==> DigitMatch(units, low, j).None?) &&
        i <= e <= |low| && FirstGroup(p, low).value == low[i..e]
    ensures FirstGroup(p, low).Some? ==>
      |FirstGroup(p, low).value| > 0 && forall k :: 0 <= k < |FirstGroup(p, low).value| ==> IsDigit(FirstGroup(p, low).value[k])
  {
    match Search(p, low, 0)
    case None =>
    case Some(f) =>
      var i := f.start;
      assert Bt(p, low, i) == Some(f.marks);
      RunSpan(Digit, low, i);
      var e := f.marks[1];
      assert f.marks == [i, e];
  }

  /**
    The age field: present exactly when some run of digits is followed, after
    optional whitespace, by `years old`, `year old`, `yo` or `age`; its value is
    the leftmost such run, a non-empty string of digits.
  */
  lemma {:induction false} AgeCaptured(low: string)
    ensures FirstGroup(AgePattern, low).Some? <==> exists i :: 0 <= i <= |low| && DigitMatch(AgeUnits, low, i).Some?
    ensures FirstGroup(AgePattern, low).Some? ==>
      exists i, e :: 0 <= i <= |low| && DigitMatch(AgeUnits, low, i) == Some([i, e]) &&
        (forall j :: 0 <= j < i ==> DigitMatch(AgeUnits, low, j).None?) &&
        i <= e <= |low| && FirstGroup(AgePattern, low).value == low[i..e]
    ensures FirstGroup(AgePattern, low).Some? ==>
      |FirstGroup(AgePattern, low).value| > 0 &&
      forall k :: 0 <= k < |FirstGroup(AgePattern, low).value| ==> IsDigit(FirstGroup(AgePattern, low).value[k])
  {
    AgeEverywhere(low);
    DigitCapture(AgePattern, AgeUnits, low);
  }

  /**
    The weight field: present exactly when some run of digits is followed,
    after optional whitespace, by `kg`, `kilos`, `kilogram`, `pound` or `lbs`;
    its value is the leftmost such run, a non-empty string of digits.
  */
  lemma {:induction false} WeightCaptured(low: string)
    ensures FirstGroup(WeightPattern, low).Some? <==> exists i :: 0 <= i <= |low| && DigitMatch(WeightUnits, low, i).Some?
    ensures FirstGroup(WeightPattern, low).Some? ==>
      exists i, e :: 0 <= i <= |low| && DigitMatch(WeightUnits, low, i) == Some([i, e]) &&
        (forall j :: 0 <= j < i ==> DigitMatch(WeightUnits, low, j).None?) &&
        i <= e <= |low| && FirstGroup(WeightPattern, low).value == low[i..e]
    ensures FirstGroup(WeightPattern, low).Some? ==>
      |FirstGroup(WeightPattern, low).value| > 0 &&
      forall k :: 0 <= k < |FirstGroup(WeightPattern, low).value| ==> IsDigit(FirstGroup(WeightPattern, low).value[k])
  {
    WeightEverywhere(low);
    DigitCapture(WeightPattern, WeightUnits, low);
  }

  /** No character of `a` is a digit. */
  predicate DigitFree(a: string) {
    forall k :: 0 <= k < |a| ==> !IsDigit(a[k])
  }

  /** Where no digit stands, none of the three patterns can start. */
  lemma NoDigitNoMatch(units: seq<seq<Atom>>, s: string, j: nat)
    requires j < |s| && !IsDigit(s[j])
    ensures DigitMatch(units, s, j) == None && HeightMatch(units, s, j) == None
  {
  }

  /** A height as the pattern captures it: a digit first, then digits and at most one apostrophe. */
  predicate HeightShaped(c: string) {
    && |c| > 0 && IsDigit(c[0])
    && (forall k :: 0 <= k < |c| ==> IsDigit(c[k]) || c[k] == '\'')
    && (forall j, k :: 0 <= j < k < |c| && c[j] == '\'' ==> c[k] != '\'')
  }

  /** What a `HeightMatch` captures is shaped like a height. */
  lemma {:induction false} HeightMatchShaped(units: seq<seq<Atom>>, low: string, i: nat)
    requires i <= |low| && HeightMatch(units, low, i).Some?
    ensures var m := HeightMatch(units, low, i).value;
      |m| == 2 && m[0] == i && i < m[1] <= |low| && HeightShaped(low[i..m[1]])
  {
    var a := i + Run(Digit, low, i);
    RunSpan(Digit, low, i);
    var e := HeightMatch(units, low, i).value[1];
    if e != a {
      RunSpan(Digit, low, a + 1);
      var c := low[i..e];
      assert c[a - i] == '\'';
      forall k | 0 <= k < |c| && k != a - i
        ensures IsDigit(c[k])
      {
        assert c[k] == low[i + k];
      }
    }
  }

  /**
    A pattern that yields `HeightMatch(units, low, i)` at every `i` captures
    what the leftmost `HeightMatch` delimits.
  */
  lemma {:induction false} HeightCapture(p: Pattern, units: seq<seq<Atom>>, low: string)
    requires forall i :: 0 <= i <= |low| ==> Bt(p, low, i) == HeightMatch(units, low, i)
    ensures FirstGroup(p, low).Some? <==> exists i :: 0 <= i <= |low| && HeightMatch(units, low, i).Some?
    ensures FirstGroup(p, low).Some? ==>
      exists i, e :: 0 <= i <= |low| && HeightMatch(units, low, i) == Some([i, e]) &&
        (forall j :: 0 <= j < i ==> HeightMatch(units, low, j).None?) &&
        i <= e <= |low| && FirstGroup(p, low).value == low[i..e]
    ensures FirstGroup(p, low).Some? ==> HeightShaped(FirstGroup(p, low).value)
  {
    match Search(p, low, 0)
    case None =>
    case Some(f) =>
      var i := f.start;
      assert Bt(p, low, i) == Some(f.marks);
      HeightMatchShaped(units, low, i);
      var e := f.marks[1];
      assert f.marks == [i, e];
  }

  /**
    The height field: present exactly when a run of digits, possibly followed
    by an apostrophe and more digits, is followed after optional whitespace by
    `cm`, `meter`, an apostrophe, `ft` or `feet`; its value is what the leftmost
    such match delimits, and is shaped like a height.
  */
  lemma {:induction false} HeightCaptured(low: string)
    ensures FirstGroup(HeightPattern, low).Some? <==> exists i :: 0 <= i <= |low| && HeightMatch(HeightUnits, low, i).Some?
    ensures FirstGroup(HeightPattern, low).Some? ==>
      exists i, e :: 0 <= i <= |low| && HeightMatch(HeightUnits, low, i) == Some([i, e]) &&
        (forall j :: 0 <= j < i ==> HeightMatch(HeightUnits, low, j).None?) &&
        i <= e <= |low| && FirstGroup(HeightPattern, low).value == low[i..e]
    ensures FirstGroup(HeightPattern, low).Some? ==> HeightShaped(FirstGroup(HeightPattern, low).value)
  {
    HeightEverywhere(low);
    HeightCapture(HeightPattern, HeightUnits, low);
  }

  /** A message without a digit, the empty message included, yields nothing. */
  lemma {:induction false} NoDigitsNoExtraction(message: string)
    requires DigitFree(message)
    ensures Extraction(message) == None
  {
    var low := Lower(message);
    forall i | 0 <= i <= |low|
      ensures DigitMatch(AgeUnits, low, i).None? && DigitMatch(WeightUnits, low, i).None?
      ensures HeightMatch(HeightUnits, low, i).None?
    {
      if i < |low| {
        NoDigitNoMatch(AgeUnits, low, i);
        NoDigitNoMatch(WeightUnits, low, i);
        NoDigitNoMatch(HeightUnits, low, i);
      }
    }
    AgeCaptured(low);
    WeightCaptured(low);
    HeightCaptured(low);
    ExtractionFields(message);
  }
}
