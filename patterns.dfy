/**
  The three patterns of the profile-extraction heuristic, written as data for
  the matcher in module Regex, and where each of them matches: the position
  facts below describe a match without running the matcher.
*/
module ProfilePatterns {
  import opened Wrappers
  import opened Regex

  /** `(?:years? old|yo|age)` */
  const AgeUnits: seq<seq<Atom>> :=
    [[Str("year"), Repeat(Exactly('s'), 0, Some(1)), Str(" old")], [Str("yo")], [Str("age")]]

  /** `(?:kg|kilos|kilograms?|pounds?|lbs)` */
  const WeightUnits: seq<seq<Atom>> :=
    [[Str("kg")], [Str("kilos")], [Str("kilogram"), Repeat(Exactly('s'), 0, Some(1))],
     [Str("pound"), Repeat(Exactly('s'), 0, Some(1))], [Str("lbs")]]

  /** `(?:cm|meters?|'|ft|feet)` */
  const HeightUnits: seq<seq<Atom>> :=
    [[Str("cm")], [Str("meter"), Repeat(Exactly('s'), 0, Some(1))], [Str("'")], [Str("ft")], [Str("feet")]]

  /** `(\d+)\s*(?:years? old|yo|age)` */
  const AgePattern: Pattern :=
    [Open, One(Repeat(Digit, 1, None)), Close, One(Repeat(Space, 0, None)), Alt(AgeUnits)]

  /** `(\d+)\s*(?:kg|kilos|kilograms?|pounds?|lbs)` */
  const WeightPattern: Pattern :=
    [Open, One(Repeat(Digit, 1, None)), Close, One(Repeat(Space, 0, None)), Alt(WeightUnits)]

  /** `(\d+'?\d*)\s*(?:cm|meters?|'|ft|feet)` */
  const HeightPattern: Pattern :=
    [Open, One(Repeat(Digit, 1, None)), One(Repeat(Exactly('\''), 0, Some(1))), One(Repeat(Digit, 0, None)),
     Close, One(Repeat(Space, 0, None)), Alt(HeightUnits)]

  /** Every unit alternative starts with a letter or an apostrophe: never a digit, never a space. */
  predicate UnitsShape(units: seq<seq<Atom>>) {
    && LiteralLed(units)
    && forall k :: 0 <= k < |units| ==> !IsDigit(units[k][0].w[0]) && !IsSpace(units[k][0].w[0])
  }

  /** The part of the patterns after the group: `)\s*(?:units)`. */
  function Tail(units: seq<seq<Atom>>): Pattern {
    [Close, One(Repeat(Space, 0, None)), Alt(units)]
  }

  /** Where a run of whitespace starting at `pos` ends. */
  function SpaceEnd(s: string, pos: nat): (e: nat)
    requires pos <= |s|
    ensures pos <= e <= |s|
  {
    pos + Run(Space, s, pos)
  }

  /** The unit alternation matches at `q`. */
  predicate UnitAt(units: seq<seq<Atom>>, s: string, q: nat)
    requires q <= |s|
  {
    TryBranches(units, [], s, q).Some?
  }

  lemma {:induction false} UnitFailsOn(units: seq<seq<Atom>>, rest: Pattern, s: string, q: nat)
    requires q < |s| && UnitsShape(units) && (IsDigit(s[q]) || IsSpace(s[q]))
    ensures TryBranches(units, rest, s, q).None?
  {
    BranchesFail(units, rest, s, q);
  }

  /** After the group closes at `pos`, the tail succeeds exactly when a unit follows the whitespace. */
  lemma {:induction false} TailAt(units: seq<seq<Atom>>, s: string, pos: nat)
    requires pos <= |s| && UnitsShape(units)
    ensures Bt(Tail(units), s, pos) == if UnitAt(units, s, SpaceEnd(s, pos)) then Some([pos]) else None
  {
    var rest: Pattern := [One(Repeat(Space, 0, None)), Alt(units)];
    assert Tail(units)[1..] == rest;
    var n := Run(Space, s, pos);
    assert rest[1..] == [Alt(units)];
    assert [Alt(units)][1..] == [];
    RunSpan(Space, s, pos);
    forall j | pos + 0 <= j < pos + n
      ensures Bt([Alt(units)], s, j).None?
    {
      UnitFailsOn(units, [], s, j);
    }
    OnlyGreediest([Alt(units)], s, pos, n, 0);
    var e := SpaceEnd(s, pos);
    assert Bt([Alt(units)], s, e) == TryBranches(units, [], s, e);
    assert Bt(rest, s, pos) == TryBranches(units, [], s, e);
    var r := TryBranches(units, [], s, e);
    assert r.Some? ==> r.value == [] && [pos] + r.value == [pos];
    assert Bt(Tail(units), s, pos) == Mark(pos, r);
    assert UnitAt(units, s, e) <==> r.Some?;
  }

  /** What the tail `)\s*(?:units)` yields once the group has closed at `e`. */
  function AfterGroup(units: seq<seq<Atom>>, s: string, e: nat): Option<seq<nat>>
    requires e <= |s|
  {
    if UnitAt(units, s, SpaceEnd(s, e)) then Some([e]) else None
  }

  /** `AfterGroup` at every position, as one value. */
  function Closing(units: seq<seq<Atom>>, s: string): nat -> Option<seq<nat>> {
    (e: nat) => if e <= |s| then AfterGroup(units, s, e) else None
  }

  /** `tail` yields `after(j)` at every position `j` of `s`. */
  predicate Behaves(tail: Pattern, after: nat -> Option<seq<nat>>, s: string) {
    forall j :: 0 <= j <= |s| ==> Bt(tail, s, j) == after(j)
  }

  /** `after` fails right before every digit of `s`. */
  predicate ShutOnDigits(after: nat -> Option<seq<nat>>, s: string) {
    forall j {:trigger after(j)} :: 0 <= j < |s| && IsDigit(s[j]) ==> after(j).None?
  }

  /** The tail behaves as `Closing` says, and a group followed by it never closes right before a digit. */
  lemma {:induction false} TailBehaves(units: seq<seq<Atom>>, s: string)
    requires UnitsShape(units)
    ensures Behaves(Tail(units), Closing(units, s), s)
    ensures ShutOnDigits(Closing(units, s), s)
  {
    forall j | 0 <= j <= |s|
      ensures Bt(Tail(units), s, j) == Closing(units, s)(j)
    {
      TailAt(units, s, j);
    }
    forall j | 0 <= j < |s| && IsDigit(s[j])
      ensures Closing(units, s)(j).None?
    {
      assert SpaceEnd(s, j) == j;
      UnitFailsOn(units, [], s, j);
    }
  }

  /** `\d{min,}` then a tail: only the whole run of digits can be followed by it. */
  lemma {:induction false} DigitsThen(tail: Pattern, after: nat -> Option<seq<nat>>, min: nat, s: string, q: nat)
    requires q <= |s| && Behaves(tail, after, s) && ShutOnDigits(after, s)
    ensures Bt([One(Repeat(Digit, min, None))] + tail, s, q)
      == if Run(Digit, s, q) >= min then after(q + Run(Digit, s, q)) else None
  {
    var p := [One(Repeat(Digit, min, None))] + tail;
    assert p[1..] == tail;
    var n := Run(Digit, s, q);
    if n >= min {
      RunSpan(Digit, s, q);
      OnlyGreediest(tail, s, q, n, min);
    }
  }

  /** `(\d+` then a tail at `i`: the group is the whole run of digits. */
  lemma {:induction false} DigitGroupAt(tail: Pattern, after: nat -> Option<seq<nat>>, s: string, i: nat)
    requires i <= |s| && Behaves(tail, after, s) && ShutOnDigits(after, s)
    ensures Bt([Open, One(Repeat(Digit, 1, None))] + tail, s, i)
      == if Run(Digit, s, i) == 0 then None else Mark(i, after(i + Run(Digit, s, i)))
  {
    var p := [Open, One(Repeat(Digit, 1, None))] + tail;
    assert p[1..] == [One(Repeat(Digit, 1, None))] + tail;
    DigitsThen(tail, after, 1, s, i);
  }

  /** `'?\d*` then a tail. */
  function HeightAfter(tail: Pattern): Pattern {
    [One(Repeat(Exactly('\''), 0, Some(1)))] + ([One(Repeat(Digit, 0, None))] + tail)
  }

  /**
    What `'?\d*` and the tail yield where the first run of digits ends: the
    apostrophe and a second run of digits when the tail accepts what follows
    them, otherwise the first run alone.
  */
  function HeightFrom(after: nat -> Option<seq<nat>>, s: string, a: nat): Option<seq<nat>>
    requires a <= |s|
  {
    if a < |s| && s[a] == '\'' && after(a + 1 + Run(Digit, s, a + 1)).Some?
    then after(a + 1 + Run(Digit, s, a + 1))
    else after(a)
  }

  /** Inside the first run of digits there is no apostrophe, and `\d*` takes the rest of the run. */
  lemma {:induction false} HeightInsideRun(tail: Pattern, after: nat -> Option<seq<nat>>, s: string, i: nat, j: nat)
    requires Behaves(tail, after, s) && ShutOnDigits(after, s)
    requires i <= |s| && i < j < i + Run(Digit, s, i)
    ensures Bt(HeightAfter(tail), s, j) == after(i + Run(Digit, s, i))
  {
    var r := [One(Repeat(Digit, 0, None))] + tail;
    assert HeightAfter(tail) == [One(Repeat(Exactly('\''), 0, Some(1)))] + r;
    OptionalCharAt('\'', r, s, j);
    DigitsThen(tail, after, 0, s, j);
    RunFrom(Digit, s, i, j - i);
  }

  /** Where the first run of digits ends, `'?\d*` and the tail yield `HeightFrom`. */
  lemma {:induction false} HeightAtRunEnd(tail: Pattern, after: nat -> Option<seq<nat>>, s: string, a: nat)
    requires Behaves(tail, after, s) && ShutOnDigits(after, s)
    requires a <= |s| && (a == |s| || !IsDigit(s[a]))
    ensures Bt(HeightAfter(tail), s, a) == HeightFrom(after, s, a)
  {
    var r := [One(Repeat(Digit, 0, None))] + tail;
    assert Bt(r, s, a) == after(a) by {
      DigitsThen(tail, after, 0, s, a);
      assert Run(Digit, s, a) == 0;
    }
    if a < |s| && s[a] == '\'' {
      assert Bt(r, s, a + 1) == after(a + 1 + Run(Digit, s, a + 1)) by {
        DigitsThen(tail, after, 0, s, a + 1);
      }
    }
    assert HeightAfter(tail) == [One(Repeat(Exactly('\''), 0, Some(1)))] + r;
    OptionalCharAt('\'', r, s, a);
  }

  /** `(\d+'?\d*` then a tail at `i`. */
  lemma {:induction false} HeightGroupAt(tail: Pattern, after: nat -> Option<seq<nat>>, s: string, i: nat)
    requires Behaves(tail, after, s) && ShutOnDigits(after, s) && i <= |s|
    ensures Bt([Open, One(Repeat(Digit, 1, None))] + HeightAfter(tail), s, i) ==
      if Run(Digit, s, i) == 0 then None else Mark(i, HeightFrom(after, s, i + Run(Digit, s, i)))
  {
    var n := Run(Digit, s, i);
    var a := i + n;
    var rest := HeightAfter(tail);
    var p1 := [One(Repeat(Digit, 1, None))] + rest;
    assert ([Open, One(Repeat(Digit, 1, None))] + rest)[1..] == p1;
    assert p1[1..] == rest;
    RunSpan(Digit, s, i);
    HeightAtRunEnd(tail, after, s, a);
    if n >= 1 {
      assert Bt(p1, s, i) == TryCounts(rest, s, i, n, 1);
      if Bt(rest, s, a).None? {
        forall j | i + 1 <= j < i + n
          ensures Bt(rest, s, j).None?
        {
          HeightInsideRun(tail, after, s, i, j);
        }
        OnlyGreediest(rest, s, i, n, 1);
      }
    }
  }

  lemma PatternShapes()
    ensures AgePattern == [Open, One(Repeat(Digit, 1, None))] + Tail(AgeUnits)
    ensures WeightPattern == [Open, One(Repeat(Digit, 1, None))] + Tail(WeightUnits)
    ensures HeightPattern == [Open, One(Repeat(Digit, 1, None))] + HeightAfter(Tail(HeightUnits))
  {
  }

  lemma UnitsShapes()
    ensures UnitsShape(AgeUnits) && UnitsShape(WeightUnits) && UnitsShape(HeightUnits)
  {
  }

  /**
    What `(\d+)\s*(?:units)` yields at `i`: a match exactly when a run of
    digits starts at `i` and, after optional whitespace, a unit follows it; the
    group is the whole run.
  */
  function DigitMatch(units: seq<seq<Atom>>, s: string, i: nat): Option<seq<nat>>
    requires i <= |s|
  {
    var e := i + Run(Digit, s, i);
    if e > i && UnitAt(units, s, SpaceEnd(s, e)) then Some([i, e]) else None
  }

  lemma {:induction false} DigitUnitAt(tail: Pattern, units: seq<seq<Atom>>, s: string, i: nat)
    requires i <= |s| && Behaves(tail, Closing(units, s), s) && ShutOnDigits(Closing(units, s), s)
    ensures Bt([Open, One(Repeat(Digit, 1, None))] + tail, s, i) == DigitMatch(units, s, i)
  {
    var e := i + Run(Digit, s, i);
    var after := Closing(units, s);
    DigitGroupAt(tail, after, s, i);
    if e > i {
      assert [i] + [e] == [i, e];
    }
  }

  /**
    Where the age pattern matches at `i`, and what it captures: the run of
    digits starting at `i`, when whitespace and an age unit follow it.
  */
  lemma {:induction false} AgeAt(s: string, i: nat)
    requires i <= |s|
    ensures Bt(AgePattern, s, i) == DigitMatch(AgeUnits, s, i)
  {
    PatternShapes();
    UnitsShapes();
    TailBehaves(AgeUnits, s);
    DigitUnitAt(Tail(AgeUnits), AgeUnits, s, i);
  }

  /**
    Where the weight pattern matches at `i`, and what it captures: the run of
    digits starting at `i`, when whitespace and a weight unit follow it.
  */
  lemma {:induction false} WeightAt(s: string, i: nat)
    requires i <= |s|
    ensures Bt(WeightPattern, s, i) == DigitMatch(WeightUnits, s, i)
  {
    PatternShapes();
    UnitsShapes();
    TailBehaves(WeightUnits, s);
    DigitUnitAt(Tail(WeightUnits), WeightUnits, s, i);
  }

  lemma {:induction false} AgeEverywhere(s: string)
    ensures forall i :: 0 <= i <= |s| ==> Bt(AgePattern, s, i) == DigitMatch(AgeUnits, s, i)
  {
    forall i | 0 <= i <= |s|
      ensures Bt(AgePattern, s, i) == DigitMatch(AgeUnits, s, i)
    {
      AgeAt(s, i);
    }
  }

  lemma {:induction false} WeightEverywhere(s: string)
    ensures forall i :: 0 <= i <= |s| ==> Bt(WeightPattern, s, i) == DigitMatch(WeightUnits, s, i)
  {
    forall i | 0 <= i <= |s|
      ensures Bt(WeightPattern, s, i) == DigitMatch(WeightUnits, s, i)
    {
      WeightAt(s, i);
    }
  }

  /**
    What `(\d+'?\d*)\s*(?:units)` yields at `i`: after the run of digits
    ending at `a`, an apostrophe and a second run of digits are kept when
    whitespace and a unit follow them; otherwise the group is the first run
    alone, followed by a unit.
  */
  function HeightMatch(units: seq<seq<Atom>>, s: string, i: nat): Option<seq<nat>>
    requires i <= |s|
  {
    var a := i + Run(Digit, s, i);
    if a == i then None
    else if a < |s| && s[a] == '\'' && UnitAt(units, s, SpaceEnd(s, a + 1 + Run(Digit, s, a + 1)))
    then Some([i, a + 1 + Run(Digit, s, a + 1)])
    else if UnitAt(units, s, SpaceEnd(s, a)) then Some([i, a])
    else None
  }

  lemma {:induction false} HeightFromClosing(units: seq<seq<Atom>>, s: string, i: nat)
    requires i <= |s| && Run(Digit, s, i) > 0
    ensures Mark(i, HeightFrom(Closing(units, s), s, i + Run(Digit, s, i))) == HeightMatch(units, s, i)
  {
    var a := i + Run(Digit, s, i);
    var after := Closing(units, s);
    var atA := UnitAt(units, s, SpaceEnd(s, a));
    assert after(a) == if atA then Some([a]) else None;
    assert [i] + [a] == [i, a];
    if a < |s| && s[a] == '\'' {
      var b := a + 1 + Run(Digit, s, a + 1);
      var atB := UnitAt(units, s, SpaceEnd(s, b));
      assert after(b) == if atB then Some([b]) else None;
      assert [i] + [b] == [i, b];
      assert HeightMatch(units, s, i) == if atB then Some([i, b]) else if atA then Some([i, a]) else None;
    } else {
      assert HeightMatch(units, s, i) == if atA then Some([i, a]) else None;
    }
  }

  lemma {:induction false} HeightShapeAt(units: seq<seq<Atom>>, s: string, i: nat)
    requires i <= |s| && UnitsShape(units)
    ensures Bt([Open, One(Repeat(Digit, 1, None))] + HeightAfter(Tail(units)), s, i) == HeightMatch(units, s, i)
  {
    var a := i + Run(Digit, s, i);
    var after := Closing(units, s);
    assert Bt([Open, One(Repeat(Digit, 1, None))] + HeightAfter(Tail(units)), s, i) ==
      if a == i then None else Mark(i, HeightFrom(after, s, a)) by {
      TailBehaves(units, s);
      HeightGroupAt(Tail(units), after, s, i);
    }
    if a > i {
      HeightFromClosing(units, s, i);
    }
  }

  /**
    Where the height pattern matches at `i`, and what it captures (the
    apostrophe is itself a height unit, so `5'` alone is a height).
  */
  lemma {:induction false} HeightAt(s: string, i: nat)
    requires i <= |s|
    ensures Bt(HeightPattern, s, i) == HeightMatch(HeightUnits, s, i)
  {
    PatternShapes();
    UnitsShapes();
    HeightShapeAt(HeightUnits, s, i);
  }

  lemma {:induction false} HeightEverywhere(s: string)
    ensures forall i :: 0 <= i <= |s| ==> Bt(HeightPattern, s, i) == HeightMatch(HeightUnits, s, i)
  {
    forall i | 0 <= i <= |s|
      ensures Bt(HeightPattern, s, i) == HeightMatch(HeightUnits, s, i)
    {
      HeightAt(s, i);
    }
  }

  // The unit alternatives, spelled out.

  lemma {:induction false} LiftOne(a: Atom)
    ensures Lift([a]) + [] == [One(a)]
  {
    assert Lift([a]) == [One(a)];
  }

  lemma {:induction false} LiftTwo(a: Atom, b: Atom)
    ensures Lift([a, b]) + [] == [One(a), One(b)]
  {
    assert |Lift([a, b])| == 2;
  }

  lemma {:induction false} LiftThree(a: Atom, b: Atom, c: Atom)
    ensures Lift([a, b, c]) + [] == [One(a), One(b), One(c)]
  {
    assert |Lift([a, b, c])| == 3;
  }

  /** A branch that is one literal string. */
  lemma {:induction false} LiteralBranch(w: string, s: string, q: nat)
    requires q <= |s|
    ensures Bt(Lift([Str(w)]) + [], s, q).Some? <==> StartsAt(s, q, w)
  {
    LiftOne(Str(w));
    var p := [One(Str(w))];
    assert p[1..] == [];
  }

  /** A branch `w` followed by an optional letter `x`: the letter never matters. */
  lemma {:induction false} OptionalLetterBranch(w: string, x: char, s: string, q: nat)
    requires q <= |s|
    ensures Bt(Lift([Str(w), Repeat(Exactly(x), 0, Some(1))]) + [], s, q).Some? <==> StartsAt(s, q, w)
  {
    LiftTwo(Str(w), Repeat(Exactly(x), 0, Some(1)));
    var p := [One(Str(w)), One(Repeat(Exactly(x), 0, Some(1)))];
    assert p[1..] == [One(Repeat(Exactly(x), 0, Some(1)))];
    assert p[1..][1..] == [];
    if StartsAt(s, q, w) {
      var q' := q + |w|;
      var n := Cap(Run(Exactly(x), s, q'), Some(1));
      assert Bt(p[1..], s, q') == TryCounts([], s, q', n, 0);
    }
  }

  /** A branch `w`, an optional letter `x`, then `v`: either `w x v` or `w v` starts at `q`. */
  lemma {:induction false} OptionalMiddleBranch(w: string, x: char, v: string, s: string, q: nat)
    requires q <= |s|
    ensures Bt([One(Str(w)), One(Repeat(Exactly(x), 0, Some(1))), One(Str(v))], s, q).Some? <==>
      StartsAt(s, q, w + [x] + v) || StartsAt(s, q, w + v)
  {
    var opt := Repeat(Exactly(x), 0, Some(1));
    var tail := [One(Str(v))];
    var p := [One(Str(w)), One(opt)] + tail;
    assert p == [One(Str(w)), One(opt), One(Str(v))];
    assert p[1..] == [One(opt)] + tail;
    assert tail[1..] == [];
    assert w + [x] + v == w + ([x] + v);
    StartsAtConcat(s, q, w, [x] + v);
    StartsAtConcat(s, q, w, v);
    var m := q + |w|;
    StartsAtConcat(s, m, [x], v);
    if StartsAt(s, q, w) {
      assert Bt(p, s, q) == Bt([One(opt)] + tail, s, m);
      OptionalCharAt(x, tail, s, m);
      assert StartsAt(s, m, [x]) <==> m < |s| && s[m] == x by {
        if m < |s| {
          assert s[m..m + 1] == [s[m]];
        }
      }
    }
  }

  /** `years? old`. */
  lemma {:induction false} YearsOldBranch(s: string, q: nat)
    requires q <= |s|
    ensures Bt(Lift(AgeUnits[0]) + [], s, q).Some? <==> StartsAt(s, q, "years old") || StartsAt(s, q, "year old")
  {
    LiftThree(Str("year"), Repeat(Exactly('s'), 0, Some(1)), Str(" old"));
    OptionalMiddleBranch("year", 's', " old", s, q);
    assert "year" + ['s'] + " old" == "years old";
    assert "year" + " old" == "year old";
  }

  /** The age units: `years old`, `year old`, `yo` or `age` starts at `q`. */
  lemma {:induction false} AgeUnitsAt(s: string, q: nat)
    requires q <= |s|
    ensures UnitAt(AgeUnits, s, q) <==>
      StartsAt(s, q, "years old") || StartsAt(s, q, "year old") || StartsAt(s, q, "yo") || StartsAt(s, q, "age")
  {
    BranchesSome(AgeUnits, [], s, q);
    YearsOldBranch(s, q);
    LiteralBranch("yo", s, q);
    LiteralBranch("age", s, q);
    assert AgeUnits[1] == [Str("yo")] && AgeUnits[2] == [Str("age")];
    if UnitAt(AgeUnits, s, q) {
      var k :| 0 <= k < |AgeUnits| && Bt(Lift(AgeUnits[k]) + [], s, q).Some?;
      assert k == 0 || k == 1 || k == 2;
    }
  }

  /** The weight units: `kg`, `kilos`, `kilogram`, `pound` or `lbs` starts at `q` (a plural `s` never matters). */
  lemma {:induction false} WeightUnitsAt(s: string, q: nat)
    requires q <= |s|
    ensures UnitAt(WeightUnits, s, q) <==>
      StartsAt(s, q, "kg") || StartsAt(s, q, "kilos") || StartsAt(s, q, "kilogram") ||
      StartsAt(s, q, "pound") || StartsAt(s, q, "lbs")
  {
    BranchesSome(WeightUnits, [], s, q);
    LiteralBranch("kg", s, q);
    LiteralBranch("kilos", s, q);
    OptionalLetterBranch("kilogram", 's', s, q);
    OptionalLetterBranch("pound", 's', s, q);
    LiteralBranch("lbs", s, q);
    assert WeightUnits[0] == [Str("kg")] && WeightUnits[1] == [Str("kilos")] && WeightUnits[4] == [Str("lbs")];
    if UnitAt(WeightUnits, s, q) {
      var k :| 0 <= k < |WeightUnits| && Bt(Lift(WeightUnits[k]) + [], s, q).Some?;
      assert k == 0 || k == 1 || k == 2 || k == 3 || k == 4;
    }
  }

  /** The height units: `cm`, `meter`, an apostrophe, `ft` or `feet` starts at `q`. */
  lemma {:induction false} HeightUnitsAt(s: string, q: nat)
    requires q <= |s|
    ensures UnitAt(HeightUnits, s, q) <==>
      StartsAt(s, q, "cm") || StartsAt(s, q, "meter") || StartsAt(s, q, "'") ||
      StartsAt(s, q, "ft") || StartsAt(s, q, "feet")
  {
    BranchesSome(HeightUnits, [], s, q);
    LiteralBranch("cm", s, q);
    OptionalLetterBranch("meter", 's', s, q);
    LiteralBranch("'", s, q);
    LiteralBranch("ft", s, q);
    LiteralBranch("feet", s, q);
    assert HeightUnits[0] == [Str("cm")] && HeightUnits[2] == [Str("'")];
    assert HeightUnits[3] == [Str("ft")] && HeightUnits[4] == [Str("feet")];
    if UnitAt(HeightUnits, s, q) {
      var k :| 0 <= k < |HeightUnits| && Bt(Lift(HeightUnits[k]) + [], s, q).Some?;
      assert k == 0 || k == 1 || k == 2 || k == 3 || k == 4;
    }
  }
}
