/**
  The part of Python's `re` module that the profile extractor relies on: a
  backtracking matcher for a small fragment of regular-expression syntax, and
  `re.search` on top of it.

  The fragment is what the three extraction patterns use:
  - literal strings (`kg`, `years`, `'`),
  - greedy repetition of one character class (`\d+`, `\s*`, `\d*`, `'?`, `s?`),
  - a non-capturing alternation whose branches are made of the two above
    (`(?:cm|meters?|'|ft|feet)`), tried from left to right,
  - the two ends of a capture group.

  Matching follows the order in which Python's engine explores choices: a
  greedy repeat first takes as many characters as it can and gives them back
  one at a time, an alternation tries its branches in order, and the first
  complete path wins. `Search` tries start positions from left to right, so the
  match it reports is the leftmost one.
*/
module Regex {
  import opened Wrappers

  /** ASCII decimal digits (`\d`). */
  predicate IsDigit(c: char) {
    '0' <= c <= '9'
  }

  /** The characters Python's `\s` matches in a str pattern. */
  predicate IsSpace(c: char) {
    || ('\t' <= c <= '\r')
    || ('\U{1c}' <= c <= '\U{1f}')
    || c == ' '
    || c == '\U{85}'
    || c == '\U{a0}'
    || c == '\U{1680}'
    || ('\U{2000}' <= c <= '\U{200a}')
    || c == '\U{2028}'
    || c == '\U{2029}'
    || c == '\U{202f}'
    || c == '\U{205f}'
    || c == '\U{3000}'
  }

  datatype CharClass = Digit | Space | Exactly(c: char)

  predicate InClass(cls: CharClass, c: char) {
    match cls
    case Digit => IsDigit(c)
    case Space => IsSpace(c)
    case Exactly(d) => c == d
  }

  /** What a branch of an alternation is made of. */
  datatype Atom =
    | Str(w: string)
      /** Greedy `cls{min,max}`; `max == None` is unbounded (`*`, `+`). */
    | Repeat(cls: CharClass, min: nat, max: Option<nat>)

  datatype Node =
    | One(atom: Atom)
      /** `(?:b1|b2|...)`, the branches tried from left to right. */
    | Alt(branches: seq<seq<Atom>>)
      /** The opening and the closing parenthesis of a capture group. */
    | Open
    | Close

  type Pattern = seq<Node>

  /** A branch of an alternation as a pattern of its own. */
  function Lift(b: seq<Atom>): (p: Pattern)
    ensures |p| == |b|
    ensures forall k :: 0 <= k < |b| ==> p[k] == One(b[k])
  {
    if b == [] then [] else [One(b[0])] + Lift(b[1..])
  }

  /** Number of group boundaries a successful path crosses. */
  function Groups(p: Pattern): nat {
    if p == [] then 0
    else (if p[0] == Open || p[0] == Close then 1 else 0) + Groups(p[1..])
  }

  // Termination measure of the matcher: an alternation weighs more than the
  // atoms of all its branches together.

  function BranchWeight(bs: seq<seq<Atom>>): nat {
    if bs == [] then 0 else |bs[0]| + BranchWeight(bs[1..])
  }

  function NodeWeight(n: Node): nat {
    match n
    case Alt(bs) => 1 + BranchWeight(bs)
    case _ => 1
  }

  function Weight(p: Pattern): nat {
    if p == [] then 0 else NodeWeight(p[0]) + Weight(p[1..])
  }

  lemma {:induction false} LiftAppend(b: seq<Atom>, rest: Pattern)
    ensures Weight(Lift(b) + rest) == |b| + Weight(rest)
    ensures Groups(Lift(b) + rest) == Groups(rest)
  {
    if b != [] {
      var q := Lift(b) + rest;
      assert q[0] == One(b[0]);
      assert Lift(b) == [One(b[0])] + Lift(b[1..]);
      assert q[1..] == Lift(b[1..]) + rest;
      LiftAppend(b[1..], rest);
    } else {
      assert Lift(b) + rest == rest;
    }
  }

  /** Number of characters of class `cls` in a row from `pos` on. */
  function Run(cls: CharClass, s: string, pos: nat): (n: nat)
    requires pos <= |s|
    ensures pos + n <= |s|
    decreases |s| - pos
  {
    if pos < |s| && InClass(cls, s[pos]) then 1 + Run(cls, s, pos + 1) else 0
  }

  /** A run holds characters of its class only, and the character after it is not one. */
  lemma {:induction false} RunSpan(cls: CharClass, s: string, pos: nat)
    requires pos <= |s|
    ensures forall k :: pos <= k < pos + Run(cls, s, pos) ==> InClass(cls, s[k])
    ensures pos + Run(cls, s, pos) == |s| || !InClass(cls, s[pos + Run(cls, s, pos)])
    decreases |s| - pos
  {
    if pos < |s| && InClass(cls, s[pos]) {
      RunSpan(cls, s, pos + 1);
    }
  }

  /** The string `w` occurs in `s` at `q`. */
  predicate StartsAt(s: string, q: nat, w: string) {
    q + |w| <= |s| && s[q..q + |w|] == w
  }

  lemma StartsAtConcat(s: string, q: nat, a: string, b: string)
    ensures StartsAt(s, q, a + b) <==> StartsAt(s, q, a) && StartsAt(s, q + |a|, b)
  {
    if q + |a| + |b| <= |s| {
      assert s[q..q + |a| + |b|] == s[q..q + |a|] + s[q + |a|..q + |a| + |b|];
      if s[q..q + |a| + |b|] == a + b {
        assert s[q..q + |a|] == (a + b)[..|a|] == a;
        assert s[q + |a|..q + |a| + |b|] == (a + b)[|a|..] == b;
      }
    }
  }

  function Cap(n: nat, max: Option<nat>): nat {
    match max
    case None => n
    case Some(m) => if n <= m then n else m
  }

  /** The positions `m` holds lie in `lo..hi` and never decrease. */
  predicate Marks(m: seq<nat>, lo: nat, hi: nat) {
    && (forall k :: 0 <= k < |m| ==> lo <= m[k] <= hi)
    && (forall j, k :: 0 <= j < k < |m| ==> m[j] <= m[k])
  }

  function Mark(pos: nat, r: Option<seq<nat>>): Option<seq<nat>> {
    match r
    case None => None
    case Some(m) => Some([pos] + m)
  }

  /**
    Matches `p` against `s` from `pos`. The result is the list of positions at
    which the first successful path crossed a group boundary, or `None` when no
    path succeeds.
  */
  function Bt(p: Pattern, s: string, pos: nat): (r: Option<seq<nat>>)
    requires pos <= |s|
    ensures r.Some? ==> Marks(r.value, pos, |s|) && |r.value| == Groups(p)
    decreases Weight(p), 0, 0
  {
    if p == [] then Some([])
    else match p[0]
      case Open => Mark(pos, Bt(p[1..], s, pos))
      case Close => Mark(pos, Bt(p[1..], s, pos))
      case Alt(bs) => TryBranches(bs, p[1..], s, pos)
      case One(Str(w)) =>
        if StartsAt(s, pos, w) then Bt(p[1..], s, pos + |w|) else None
      case One(Repeat(cls, min, max)) =>
        var n := Cap(Run(cls, s, pos), max);
        if n < min then None else TryCounts(p[1..], s, pos, n, min)
  }

  /** A greedy repeat that could take `n` characters: try `rest` after `n`, `n - 1`, ..., `min` of them. */
  function TryCounts(rest: Pattern, s: string, pos: nat, n: nat, min: nat): (r: Option<seq<nat>>)
    requires min <= n && pos + n <= |s|
    ensures r.Some? ==> Marks(r.value, pos, |s|) && |r.value| == Groups(rest)
    decreases Weight(rest), 1, n
  {
    var r := Bt(rest, s, pos + n);
    if r.Some? then r
    else if n == min then None
    else TryCounts(rest, s, pos, n - 1, min)
  }

  /** An alternation followed by `rest`: the first branch with which the whole path succeeds. */
  function TryBranches(bs: seq<seq<Atom>>, rest: Pattern, s: string, pos: nat): (r: Option<seq<nat>>)
    requires pos <= |s|
    ensures r.Some? ==> Marks(r.value, pos, |s|) && |r.value| == Groups(rest)
    decreases Weight(rest) + BranchWeight(bs), 1, |bs|
  {
    if bs == [] then None
    else
      LiftAppend(bs[0], rest);
      var r := Bt(Lift(bs[0]) + rest, s, pos);
      if r.Some? then r else TryBranches(bs[1..], rest, s, pos)
  }

  datatype Found = Found(start: nat, marks: seq<nat>)

  /** `re.search`: the match found at the first start position, from `from` on, where one exists. */
  function Search(p: Pattern, s: string, from: nat): (r: Option<Found>)
    requires from <= |s|
    ensures r.Some? ==> from <= r.value.start <= |s| && Bt(p, s, r.value.start) == Some(r.value.marks)
    ensures r.Some? ==> forall j :: from <= j < r.value.start ==> Bt(p, s, j).None?
    ensures r.None? ==> forall j :: from <= j <= |s| ==> Bt(p, s, j).None?
    decreases |s| - from
  {
    match Bt(p, s, from)
    case Some(m) => Some(Found(from, m))
    case None => if from == |s| then None else Search(p, s, from + 1)
  }

  /**
    `re.search(p, s).group(1)`: `None` when there is no match (or, for a
    pattern without a group, no group to report).
  */
  function FirstGroup(p: Pattern, s: string): (r: Option<string>)
    ensures Groups(p) >= 2 ==> (r.Some? <==> Search(p, s, 0).Some?)
    ensures r.Some? ==> exists f :: Search(p, s, 0) == Some(f) && |f.marks| >= 2 && r.value == s[f.marks[0]..f.marks[1]]
  {
    match Search(p, s, 0)
    case None => None
    case Some(f) => if |f.marks| >= 2 then Some(s[f.marks[0]..f.marks[1]]) else None
  }

  // Generic facts about the matcher used by the characterisations of the
  // extraction patterns.

  /**
    When `rest` fails after every count below `n`, the repeat's only chance
    is its greediest count.
  */
  lemma {:induction false} OnlyGreediest(rest: Pattern, s: string, pos: nat, n: nat, min: nat)
    requires min <= n && pos + n <= |s|
    requires forall j :: pos + min <= j < pos + n ==> Bt(rest, s, j).None?
    ensures TryCounts(rest, s, pos, n, min) == Bt(rest, s, pos + n)
    decreases n
  {
    if Bt(rest, s, pos + n).None? && n > min {
      OnlyGreediest(rest, s, pos, n - 1, min);
    }
  }

  /** An optional character `c?`: tried present first, then absent. */
  lemma {:induction false} OptionalCharAt(c: char, rest: Pattern, s: string, q: nat)
    requires q <= |s|
    ensures Bt([One(Repeat(Exactly(c), 0, Some(1)))] + rest, s, q) ==
      if q < |s| && s[q] == c && Bt(rest, s, q + 1).Some? then Bt(rest, s, q + 1) else Bt(rest, s, q)
  {
    var p := [One(Repeat(Exactly(c), 0, Some(1)))] + rest;
    assert p[1..] == rest;
    assert TryCounts(rest, s, q, 0, 0) == Bt(rest, s, q);
    if q < |s| && s[q] == c {
      assert Run(Exactly(c), s, q) >= 1;
      assert Bt(p, s, q) == TryCounts(rest, s, q, 1, 0);
    } else {
      assert Run(Exactly(c), s, q) == 0;
      assert Bt(p, s, q) == TryCounts(rest, s, q, 0, 0);
    }
  }

  /** Every branch starts with a non-empty literal string. */
  predicate LiteralLed(bs: seq<seq<Atom>>) {
    forall k :: 0 <= k < |bs| ==> |bs[k]| > 0 && bs[k][0].Str? && |bs[k][0].w| > 0
  }

  /** Some branch's leading literal starts with `c`. */
  predicate LeadsWith(bs: seq<seq<Atom>>, c: char) {
    exists k :: 0 <= k < |bs| && |bs[k]| > 0 && bs[k][0].Str? && |bs[k][0].w| > 0 && bs[k][0].w[0] == c
  }

  /** An alternation of literal-led branches fails where no branch's first character stands. */
  lemma {:induction false} BranchesFail(bs: seq<seq<Atom>>, rest: Pattern, s: string, pos: nat)
    requires pos <= |s| && LiteralLed(bs)
    requires pos < |s| ==> !LeadsWith(bs, s[pos])
    ensures TryBranches(bs, rest, s, pos).None?
  {
    if bs != [] {
      var b := bs[0];
      assert (Lift(b) + rest)[0] == One(b[0]);
      if pos < |s| {
        assert b[0].w[0] != s[pos] by { assert !(bs[0][0].w[0] == s[pos]); }
      }
      BranchesFail(bs[1..], rest, s, pos);
    }
  }

  /** An alternation succeeds exactly when one of its branches, followed by `rest`, does. */
  lemma {:induction false} BranchesSome(bs: seq<seq<Atom>>, rest: Pattern, s: string, pos: nat)
    requires pos <= |s|
    ensures TryBranches(bs, rest, s, pos).Some? <==>
      exists k :: 0 <= k < |bs| && Bt(Lift(bs[k]) + rest, s, pos).Some?
    decreases |bs|
  {
    if bs != [] {
      BranchesSome(bs[1..], rest, s, pos);
      if Bt(Lift(bs[0]) + rest, s, pos).None? {
        if exists k :: 0 <= k < |bs| && Bt(Lift(bs[k]) + rest, s, pos).Some? {
          var k :| 0 <= k < |bs| && Bt(Lift(bs[k]) + rest, s, pos).Some?;
          assert bs[1..][k - 1] == bs[k];
        }
      }
    }
  }

  /** Inside a run, the run continues to the same end. */
  lemma {:induction false} RunFrom(cls: CharClass, s: string, pos: nat, k: nat)
    requires pos <= |s| && k <= Run(cls, s, pos)
    ensures pos + k + Run(cls, s, pos + k) == pos + Run(cls, s, pos)
    decreases k
  {
    if k > 0 {
      RunFrom(cls, s, pos + 1, k - 1);
    }
  }

  /** The first start position with a match decides `re.search`. */
  lemma {:induction false} SearchFindsFirst(p: Pattern, s: string, from: nat, i: nat)
    requires from <= i <= |s|
    requires forall j :: from <= j < i ==> Bt(p, s, j).None?
    requires Bt(p, s, i).Some?
    ensures Search(p, s, from) == Some(Found(i, Bt(p, s, i).value))
    decreases i - from
  {
    if from < i {
      SearchFindsFirst(p, s, from + 1, i);
    }
  }
}
