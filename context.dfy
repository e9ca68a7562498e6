/**
  `prepare_context`: the text block describing the user's profile and the
  chosen health category, and the `HEALTH_CATEGORIES` table it reads.
*/
module Context {
  import opened Wrappers
  import opened Profile

  /** The eight health categories and their descriptions. */
  const HealthCategories: map<string, string> := map[
    "general" := "General health advice and wellness tips",
    "nutrition" := "Diet planning, nutrition advice, meal suggestions",
    "fitness" := "Exercise routines, workout plans, fitness tips",
    "mental" := "Mental health, stress management, mindfulness",
    "symptoms" := "Symptom analysis and recommendations",
    "chronic" := "Chronic condition management",
    "sleep" := "Sleep hygiene and improvement tips",
    "emergency" := "Emergency guidance and when to seek help"]

  const Fallback: string := "General health advice"
  const NotSpecified: string := "Not specified"

  /** `HEALTH_CATEGORIES.get(category, 'General health advice')`: always one of the table's descriptions or the fallback. */
  function CategoryDescription(category: string): (d: string)
    ensures d == Fallback || exists k :: k in HealthCategories && HealthCategories[k] == d
  {
    if category in HealthCategories then HealthCategories[category] else Fallback
  }

  /**
    The fallback text is not any category's description, so the description
    is the fallback exactly when the category is unknown; a known category
    gets its own entry.
  */
  lemma CategoryFallback(category: string)
    ensures CategoryDescription(category) == Fallback <==> category !in HealthCategories
    ensures category in HealthCategories ==> CategoryDescription(category) == HealthCategories[category]
  {
    if category in HealthCategories {
      var d := HealthCategories[category];
      assert |d| > |Fallback| by {
        assert category in HealthCategories.Keys;
        assert category == "general" || category == "nutrition" || category == "fitness" ||
          category == "mental" || category == "symptoms" || category == "chronic" ||
          category == "sleep" || category == "emergency";
      }
    }
  }

  /** Python's `sep.join(xs)`. */
  function Join(xs: seq<string>, sep: string): string {
    if xs == [] then ""
    else if |xs| == 1 then xs[0]
    else xs[0] + sep + Join(xs[1..], sep)
  }

  /**
    With a non-empty separator, a join is empty exactly for no items or a
    single empty item.
  */
  lemma JoinEmpty(xs: seq<string>, sep: string)
    requires sep != []
    ensures Join(xs, sep) == "" <==> xs == [] || xs == [""]
  {
  }

  /** `', '.join(xs) or 'Not specified'`. */
  function ListField(xs: seq<string>): string {
    var joined := Join(xs, ", ");
    if joined == "" then NotSpecified else joined
  }

  /** An empty list, or one holding only the empty string, shows as "Not specified"; any other list shows its join. */
  lemma ListFieldShown(xs: seq<string>)
    ensures ListField(xs) == if xs == [] || xs == [""] then NotSpecified else Join(xs, ", ")
    ensures ListField(xs) != ""
  {
    JoinEmpty(xs, ", ");
  }

  /** A scalar present in the profile dictionary, formatted by the f-string: null shows as `None`. */
  function ScalarField(v: Option<string>): string {
    match v
    case None => "None"
    case Some(t) => t
  }

  /** The labels of the seven profile lines, in order. */
  const Labels: seq<string> :=
    ["Age", "Gender", "Weight", "Height", "Medical Conditions", "Allergies", "Medications"]

  /**
    What each profile line shows. A session without a profile reads as the
    empty dictionary, so every line falls back to "Not specified".
  */
  function ProfileValues(profile: Option<Profile>): (vs: seq<string>)
    ensures |vs| == |Labels|
  {
    match profile
    case None => [NotSpecified, NotSpecified, NotSpecified, NotSpecified, NotSpecified, NotSpecified, NotSpecified]
    case Some(p) =>
      [ScalarField(p.age), ScalarField(p.gender), ScalarField(p.weight), ScalarField(p.height),
       ListField(p.conditions), ListField(p.allergies), ListField(p.medications)]
  }

  /** One `    - Label: value` line per label, in order. */
  function ProfileLines(labels: seq<string>, values: seq<string>): string
    requires |labels| == |values|
  {
    if labels == [] then ""
    else "    - " + labels[0] + ": " + values[0] + "\n" + ProfileLines(labels[1..], values[1..])
  }

  /** The two category lines and the indentation that closes the block. */
  function CategoryLines(category: string): string {
    "    Health Category: " + category + "\n    Category Description: " + CategoryDescription(category) + "\n    "
  }

  const Header: string := "\n    User Profile (if available):\n"

  /**
    `prepare_context(category, message)` given the session's profile, if any:
    the block opens with the profile header and ends with the category as
    given and its description, then the closing indentation.
  */
  function PrepareContext(profile: Option<Profile>, category: string): (c: string)
    ensures |c| >= |Header| + |CategoryLines(category)|
    ensures c[..|Header|] == Header
    ensures c[|c| - |CategoryLines(category)|..] == CategoryLines(category)
  {
    Header + ProfileLines(Labels, ProfileValues(profile)) + "    \n" + CategoryLines(category)
  }

  /** The profile block is determined by the lines' values: two equal value lists give equal blocks and back. */
  lemma {:induction false} ProfileLinesInjective(labels: seq<string>, vs: seq<string>, ws: seq<string>)
    requires |labels| == |vs| == |ws|
    requires forall k :: 0 <= k < |vs| ==> '\n' !in vs[k]
    requires forall k :: 0 <= k < |ws| ==> '\n' !in ws[k]
    requires forall k :: 0 <= k < |labels| ==> '\n' !in labels[k]
    ensures ProfileLines(labels, vs) == ProfileLines(labels, ws) <==> vs == ws
  {
    if labels != [] && ProfileLines(labels, vs) == ProfileLines(labels, ws) {
      var a := "    - " + labels[0] + ": " + vs[0] + "\n";
      var b := "    - " + labels[0] + ": " + ws[0] + "\n";
      var ra := ProfileLines(labels[1..], vs[1..]);
      var rb := ProfileLines(labels[1..], ws[1..]);
      assert a + ra == b + rb;
      FirstLineEqual(labels[0], vs[0], ws[0], ra, rb);
      assert ra == rb by {
        assert |a| == |b|;
        assert ra == (a + ra)[|a|..];
        assert rb == (b + rb)[|b|..];
      }
      ProfileLinesInjective(labels[1..], vs[1..], ws[1..]);
      assert vs == [vs[0]] + vs[1..];
      assert ws == [ws[0]] + ws[1..];
    }
  }

  /** The index of the first newline in `s`, or `|s|` when there is none. */
  function NewlineIndex(s: string): (n: nat)
    ensures n <= |s|
  {
    if s == [] || s[0] == '\n' then 0 else 1 + NewlineIndex(s[1..])
  }

  /** A newline after a newline-free text is found right after it. */
  lemma {:induction false} NewlineAfter(v: string, rest: string)
    requires '\n' !in v
    ensures NewlineIndex(v + "\n" + rest) == |v|
  {
    if v != [] {
      assert (v + "\n" + rest)[1..] == v[1..] + "\n" + rest;
      NewlineAfter(v[1..], rest);
    }
  }

  /** Two lines with the same label that start two equal texts carry the same value. */
  lemma FirstLineEqual(name: string, v: string, w: string, ra: string, rb: string)
    requires '\n' !in v && '\n' !in w
    requires ("    - " + name + ": " + v + "\n") + ra == ("    - " + name + ": " + w + "\n") + rb
    ensures v == w
  {
    var pre := "    - " + name + ": ";
    var x := pre + v + "\n" + ra;
    assert x == pre + w + "\n" + rb;
    var y := x[|pre|..];
    assert y == v + "\n" + ra;
    assert y == w + "\n" + rb;
    NewlineAfter(v, ra);
    NewlineAfter(w, rb);
    assert v == y[..|v|];
    assert w == y[..|w|];
  }

  /**
    A session without a profile renders like a profile whose scalars are the
    text "Not specified" and whose lists are empty.
  */
  lemma AbsentProfileLikeUnspecified(category: string)
    ensures PrepareContext(None, category) ==
      PrepareContext(Some(Profile(Some(NotSpecified), Some(NotSpecified), Some(NotSpecified), Some(NotSpecified), [], [], [])), category)
  {
    ListFieldShown([]);
  }

  /** No item of `xs` holds a newline. */
  predicate NewlineFree(xs: seq<string>) {
    forall k :: 0 <= k < |xs| ==> '\n' !in xs[k]
  }

  /** The initialised profile's scalars are present with null, so they show `None`; its empty lists show "Not specified". */
  lemma DefaultProfileValues()
    ensures ProfileValues(Some(DefaultProfile)) ==
      ["None", "None", "None", "None", NotSpecified, NotSpecified, NotSpecified]
  {
    ListFieldShown([]);
  }

  /** The labels and the two value lists compared below are single-line texts. */
  lemma SingleLineTexts()
    ensures NewlineFree(Labels)
    ensures NewlineFree(["None", "None", "None", "None", NotSpecified, NotSpecified, NotSpecified])
    ensures NewlineFree(ProfileValues(None))
  {
  }

  /**
    The initialised profile does not render like a missing one: its keys are
    present with null, so its scalar lines show `None` where a missing
    profile shows "Not specified".
  */
  lemma DefaultProfileShowsNone(category: string)
    ensures PrepareContext(Some(DefaultProfile), category) != PrepareContext(None, category)
  {
    DefaultProfileValues();
    SingleLineTexts();
    var vs := ProfileValues(Some(DefaultProfile));
    var ws := ProfileValues(None);
    assert vs[0] != ws[0];
    ProfileLinesInjective(Labels, vs, ws);
    var tail := "    \n" + CategoryLines(category);
    var a := Header + ProfileLines(Labels, vs);
    var b := Header + ProfileLines(Labels, ws);
    assert (a + tail)[..|a|] == a;
    assert (b + tail)[..|b|] == b;
  }
}
