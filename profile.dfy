/**
  The user profile kept in the session and the patch merge of
  `update_user_profile`: seven fields, each replaced by the patch's value when
  the patch has that key and kept otherwise.
*/
module Profile {
  import opened Wrappers

  /**
    The seven-field profile. Scalars are already-rendered text, `None` standing
    for JSON null; the three list fields hold their items.
  */
  datatype Profile = Profile(
    age: Option<string>,
    gender: Option<string>,
    weight: Option<string>,
    height: Option<string>,
    conditions: seq<string>,
    allergies: seq<string>,
    medications: seq<string>)

  /** The profile `initialize_session` creates: null scalars and empty lists. */
  const DefaultProfile: Profile := Profile(None, None, None, None, [], [], [])

  /** A JSON value stored under a profile key: a scalar (possibly null) or a list of strings. */
  datatype Value = Scalar(text: Option<string>) | Items(items: seq<string>)

  /** The request's `profile_data`: a dictionary that may hold any keys. */
  type Patch = map<string, Value>

  const ScalarKeys: set<string> := {"age", "gender", "weight", "height"}
  const ListKeys: set<string> := {"conditions", "allergies", "medications"}
  const ProfileKeys: set<string> := ScalarKeys + ListKeys

  /** The patch gives each profile key a value of that key's kind. */
  predicate WellTyped(patch: Patch) {
    forall k :: k in patch ==>
      (k in ScalarKeys ==> patch[k].Scalar?) && (k in ListKeys ==> patch[k].Items?)
  }

  /** The profile read as the dictionary the session stores. */
  function Field(p: Profile, key: string): Value
    requires key in ProfileKeys
  {
    match key
    case "age" => Scalar(p.age)
    case "gender" => Scalar(p.gender)
    case "weight" => Scalar(p.weight)
    case "height" => Scalar(p.height)
    case "conditions" => Items(p.conditions)
    case "allergies" => Items(p.allergies)
    case _ => Items(p.medications)
  }

  function ScalarAt(p: Profile, patch: Patch, key: string): Option<string>
    requires WellTyped(patch) && key in ScalarKeys
  {
    if key in patch then patch[key].text else Field(p, key).text
  }

  function ItemsAt(p: Profile, patch: Patch, key: string): seq<string>
    requires WellTyped(patch) && key in ListKeys
  {
    if key in patch then patch[key].items else Field(p, key).items
  }

  /** `update_user_profile`: the profile after `.update` with the seven looked-up values. */
  function Merged(p: Profile, patch: Patch): (r: Profile)
    requires WellTyped(patch)
    ensures patch == map[] ==> r == p
  {
    Profile(
      ScalarAt(p, patch, "age"), ScalarAt(p, patch, "gender"),
      ScalarAt(p, patch, "weight"), ScalarAt(p, patch, "height"),
      ItemsAt(p, patch, "conditions"), ItemsAt(p, patch, "allergies"),
      ItemsAt(p, patch, "medications"))
  }

  /**
    Last write wins, key by key: each of the seven fields of the merged
    profile is the patch's value when the patch has the key, null and empty
    lists included, and the current value otherwise.
  */
  lemma MergedField(p: Profile, patch: Patch, key: string)
    requires WellTyped(patch) && key in ProfileKeys
    ensures Field(Merged(p, patch), key) == if key in patch then patch[key] else Field(p, key)
  {
    assert key in ScalarKeys || key in ListKeys;
  }

  /** Keys other than the seven are ignored: dropping them changes nothing. */
  lemma MergeIgnoresOtherKeys(p: Profile, patch: Patch)
    requires WellTyped(patch)
    ensures var known := map k | k in patch && k in ProfileKeys :: patch[k];
      WellTyped(known) && Merged(p, known) == Merged(p, patch)
  {
  }

  /** Two profiles that agree on the seven keys are equal. */
  lemma FieldsDetermine(p: Profile, q: Profile)
    requires forall key :: key in ProfileKeys ==> Field(p, key) == Field(q, key)
    ensures p == q
  {
  }

  /** Applying the same patch twice is the same as applying it once. */
  lemma MergeIdempotent(p: Profile, patch: Patch)
    requires WellTyped(patch)
    ensures Merged(Merged(p, patch), patch) == Merged(p, patch)
  {
    var once := Merged(p, patch);
    forall key | key in ProfileKeys
      ensures Field(Merged(once, patch), key) == Field(once, key)
    {
      MergedField(once, patch, key);
      MergedField(p, patch, key);
    }
    FieldsDetermine(Merged(once, patch), once);
  }

  /**
    Two successive updates are one update with the union of the patches, the
    later patch winning where both have a key (Dafny's `x + y` on maps).
  */
  lemma MergeCompose(p: Profile, x: Patch, y: Patch)
    requires WellTyped(x) && WellTyped(y)
    ensures WellTyped(x + y)
    ensures Merged(Merged(p, x), y) == Merged(p, x + y)
  {
    var r := Merged(p, x);
    forall key | key in ProfileKeys
      ensures Field(Merged(r, y), key) == Field(Merged(p, x + y), key)
    {
      MergedField(r, y, key);
      MergedField(p, x, key);
      MergedField(p, x + y, key);
    }
    FieldsDetermine(Merged(r, y), Merged(p, x + y));
  }

  /** A patch that has all seven keys determines the result: the current profile is forgotten. */
  lemma MergeFull(p: Profile, q: Profile, patch: Patch)
    requires WellTyped(patch) && ProfileKeys <= patch.Keys
    ensures Merged(p, patch) == Merged(q, patch)
  {
    forall key | key in ProfileKeys
      ensures Field(Merged(p, patch), key) == Field(Merged(q, patch), key)
    {
      MergedField(p, patch, key);
      MergedField(q, patch, key);
    }
    FieldsDetermine(Merged(p, patch), Merged(q, patch));
  }

  /** Merging a profile's own seven fields back into any profile reproduces it. */
  lemma MergeOwnFields(p: Profile, q: Profile)
    ensures var own := map k | k in ProfileKeys :: Field(q, k);
      WellTyped(own) && Merged(p, own) == q
  {
    var own := map k | k in ProfileKeys :: Field(q, k);
    forall key | key in ProfileKeys
      ensures Field(Merged(p, own), key) == Field(q, key)
    {
      MergedField(p, own, key);
    }
    FieldsDetermine(Merged(p, own), q);
  }
}
