/**
 * The category field reset: a copy of the form in which every field of one
 * category is set to the empty string, one field at a time.
 */
module FormData {
  import opened Optional
  import opened Categories

  /** The form after the fields named in `names` are blanked; every other entry is kept. */
  function Cleared(prev: map<string, string>, names: set<string>): (r: map<string, string>)
    ensures r.Keys == prev.Keys + names
    ensures forall key :: key in names ==> r[key] == ""
    ensures forall key :: key in prev && key !in names ==> r[key] == prev[key]
  {
    map key | key in prev.Keys + names :: if key in names then "" else prev[key]
  }

  /** The names of a prefix grow by one name per field. */
  lemma FieldNamesSnoc(fields: seq<Field>, i: nat)
    requires i < |fields|
    ensures FieldNames(fields[..i + 1]) == FieldNames(fields[..i]) + {fields[i].name}
  {
    assert forall k :: 0 <= k < i ==> fields[..i + 1][k] == fields[..i][k];
    assert fields[..i + 1][i] == fields[i];
  }

  /**
   * `const resetData = { ...prev }; cat.fields.forEach((f) => (resetData[f.name] = ''))`:
   * the copied form with the given fields blanked.
   */
  method ResetFields(prev: map<string, string>, fields: seq<Field>) returns (reset: map<string, string>)
    ensures reset == Cleared(prev, FieldNames(fields))
  {
    reset := prev;
    var i := 0;
    while i < |fields|
      invariant 0 <= i <= |fields|
      invariant reset.Keys == prev.Keys + FieldNames(fields[..i])
      invariant forall key :: key in reset ==>
        reset[key] == if key in FieldNames(fields[..i]) then "" else prev[key]
    {
      FieldNamesSnoc(fields, i);
      reset := reset[fields[i].name := ""];
      i := i + 1;
    }
    assert fields[..i] == fields;
  }

  /** Blanking the same fields twice is blanking them once. */
  lemma ClearedIdempotent(prev: map<string, string>, names: set<string>)
    ensures Cleared(Cleared(prev, names), names) == Cleared(prev, names)
  {
  }

  /** Blanking fields a template does not read leaves its text unchanged. */
  lemma ClearedElsewhere(ps: seq<Piece>, prev: map<string, string>, names: set<string>)
    requires SlotKeys(ps) !! names
    ensures Generate(ps, Cleared(prev, names)) == Generate(ps, prev)
  {
    forall k | 0 <= k < |ps| && ps[k].Slot?
      ensures Fill(Cleared(prev, names), ps[k].key, ps[k].placeholder) == Fill(prev, ps[k].key, ps[k].placeholder)
    {
      assert ps[k].key in SlotKeys(ps);
    }
    RenderAgrees(ps, Cleared(prev, names), prev);
  }

  /** Blanking every field a template reads renders it as the empty form does: placeholders only. */
  lemma ClearedBlank(ps: seq<Piece>, prev: map<string, string>, names: set<string>)
    requires SlotKeys(ps) <= names
    ensures Generate(ps, Cleared(prev, names)) == Generate(ps, map[])
  {
    forall k | 0 <= k < |ps| && ps[k].Slot?
      ensures Fill(Cleared(prev, names), ps[k].key, ps[k].placeholder) == Fill(map[], ps[k].key, ps[k].placeholder)
    {
      assert ps[k].key in SlotKeys(ps);
    }
    RenderAgrees(ps, Cleared(prev, names), map[]);
  }

  /**
   * After the reset for a shipped category, its context and prompts show every
   * placeholder, whatever the form held before.
   */
  lemma ResetShowsPlaceholders(c: Category, prev: map<string, string>)
    requires c in Registry
    ensures GenerateContext(c, Cleared(prev, FieldNames(c.fields))) == GenerateContext(c, map[])
    ensures GeneratePrompts(c, Cleared(prev, FieldNames(c.fields))) == GeneratePrompts(c, map[])
  {
    RegistryWellFormed();
    ClearedBlank(ContextPieces(c), prev, FieldNames(c.fields));
    ClearedBlank(PromptPieces(c), prev, FieldNames(c.fields));
  }

  /** The two shipped categories share no field name. */
  lemma RegistryFieldsDisjoint()
    ensures FieldNames(AppFields) !! FieldNames(BusinessFields)
  {
    forall k, q | 0 <= k < |AppFields| && 0 <= q < |BusinessFields|
      ensures AppFields[k].name != BusinessFields[q].name
    {
    }
  }

  /**
   * Resetting one shipped category leaves the other category's context and prompts
   * exactly as they were.
   */
  lemma ResetKeepsOtherCategory(c: Category, d: Category, prev: map<string, string>)
    requires c in Registry && d in Registry && c != d
    ensures GenerateContext(d, Cleared(prev, FieldNames(c.fields))) == GenerateContext(d, prev)
    ensures GeneratePrompts(d, Cleared(prev, FieldNames(c.fields))) == GeneratePrompts(d, prev)
  {
    ForeignKeys(c, d);
    ClearedElsewhere(ContextPieces(d), prev, FieldNames(c.fields));
    ClearedElsewhere(PromptPieces(d), prev, FieldNames(c.fields));
  }

  /** The templates of one shipped category read none of the other category's fields. */
  lemma ForeignKeys(c: Category, d: Category)
    requires c in Registry && d in Registry && c != d
    ensures SlotKeys(ContextPieces(d)) !! FieldNames(c.fields)
    ensures SlotKeys(PromptPieces(d)) !! FieldNames(c.fields)
  {
    RegistryFieldsDisjoint();
    if c == AppDevelopment {
      assert d == BusinessBuilding;
      BusinessBuildingWellFormed();
    } else {
      assert c == BusinessBuilding && d == AppDevelopment;
      AppDevelopmentWellFormed();
    }
  }
}
