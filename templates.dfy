/**
 * Saved field sets ("templates"): each is a named copy of the form, filed under
 * the category it was saved for. A name is unique within its category.
 */
module Templates {
  import opened Optional
  import opened Seqs

  datatype Template = Template(name: string, categoryId: string, data: map<string, string>)

  /** `t.name === name && t.categoryId === categoryId`. */
  predicate Matches(t: Template, name: string, categoryId: string) {
    t.name == name && t.categoryId == categoryId
  }

  /** No two templates share a name within one category. */
  ghost predicate Unique(ts: seq<Template>) {
    forall i, j :: 0 <= i < j < |ts| ==> !Matches(ts[j], ts[i].name, ts[i].categoryId)
  }

  /** `templates.find((t) => t.name === name && t.categoryId === categoryId)`. */
  function Find(ts: seq<Template>, name: string, categoryId: string): (r: Option<Template>)
    ensures r.None? <==> forall k :: 0 <= k < |ts| ==> !Matches(ts[k], name, categoryId)
    ensures r.Some? ==> Matches(r.value, name, categoryId)
    ensures r.Some? ==> exists k :: (0 <= k < |ts| && ts[k] == r.value
                                     && forall q :: 0 <= q < k ==> !Matches(ts[q], name, categoryId))
  {
    if ts == [] then None
    else if Matches(ts[0], name, categoryId) then Some(ts[0])
    else
      var r := Find(ts[1..], name, categoryId);
      if r.Some? then
        var k :| 0 <= k < |ts[1..]| && ts[1..][k] == r.value
          && forall q :: 0 <= q < k ==> !Matches(ts[1..][q], name, categoryId);
        assert ts[k + 1] == r.value;
        assert forall q :: 0 <= q < k + 1 ==> !Matches(ts[q], name, categoryId) by {
          forall q | 0 <= q < k + 1 ensures !Matches(ts[q], name, categoryId) {
            if q > 0 { assert ts[q] == ts[1..][q - 1]; }
          }
        }
        r
      else
        r
  }

  /** Why `saveTemplate` stopped, or that it saved. */
  datatype SaveVerdict = Saved | NoCategory | NameRequired | DuplicateName

  /**
   * The guards of `saveTemplate`, in their order: a category must be selected, the
   * entered name (None when the prompt is cancelled) must be non-empty, and the
   * (name, category) pair must be new.
   */
  function CheckSave(ts: seq<Template>, categoryId: string, name: Option<string>): (v: SaveVerdict)
    ensures v == NoCategory <==> categoryId == ""
    ensures v == NameRequired <==> categoryId != "" && (name.None? || name.value == "")
    ensures v == DuplicateName <==>
      (categoryId != "" && name.Some? && name.value != ""
       && exists k :: 0 <= k < |ts| && Matches(ts[k], name.value, categoryId))
  {
    if categoryId == "" then NoCategory
    else if name.None? || name.value == "" then NameRequired
    else if Find(ts, name.value, categoryId).Some? then DuplicateName
    else Saved
  }

  /** The store after `saveTemplate`: one template appended when the guards pass, no change otherwise. */
  function AfterSave(ts: seq<Template>, categoryId: string, name: Option<string>, data: map<string, string>): (r: seq<Template>)
  {
    if CheckSave(ts, categoryId, name) == Saved then ts + [Template(name.value, categoryId, data)] else ts
  }

  /** A save is rejected, and the store left exactly as it was, iff one of the three guards fails. */
  lemma SaveRejected(ts: seq<Template>, categoryId: string, name: Option<string>, data: map<string, string>)
    ensures CheckSave(ts, categoryId, name) != Saved <==>
      (categoryId == "" || name.None? || name.value == ""
       || exists k :: 0 <= k < |ts| && Matches(ts[k], name.value, categoryId))
    ensures CheckSave(ts, categoryId, name) != Saved ==> AfterSave(ts, categoryId, name, data) == ts
  {
  }

  /** An accepted save appends exactly the new template at the end and keeps every name unique. */
  lemma SaveAppends(ts: seq<Template>, categoryId: string, name: Option<string>, data: map<string, string>)
    requires CheckSave(ts, categoryId, name) == Saved
    ensures var r := AfterSave(ts, categoryId, name, data);
      |r| == |ts| + 1 && r[..|ts|] == ts && r[|ts|] == Template(name.value, categoryId, data)
  {
    var r := AfterSave(ts, categoryId, name, data);
    assert r[..|ts|] == ts;
  }

  /** Saving never breaks uniqueness. */
  lemma SavePreservesUnique(ts: seq<Template>, categoryId: string, name: Option<string>, data: map<string, string>)
    requires Unique(ts)
    ensures Unique(AfterSave(ts, categoryId, name, data))
  {
    if CheckSave(ts, categoryId, name) == Saved {
      var r := AfterSave(ts, categoryId, name, data);
      forall i, j | 0 <= i < j < |r| ensures !Matches(r[j], r[i].name, r[i].categoryId) {
        if j == |ts| {
          assert r[i] == ts[i];
          assert !Matches(ts[i], name.value, categoryId);
        } else {
          assert r[i] == ts[i] && r[j] == ts[j];
        }
      }
    }
  }

  /** Once saved, a template is what `loadTemplate` finds under its name and category. */
  lemma SaveThenFind(ts: seq<Template>, categoryId: string, name: Option<string>, data: map<string, string>)
    requires CheckSave(ts, categoryId, name) == Saved
    ensures Find(AfterSave(ts, categoryId, name, data), name.value, categoryId) == Some(Template(name.value, categoryId, data))
  {
    FindAfterMiss(ts, [Template(name.value, categoryId, data)], name.value, categoryId);
  }

  /** When the first part holds no match, the search finds what it finds in the second part. */
  lemma {:induction false} FindAfterMiss(a: seq<Template>, b: seq<Template>, name: string, categoryId: string)
    requires Find(a, name, categoryId).None?
    ensures Find(a + b, name, categoryId) == Find(b, name, categoryId)
    decreases |a|
  {
    if a == [] {
      assert a + b == b;
    } else {
      assert (a + b)[0] == a[0];
      assert (a + b)[1..] == a[1..] + b;
      FindAfterMiss(a[1..], b, name, categoryId);
    }
  }

  /** A save leaves every other (name, category) lookup as it was. */
  lemma SaveKeepsOthers(ts: seq<Template>, categoryId: string, name: Option<string>, data: map<string, string>,
                        other: string, otherCategory: string)
    requires CheckSave(ts, categoryId, name) == Saved
    requires other != name.value || otherCategory != categoryId
    ensures Find(AfterSave(ts, categoryId, name, data), other, otherCategory) == Find(ts, other, otherCategory)
  {
    FindAppend(ts, [Template(name.value, categoryId, data)], other, otherCategory);
  }

  lemma {:induction false} FindAppend(a: seq<Template>, b: seq<Template>, name: string, categoryId: string)
    requires forall k :: 0 <= k < |b| ==> !Matches(b[k], name, categoryId)
    ensures Find(a + b, name, categoryId) == Find(a, name, categoryId)
    decreases |a|
  {
    if a == [] {
      assert a + b == b;
    } else {
      assert (a + b)[0] == a[0];
      assert (a + b)[1..] == a[1..] + b;
      FindAppend(a[1..], b, name, categoryId);
    }
  }

  /**
   * The same name under a second category is accepted beside the first, and both
   * are found afterwards, each under its own category.
   */
  lemma SameNameOtherCategory(ts: seq<Template>, name: string, first: string, second: string, data: map<string, string>)
    requires first != second && second != "" && name != ""
    requires Find(ts, name, first).Some? && Find(ts, name, second).None?
    ensures CheckSave(ts, second, Some(name)) == Saved
    ensures Find(AfterSave(ts, second, Some(name), data), name, first) == Find(ts, name, first)
    ensures Find(AfterSave(ts, second, Some(name), data), name, second) == Some(Template(name, second, data))
  {
    SaveKeepsOthers(ts, second, Some(name), data, name, first);
    SaveThenFind(ts, second, Some(name), data);
  }

  /**
   * `deleteTemplate`: with a category selected, every template of that name in that
   * category is dropped; with none selected the store is untouched.
   */
  function Remove(ts: seq<Template>, name: string, categoryId: string): (r: seq<Template>)
  {
    if categoryId == "" then ts else Filter(ts, (t: Template) => !Matches(t, name, categoryId))
  }

  /**
   * A delete drops exactly the matching templates: none remains, every other one is
   * kept as often as before, and nothing new appears.
   */
  lemma RemoveExact(ts: seq<Template>, name: string, categoryId: string)
    requires categoryId != ""
    ensures forall k :: 0 <= k < |Remove(ts, name, categoryId)| ==> !Matches(Remove(ts, name, categoryId)[k], name, categoryId)
    ensures forall t :: !Matches(t, name, categoryId) ==> multiset(Remove(ts, name, categoryId))[t] == multiset(ts)[t]
    ensures forall t :: Matches(t, name, categoryId) ==> multiset(Remove(ts, name, categoryId))[t] == 0
  {
    var keep := (t: Template) => !Matches(t, name, categoryId);
    FilterSound(ts, keep);
    forall t ensures multiset(Filter(ts, keep))[t] == if keep(t) then multiset(ts)[t] else 0 {
      FilterCounts(ts, keep, x := t);
    }
  }

  /** With unique names, deleting the one matching template cuts it out and keeps the rest in order. */
  lemma RemoveAt(ts: seq<Template>, i: nat)
    requires Unique(ts) && i < |ts| && ts[i].categoryId != ""
    ensures Remove(ts, ts[i].name, ts[i].categoryId) == ts[..i] + ts[i + 1..]
  {
    var name, categoryId := ts[i].name, ts[i].categoryId;
    var keep := (t: Template) => !Matches(t, name, categoryId);
    var pre, post := ts[..i], ts[i + 1..];
    assert ts == pre + [ts[i]] + post;
    forall k | 0 <= k < |pre| ensures keep(pre[k]) {
      assert pre[k] == ts[k];
    }
    forall k | 0 <= k < |post| ensures keep(post[k]) {
      assert post[k] == ts[i + 1 + k];
    }
    FilterCutOne(pre, ts[i], post, keep);
  }

  /** Deleting a (name, category) pair that no template has changes nothing. */
  lemma RemoveAbsent(ts: seq<Template>, name: string, categoryId: string)
    requires Find(ts, name, categoryId).None?
    ensures Remove(ts, name, categoryId) == ts
  {
    if categoryId != "" {
      FilterAll(ts, (t: Template) => !Matches(t, name, categoryId));
    }
  }

  /** After a delete, the pair is no longer found. */
  lemma RemoveThenFind(ts: seq<Template>, name: string, categoryId: string)
    requires categoryId != ""
    ensures Find(Remove(ts, name, categoryId), name, categoryId).None?
  {
    RemoveExact(ts, name, categoryId);
  }

  /** Dropping templates keeps the rest unique. */
  lemma {:induction false} FilterPreservesUnique(ts: seq<Template>, keep: Template -> bool)
    requires Unique(ts)
    ensures Unique(Filter(ts, keep))
    decreases |ts|
  {
    if ts != [] {
      var tail := ts[1..];
      assert Unique(tail) by {
        forall i, j | 0 <= i < j < |tail| ensures !Matches(tail[j], tail[i].name, tail[i].categoryId) {
          assert tail[i] == ts[i + 1] && tail[j] == ts[j + 1];
        }
      }
      FilterPreservesUnique(tail, keep);
      var rest := Filter(tail, keep);
      FilterSound(tail, keep);
      if keep(ts[0]) {
        var r := [ts[0]] + rest;
        forall i, j | 0 <= i < j < |r| ensures !Matches(r[j], r[i].name, r[i].categoryId) {
          if i == 0 {
            assert r[j] == rest[j - 1];
            var q :| 0 <= q < |tail| && tail[q] == rest[j - 1];
            assert ts[q + 1] == rest[j - 1];
          } else {
            assert r[i] == rest[i - 1] && r[j] == rest[j - 1];
          }
        }
      }
    }
  }

  /** Deleting never breaks uniqueness. */
  lemma RemovePreservesUnique(ts: seq<Template>, name: string, categoryId: string)
    requires Unique(ts)
    ensures Unique(Remove(ts, name, categoryId))
  {
    if categoryId != "" {
      FilterPreservesUnique(ts, (t: Template) => !Matches(t, name, categoryId));
    }
  }

  /** `templates.filter((t) => t.categoryId === categoryId)`, the dropdown's entries. */
  function ListFor(ts: seq<Template>, categoryId: string): (r: seq<Template>)
  {
    Filter(ts, (t: Template) => t.categoryId == categoryId)
  }

  /** The dropdown lists every template of the category, only those, and no name twice. */
  lemma ListForDistinct(ts: seq<Template>, categoryId: string)
    requires Unique(ts)
    ensures forall k :: 0 <= k < |ts| && ts[k].categoryId == categoryId ==> ts[k] in ListFor(ts, categoryId)
    ensures forall k :: 0 <= k < |ListFor(ts, categoryId)| ==> ListFor(ts, categoryId)[k].categoryId == categoryId
    ensures forall i, j :: 0 <= i < j < |ListFor(ts, categoryId)| ==>
      ListFor(ts, categoryId)[i].name != ListFor(ts, categoryId)[j].name
  {
    var r := ListFor(ts, categoryId);
    FilterSound(ts, (t: Template) => t.categoryId == categoryId);
    FilterComplete(ts, (t: Template) => t.categoryId == categoryId);
    FilterPreservesUnique(ts, (t: Template) => t.categoryId == categoryId);
    forall i, j | 0 <= i < j < |r| ensures r[i].name != r[j].name {
      assert !Matches(r[j], r[i].name, r[i].categoryId);
    }
  }
}
