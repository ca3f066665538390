/**
 * The history of generated texts, newest first. Each entry keeps the category,
 * the template that was selected, the two generated texts and a copy of the form.
 */
module History {
  import opened Optional
  import opened Seqs
  import opened Categories

  datatype HistoryEntry = HistoryEntry(
    id: string,
    timestamp: int,
    categoryId: string,
    templateName: Option<string>,
    context: string,
    prompts: string,
    formData: map<string, string>)

  /** The stored texts are what the entry's own category and form generate. */
  predicate Consistent(e: HistoryEntry) {
    e.context == ContextOf(e.categoryId, e.formData) && e.prompts == PromptsOf(e.categoryId, e.formData)
  }

  /**
   * The entry `addHistoryEntry` builds from the current state; the id (`generateId()`)
   * and the timestamp (`Date.now()`) are supplied by the caller.
   */
  function NewEntry(id: string, timestamp: int, categoryId: string, selectedTemplate: string,
                    formData: map<string, string>): (e: HistoryEntry)
    ensures e.id == id && e.timestamp == timestamp && e.categoryId == categoryId
    ensures e.templateName.None? <==> selectedTemplate == ""
    ensures e.templateName.Some? ==> e.templateName.value == selectedTemplate
    ensures e.formData == formData
    ensures Consistent(e)
  {
    HistoryEntry(id, timestamp, categoryId, if selectedTemplate == "" then None else Some(selectedTemplate),
                 ContextOf(categoryId, formData), PromptsOf(categoryId, formData), formData)
  }

  /** `entry.templateName || ''`, the template selection a loaded entry restores. */
  function SelectionOf(e: HistoryEntry): string {
    match e.templateName
    case None => ""
    case Some(name) => name
  }

  /** The template selection saved with an entry comes back unchanged when it is loaded. */
  lemma SelectionRoundTrip(id: string, timestamp: int, categoryId: string, selectedTemplate: string,
                           formData: map<string, string>)
    ensures SelectionOf(NewEntry(id, timestamp, categoryId, selectedTemplate, formData)) == selectedTemplate
  {
    var e := NewEntry(id, timestamp, categoryId, selectedTemplate, formData);
    if selectedTemplate != "" {
      assert e.templateName == Some(selectedTemplate);
    }
  }


  /** `history.find((h) => h.id === id)`: the first entry with that id. */
  function FindEntry(h: seq<HistoryEntry>, id: string): (r: Option<HistoryEntry>)
    ensures r.None? <==> forall k :: 0 <= k < |h| ==> h[k].id != id
    ensures r.Some? ==> r.value.id == id
    ensures r.Some? ==> exists k :: (0 <= k < |h| && h[k] == r.value
                                     && forall q :: 0 <= q < k ==> h[q].id != id)
  {
    if h == [] then None
    else if h[0].id == id then Some(h[0])
    else
      var r := FindEntry(h[1..], id);
      if r.Some? then
        var k :| 0 <= k < |h[1..]| && h[1..][k] == r.value
          && forall q :: 0 <= q < k ==> h[1..][q].id != id;
        assert h[k + 1] == r.value;
        assert forall q :: 0 <= q < k + 1 ==> h[q].id != id by {
          forall q | 0 <= q < k + 1 ensures h[q].id != id {
            if q > 0 { assert h[q] == h[1..][q - 1]; }
          }
        }
        r
      else
        r
  }

  /** The newest entry is the one found first under its id. */
  lemma PrependThenFind(h: seq<HistoryEntry>, e: HistoryEntry)
    ensures FindEntry([e] + h, e.id) == Some(e)
  {
  }

  /** `history.filter((h) => h.id !== id)`. */
  function RemoveEntry(h: seq<HistoryEntry>, id: string): seq<HistoryEntry> {
    Filter(h, (x: HistoryEntry) => x.id != id)
  }

  /**
   * A delete keeps exactly the entries with a different id: none with the id remains,
   * and every other entry is kept as often as before.
   */
  lemma RemoveEntryExact(h: seq<HistoryEntry>, id: string)
    ensures forall k :: 0 <= k < |RemoveEntry(h, id)| ==> RemoveEntry(h, id)[k].id != id
    ensures forall x: HistoryEntry :: x.id != id ==> multiset(RemoveEntry(h, id))[x] == multiset(h)[x]
    ensures forall x: HistoryEntry :: x.id == id ==> multiset(RemoveEntry(h, id))[x] == 0
  {
    var keep := (x: HistoryEntry) => x.id != id;
    FilterSound(h, keep);
    forall x ensures multiset(Filter(h, keep))[x] == if keep(x) then multiset(h)[x] else 0 {
      FilterCounts(h, keep, x);
    }
  }

  /** The kept entries stay in their order: deleting from a split history deletes from each part. */
  lemma RemoveEntryConcat(a: seq<HistoryEntry>, b: seq<HistoryEntry>, id: string)
    ensures RemoveEntry(a + b, id) == RemoveEntry(a, id) + RemoveEntry(b, id)
  {
    FilterConcat(a, b, (x: HistoryEntry) => x.id != id);
  }

  /** Deleting an id no entry has changes nothing. */
  lemma RemoveEntryAbsent(h: seq<HistoryEntry>, id: string)
    requires FindEntry(h, id).None?
    ensures RemoveEntry(h, id) == h
  {
  }

  /** Saving an entry under a fresh id and then deleting it gives back the history before. */
  lemma PrependThenRemove(h: seq<HistoryEntry>, e: HistoryEntry)
    requires FindEntry(h, e.id).None?
    ensures RemoveEntry([e] + h, e.id) == h
  {
    RemoveEntryConcat([e], h, e.id);
    assert RemoveEntry([e], e.id) == [] by {
      assert [e][1..] == [];
    }
    RemoveEntryAbsent(h, e.id);
  }
}
