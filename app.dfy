/**
 * The generator's state and its handlers: the selected category, the form, the
 * template and history stores, the two selections, and the completion panel.
 * Every handler is modelled on the path where the user confirms its dialog.
 */
module Workspace {
  import opened Optional
  import opened Text
  import opened Categories
  import opened FormData
  import opened Templates
  import opened History
  import opened Completion

  /**
   * The form after the category-change effect, as that effect would compute it from
   * `prev`: the fields of the category are blanked when the id names one.
   */
  function EffectForm(categoryId: string, prev: map<string, string>): (r: map<string, string>)
    ensures FindCategory(categoryId).None? ==> r == prev
    ensures FindCategory(categoryId).Some? ==> r == Cleared(prev, FieldNames(FindCategory(categoryId).value.fields))
  {
    if categoryId == "" then prev
    else
      match FindCategory(categoryId)
      case None => prev
      case Some(cat) => Cleared(prev, FieldNames(cat.fields))
  }

  /**
   * The form `loadHistoryEntry` leaves behind as written: when the entry's category
   * differs from the current one, the category-change effect runs after the entry's
   * form is set and blanks that category's fields.
   */
  function FormAfterLoadAsWritten(currentCategory: string, e: HistoryEntry): map<string, string> {
    if e.categoryId != currentCategory then EffectForm(e.categoryId, e.formData) else e.formData
  }

  /** The reset both the effect and `deleteTemplate` run: the named category's fields, blanked one by one. */
  method ResetCategory(categoryId: string, prev: map<string, string>) returns (r: map<string, string>)
    ensures r == EffectForm(categoryId, prev)
  {
    r := prev;
    if categoryId != "" {
      var cat := FindCategory(categoryId);
      if cat.Some? {
        r := ResetFields(prev, cat.value.fields);
      }
    }
  }

  class App {
    var categoryId: string
    var formData: map<string, string>
    var templates: seq<Template>
    var selectedTemplate: string
    var history: seq<HistoryEntry>
    var selectedHistoryId: Option<string>
    var aiResult: string
    var aiError: Option<string>

    /** `generateContext`: the selected category's context, or "" when none is selected. */
    function Context(): string
      reads this
    {
      ContextOf(categoryId, formData)
    }

    /** `generatePrompts`: the selected category's prompts, or "" when none is selected. */
    function Prompts(): string
      reads this
    {
      PromptsOf(categoryId, formData)
    }

    /** The first render: nothing selected, every field empty; the stores come from storage. */
    constructor(storedTemplates: seq<Template>, storedHistory: seq<HistoryEntry>)
      ensures categoryId == "" && formData == EmptyData()
      ensures templates == storedTemplates && history == storedHistory
      ensures selectedTemplate == "" && selectedHistoryId == None
      ensures aiResult == "" && aiError == None
    {
      categoryId := "";
      formData := EmptyData();
      templates := storedTemplates;
      selectedTemplate := "";
      history := storedHistory;
      selectedHistoryId := None;
      aiResult := "";
      aiError := None;
    }

    /** The effect keyed on `categoryId`: clear both selections, reset the category's fields. */
    method CategoryEffect()
      modifies this
      ensures categoryId == old(categoryId) && templates == old(templates) && history == old(history)
      ensures aiResult == old(aiResult) && aiError == old(aiError)
      ensures selectedTemplate == "" && selectedHistoryId == None
      ensures formData == EffectForm(categoryId, old(formData))
    {
      selectedTemplate := "";
      selectedHistoryId := None;
      formData := ResetCategory(categoryId, formData);
    }

    /** Choosing a category in the selector; the effect runs only when the id changes. */
    method SelectCategory(id: string)
      modifies this
      ensures categoryId == id && templates == old(templates) && history == old(history)
      ensures aiResult == old(aiResult) && aiError == old(aiError)
      ensures id == old(categoryId) ==>
        formData == old(formData) && selectedTemplate == old(selectedTemplate) && selectedHistoryId == old(selectedHistoryId)
      ensures id != old(categoryId) ==>
        formData == EffectForm(id, old(formData)) && selectedTemplate == "" && selectedHistoryId == None
    {
      if id != categoryId {
        categoryId := id;
        CategoryEffect();
      }
    }

    /** `handleInputChange`: one field takes the typed value; selections and the completion clear. */
    method InputChange(name: string, value: string)
      modifies this
      ensures formData == old(formData)[name := value]
      ensures categoryId == old(categoryId) && templates == old(templates) && history == old(history)
      ensures selectedTemplate == "" && selectedHistoryId == None
      ensures aiResult == "" && aiError == None
    {
      formData := formData[name := value];
      selectedHistoryId := None;
      selectedTemplate := "";
      aiResult := "";
      aiError := None;
    }

    /**
     * `saveTemplate` with `name` the answer to the name prompt (None when cancelled):
     * on success the form is appended under the current category and becomes the
     * selection; on any rejection nothing changes.
     */
    method SaveTemplate(name: Option<string>) returns (verdict: SaveVerdict)
      modifies this
      ensures verdict == CheckSave(old(templates), categoryId, name)
      ensures templates == AfterSave(old(templates), categoryId, name, formData)
      ensures verdict == Saved ==> selectedTemplate == name.value
      ensures verdict != Saved ==> templates == old(templates) && selectedTemplate == old(selectedTemplate)
      ensures Unique(old(templates)) ==> Unique(templates)
      ensures categoryId == old(categoryId) && formData == old(formData) && history == old(history)
      ensures selectedHistoryId == old(selectedHistoryId) && aiResult == old(aiResult) && aiError == old(aiError)
    {
      verdict := CheckSave(templates, categoryId, name);
      if Unique(templates) {
        SavePreservesUnique(templates, categoryId, name, formData);
      }
      if verdict == Saved {
        templates := templates + [Template(name.value, categoryId, formData)];
        selectedTemplate := name.value;
      }
    }

    /** `loadTemplate`: the template of that name in the current category replaces the form. */
    method LoadTemplate(name: string)
      modifies this
      ensures Find(templates, name, categoryId).Some? ==>
        formData == Find(templates, name, categoryId).value.data && selectedTemplate == name
        && selectedHistoryId == None && aiResult == "" && aiError == None
      ensures Find(templates, name, categoryId).None? ==>
        formData == old(formData) && selectedTemplate == old(selectedTemplate)
        && selectedHistoryId == old(selectedHistoryId) && aiResult == old(aiResult) && aiError == old(aiError)
      ensures categoryId == old(categoryId) && templates == old(templates) && history == old(history)
    {
      var t := Find(templates, name, categoryId);
      if t.Some? {
        formData := t.value.data;
        selectedTemplate := name;
        selectedHistoryId := None;
        aiResult := "";
        aiError := None;
      }
    }

    /**
     * `deleteTemplate`, confirmed: the current category's templates of that name go;
     * when it was the selected one, the selection clears and the category's fields reset.
     */
    method DeleteTemplate(name: string)
      modifies this
      ensures templates == Remove(old(templates), name, categoryId)
      ensures Unique(old(templates)) ==> Unique(templates)
      ensures categoryId == "" ==>
        formData == old(formData) && selectedTemplate == old(selectedTemplate)
        && aiResult == old(aiResult) && aiError == old(aiError)
      ensures categoryId != "" ==> aiResult == "" && aiError == None
      ensures categoryId != "" && old(selectedTemplate) == name ==>
        selectedTemplate == "" && formData == EffectForm(categoryId, old(formData))
      ensures old(selectedTemplate) != name ==> selectedTemplate == old(selectedTemplate) && formData == old(formData)
      ensures categoryId == old(categoryId) && history == old(history) && selectedHistoryId == old(selectedHistoryId)
    {
      if Unique(templates) {
        RemovePreservesUnique(templates, name, categoryId);
      }
      if categoryId == "" {
        return;
      }
      templates := Remove(templates, name, categoryId);
      if selectedTemplate == name {
        selectedTemplate := "";
        formData := ResetCategory(categoryId, formData);
      }
      aiResult := "";
      aiError := None;
    }

    /**
     * `addHistoryEntry` with the fresh id and the clock reading supplied: the current
     * texts and a copy of the form go in front of the history. Nothing happens without
     * a category.
     */
    method AddHistoryEntry(id: string, timestamp: int) returns (added: bool)
      modifies this
      ensures added <==> categoryId != ""
      ensures added ==> history == [NewEntry(id, timestamp, categoryId, selectedTemplate, formData)] + old(history)
      ensures !added ==> history == old(history)
      ensures added ==> history[0].context == Context() && history[0].prompts == Prompts()
      ensures categoryId == old(categoryId) && formData == old(formData) && templates == old(templates)
      ensures selectedTemplate == old(selectedTemplate) && selectedHistoryId == old(selectedHistoryId)
      ensures aiResult == old(aiResult) && aiError == old(aiError)
    {
      if categoryId == "" {
        return false;
      }
      history := [NewEntry(id, timestamp, categoryId, selectedTemplate, formData)] + history;
      added := true;
    }

    /**
     * `loadHistoryEntry` as the app intends it: the entry's category, form and template
     * selection come back, and the entry is marked selected.
     */
    method LoadHistoryEntry(id: string)
      modifies this
      ensures FindEntry(history, id).Some? ==>
        var e := FindEntry(history, id).value;
        categoryId == e.categoryId && formData == e.formData && selectedTemplate == SelectionOf(e)
        && selectedHistoryId == Some(id) && aiResult == "" && aiError == None
      ensures FindEntry(history, id).None? ==>
        categoryId == old(categoryId) && formData == old(formData) && selectedTemplate == old(selectedTemplate)
        && selectedHistoryId == old(selectedHistoryId) && aiResult == old(aiResult) && aiError == old(aiError)
      ensures templates == old(templates) && history == old(history)
    {
      var entry := FindEntry(history, id);
      if entry.Some? {
        categoryId := entry.value.categoryId;
        formData := entry.value.formData;
        selectedHistoryId := Some(id);
        selectedTemplate := SelectionOf(entry.value);
        aiResult := "";
        aiError := None;
      }
    }

    /**
     * `loadHistoryEntry` as written: the same updates, after which the category-change
     * effect runs whenever the entry's category differs from the current one, clearing
     * both selections and blanking the loaded fields of that category.
     */
    method LoadHistoryEntryAsWritten(id: string)
      modifies this
      ensures FindEntry(history, id).Some? ==>
        var e := FindEntry(history, id).value;
        categoryId == e.categoryId && formData == FormAfterLoadAsWritten(old(categoryId), e)
        && aiResult == "" && aiError == None
        && (e.categoryId == old(categoryId) ==> selectedTemplate == SelectionOf(e) && selectedHistoryId == Some(id))
        && (e.categoryId != old(categoryId) ==> selectedTemplate == "" && selectedHistoryId == None)
      ensures FindEntry(history, id).None? ==>
        categoryId == old(categoryId) && formData == old(formData) && selectedTemplate == old(selectedTemplate)
        && selectedHistoryId == old(selectedHistoryId) && aiResult == old(aiResult) && aiError == old(aiError)
      ensures templates == old(templates) && history == old(history)
    {
      var entry := FindEntry(history, id);
      if entry.Some? {
        var previous := categoryId;
        categoryId := entry.value.categoryId;
        formData := entry.value.formData;
        selectedHistoryId := Some(id);
        selectedTemplate := SelectionOf(entry.value);
        aiResult := "";
        aiError := None;
        if categoryId != previous {
          CategoryEffect();
        }
      }
    }

    /** `deleteHistoryEntry`, confirmed: every entry with that id goes; a selection of it clears. */
    method DeleteHistoryEntry(id: string)
      modifies this
      ensures history == RemoveEntry(old(history), id)
      ensures old(selectedHistoryId) == Some(id) ==> selectedHistoryId == None
      ensures old(selectedHistoryId) != Some(id) ==> selectedHistoryId == old(selectedHistoryId)
      ensures aiResult == "" && aiError == None
      ensures categoryId == old(categoryId) && formData == old(formData) && templates == old(templates)
      ensures selectedTemplate == old(selectedTemplate)
    {
      history := RemoveEntry(history, id);
      if selectedHistoryId == Some(id) {
        selectedHistoryId := None;
      }
      aiResult := "";
      aiError := None;
    }

    /** `clearHistory`, confirmed: the history is empty and nothing is selected in it. */
    method ClearHistory()
      modifies this
      ensures history == [] && selectedHistoryId == None
      ensures aiResult == "" && aiError == None
      ensures categoryId == old(categoryId) && formData == old(formData) && templates == old(templates)
      ensures selectedTemplate == old(selectedTemplate)
    {
      history := [];
      selectedHistoryId := None;
      aiResult := "";
      aiError := None;
    }

    /** The end of `fetchAICompletion`: the reply sets either the result or the error. */
    method ReceiveCompletion(reply: Reply)
      modifies this
      ensures Interpret(reply).Completed? ==> aiResult == Interpret(reply).text && aiError == None
      ensures Interpret(reply).Failed? ==> aiResult == "" && aiError == Some(Interpret(reply).message)
      ensures categoryId == old(categoryId) && formData == old(formData) && templates == old(templates)
      ensures history == old(history) && selectedTemplate == old(selectedTemplate)
      ensures selectedHistoryId == old(selectedHistoryId)
    {
      aiError := None;
      aiResult := "";
      match Interpret(reply)
      case Completed(text) => aiResult := text;
      case Failed(message) => aiError := Some(message);
    }
  }

  /** A history entry made by the app, loaded back the intended way, shows the texts it stored. */
  lemma LoadedEntryReproduces(id: string, timestamp: int, categoryId: string, selectedTemplate: string,
                              formData: map<string, string>)
    ensures var e := NewEntry(id, timestamp, categoryId, selectedTemplate, formData);
      ContextOf(e.categoryId, e.formData) == e.context && PromptsOf(e.categoryId, e.formData) == e.prompts
      && SelectionOf(e) == selectedTemplate
  {
    SelectionRoundTrip(id, timestamp, categoryId, selectedTemplate, formData);
  }

  /**
   * As written, loading an entry of a shipped category while another category is
   * selected shows that category's blank template, whatever the entry's form held.
   */
  lemma LoadAcrossCategoriesShowsBlank(current: string, e: HistoryEntry)
    requires FindCategory(e.categoryId).Some? && e.categoryId != current
    ensures ContextOf(e.categoryId, FormAfterLoadAsWritten(current, e)) == ContextOf(e.categoryId, map[])
    ensures PromptsOf(e.categoryId, FormAfterLoadAsWritten(current, e)) == PromptsOf(e.categoryId, map[])
  {
    ResetShowsPlaceholders(FindCategory(e.categoryId).value, e.formData);
  }

  /**
   * A saved business entry with industry "retail", loaded while the app category is
   * selected: as written the context shows the "<Industry>" placeholder, while the
   * intended load shows "retail".
   */
  lemma RetailEntryCounterexample(e: HistoryEntry)
    requires e.categoryId == "business" && e.formData == map["industry" := "retail"]
    ensures FormAfterLoadAsWritten("app", e)["industry"] == ""
    ensures Contains(ContextOf(e.categoryId, FormAfterLoadAsWritten("app", e)), "<Industry>")
    ensures Contains(ContextOf(e.categoryId, e.formData), "retail")
  {
    assert Registry[0].id == "app" && Registry[1..] == [BusinessBuilding];
    assert FindIn([BusinessBuilding], "business") == Some(BusinessBuilding);
    assert FindCategory("business") == Some(BusinessBuilding);
    assert "industry" in FieldNames(BusinessBuilding.fields) by {
      assert BusinessFields[0].name == "industry";
    }
    Solid(BusinessContext[0].text);
    Solid(BusinessContext[|BusinessContext| - 1].text);
    assert BusinessContext[1] == Slot("industry", "<Industry>");
    SlotAppears(BusinessContext, FormAfterLoadAsWritten("app", e), 1);
    SlotAppears(BusinessContext, e.formData, 1);
  }
}
