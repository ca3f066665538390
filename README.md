# Prompt context generator: a verified model of its core

The app is a single React component (`src/App.tsx`). The user picks one of two
categories ("App Development", "Business Building") and fills in that category's
fields. The app then shows two texts built from fixed templates: a *context* and a
set of *prompts*. Filled forms can be saved as named templates, one name per
category. Each generated pair can be saved to a history, newest first, and loaded
back later. The texts can also be sent to a completion relay, and the app shows
the reply or an error.

This project models that core in Dafny:

- `text.dfy`: the JavaScript string built-ins the core relies on, stated over
  `seq<char>` (module `Text`) and an `Option` type (module `Optional`). These are
  `trim`, `includes`, the ASCII part of `toLowerCase`, `length` in UTF-16 code
  units, and the decimal form of a status number.
- `seqs.dfy` (`Seqs`): `Array.prototype.filter` and its properties.
- `categories.dfy` (`Categories`): the category table.
  - Each `generateContext` / `generatePrompts` arrow function is a template
    literal whose interpolations are all `${data.key || '<Placeholder>'}`,
    followed by `.trim()`. The model stores it as a sequence of fixed texts and
    slots (`Piece`).
  - The closures themselves are represented by a tag (`Generators`). The tag
    selects the category's two templates.
  - This module also holds `categories.find` and `emptyData`.
- `form.dfy` (`FormData`): the field reset of the category-change effect and of
  `deleteTemplate`. It copies the form and blanks the category's fields one at a
  time, as the `forEach` loop does.
- `templates.dfy` (`Templates`): the template store's pure rules. These are the
  save guards, the lookup, the delete filter, the dropdown's filter, and the
  uniqueness of (name, category) pairs.
- `history.dfy` (`History`): history entries, the lookup by id, and the delete
  filter.
- `completion.dfy` (`Completion`): how `fetchAICompletion` turns the relay's
  reply into the shown result or error.
- `input.dfy` (`FieldInput`): the `useTextarea` choice of the `Input` component.
  The four labels holding a keyword always get a textarea. Each of the twelve
  labels without one gets a one-line input for a value of at most 40 code units.
- `app.dfy` (`Workspace`): class `App`, the component's state.
  - Its fields are the state hooks: `categoryId`, `formData`, `templates`,
    `selectedTemplate`, `history`, `selectedHistoryId`, `aiResult` and `aiError`.
  - Its methods are the handlers, on the path where the user confirms each
    dialog.
  - The `[categoryId]` effect is the method `CategoryEffect`. It runs when a
    handler's `setCategoryId` changes the id.

The templates were transcribed from the source literal by literal. That includes
the opening and closing newline of each literal and the typographic apostrophe in
"The app’s main goals". The placeholders are the ones the code uses, not the field
captions: `<Main Goals>`, not "Main Goals (comma separated)".

When the call from the relay to the upstream API fails, the relay answers with
status 500 and the body `{error: "<text>"}` (`server/src/routes/deepseeks.ts:23-26`).
The client reads `error?.message`, which is undefined when `error` is a string,
so it shows `API Error: 500` rather than the relay's text
(`Completion.RelayFailureScenario`).

## Model

| member | source | states |
|---|---|---|
| Text.TrimStart | src/App.tsx:52-64 | the leading part `trim` removes leaves a suffix of the text that is empty or starts with a non-space |
| Text.TrimStartDrops | src/App.tsx:52-64 | every character dropped from the front is ECMAScript whitespace |
| Text.TrimEnd | src/App.tsx:52-64 | the trailing part `trim` removes leaves a prefix that is empty or ends with a non-space |
| Text.TrimEndDrops | src/App.tsx:52-64 | every character dropped from the end is ECMAScript whitespace |
| Text.Trim | src/App.tsx:52-64 | `trim()` is no longer than its input, and neither end of its result is whitespace |
| Text.TrimStartSkips | src/App.tsx:52-64 | a whitespace run before a text that starts with a non-space is removed exactly |
| Text.TrimEndSkips | src/App.tsx:52-64 | a whitespace run after a text that ends with a non-space is removed exactly |
| Text.TrimFramed | src/App.tsx:52-64 | trimming whitespace around a text whose two ends are not whitespace gives that text |
| Text.TrimWindow | src/App.tsx:52-64 | the trimmed text is a window of the input reaching from the first to the last non-space |
| Text.TrimKeepsOccurrence | src/App.tsx:52-64 | a run with a non-space before it and one after it still occurs after trimming |
| Text.TrimKeepsInside | src/App.tsx:52-64 | trimming never cuts into what lies between two texts that each hold a non-space |
| Text.TrimStartPrefix | src/App.tsx:52-64 | a text holding a non-space takes all the leading whitespace `trim` removes from anything it opens |
| Text.TrimEndSuffix | src/App.tsx:52-64 | a text holding a non-space takes all the trailing whitespace `trim` removes from anything it closes |
| Text.TrimBetween | src/App.tsx:52-64 | trimming a text between two parts that each hold a non-space trims only the front of the first and the end of the last, keeping the middle whole |
| Text.Contains | src/App.tsx:665-668 | `includes` is true exactly when the word occurs at some position |
| Text.Found | src/App.tsx:665-668 | an occurrence at a position makes `includes` true |
| Text.LowerAscii | src/App.tsx:665 | `toLowerCase` keeps the length and lower-cases each ASCII letter in place |
| Text.Utf16Length | src/App.tsx:664 | `value.length` is between one and two code units per character, exactly one each iff every character is in the Basic Multilingual Plane |
| Text.Decimal | src/App.tsx:398 | `${res.status}` is a non-empty run of digits with no leading zero that reads back as the status |
| Text.DecimalInjective | src/App.tsx:398 | different statuses render as different digit strings |
| Seqs.Filter | src/App.tsx:219-221 | `Array.prototype.filter`, keeping in order the elements that pass the test; its properties are the five lemmas below |
| Seqs.FilterSound | src/App.tsx:219-221 | `filter` returns no more elements than it was given, and each is one of them and passes the test |
| Seqs.FilterComplete | src/App.tsx:219-221 | every element that passes the test is kept |
| Seqs.FilterAll | src/App.tsx:219-221 | when every element passes, `filter` returns the sequence unchanged |
| Seqs.FilterConcat | src/App.tsx:219-221 | filtering a concatenation filters each part, keeping the order |
| Seqs.FilterCounts | src/App.tsx:219-221 | each kept value occurs as often as before, each dropped value not at all |
| Seqs.FilterCutOne | src/App.tsx:219-221 | dropping one failing element between two passing runs gives the two runs joined |
| Categories.Fill | src/App.tsx:54-56 | one `${data.key \|\| '<Placeholder>'}` interpolation: the field's value when it is present and non-empty, the placeholder otherwise |
| Categories.Render | src/App.tsx:52-115 | a template literal before `.trim()`: the texts of its pieces in order; stated by RenderConcat and SlotAppears |
| Categories.Generate | src/App.tsx:52-115 | the literal followed by `.trim()`; stated by RunAppears and the framing lemmas |
| Categories.GenerateContext | src/App.tsx:52-64 | a category's `generateContext(data)`; stated by CategorySlotsShown and the key lemmas |
| Categories.GeneratePrompts | src/App.tsx:65-80 | a category's `generatePrompts(data)`; stated by CategorySlotsShown and the key lemmas |
| Categories.RenderConcat | src/App.tsx:52-64 | a template literal's text is the texts of its parts, in order |
| Categories.FramedParts | src/App.tsx:52-115 | a template that opens and closes with fixed text renders as those two texts around its inside |
| Categories.GenerateFramed | src/App.tsx:52-115 | the exact text a framed template shows: the opening text without its leading whitespace, the inner pieces in order, the closing text without its trailing whitespace |
| Categories.SlotSplit | src/App.tsx:54-56 | a slot's fill stands between the texts of the pieces before it and after it |
| Categories.InnerSlot | src/App.tsx:54-56 | inside a template, a slot's fill stands between the inner pieces before and after it |
| Categories.SlotPlace | src/App.tsx:52-115 | every slot of a framed template is an inner piece, and the output is the trimmed opening text, the pieces before the slot, its fill, the pieces after it, and the trimmed closing text |
| Categories.RunAppears | src/App.tsx:52-64 | every run of pieces inside a template shows unchanged in the trimmed output |
| Categories.SlotAppears | src/App.tsx:54-56 | a slot shows the field's value when it is present and non-empty, and its fixed placeholder otherwise |
| Categories.RenderAgrees | src/App.tsx:52-64 | forms that fill every slot alike give the same text |
| Categories.IgnoresOtherKeys | src/App.tsx:52-64 | changing a key no slot reads never changes the output |
| Categories.AppTemplatesFramed | src/App.tsx:52-80 | both app templates open and close with fixed text that trimming keeps |
| Categories.AppContextKeys | src/App.tsx:52-64 | the app context reads only app fields |
| Categories.AppPromptsKeys | src/App.tsx:65-80 | the app prompts read only app fields |
| Categories.AppDevelopmentWellFormed | src/App.tsx:34-81 | the app category's templates are framed and read only its fields |
| Categories.BusinessTemplatesFramed | src/App.tsx:93-115 | both business templates open and close with fixed text that trimming keeps |
| Categories.BusinessContextKeys | src/App.tsx:93-103 | the business context reads only business fields |
| Categories.BusinessPromptsKeys | src/App.tsx:104-115 | the business prompts read only business fields |
| Categories.BusinessBuildingWellFormed | src/App.tsx:82-116 | the business category's templates are framed and read only its fields |
| Categories.RegistryWellFormed | src/App.tsx:33-117 | both shipped categories are well formed and have different ids |
| Categories.CategorySlotsShown | src/App.tsx:52-115 | for both categories, each template's output is exactly its trimmed opening text, its inner pieces and its trimmed closing text; every slot sits at its own place in it, filled with the field's value, or with the placeholder when the field is empty or missing |
| Categories.MobileAppScenario | src/App.tsx:54-56 | with `appType` "mobile" and no target audience, the context contains "mobile application targeted at <Target Audience>" |
| Categories.MobileRun | src/App.tsx:54-56 | the three pieces around the app type and audience render as "mobile application targeted at <Target Audience>" |
| Categories.RenderThree | src/App.tsx:54-56 | a three-piece run renders as its three texts in order |
| Categories.FindIn | src/App.tsx:160 | `categories.find` returns nothing iff no category has the id, and otherwise a category with that id |
| Categories.FindInFirst | src/App.tsx:160 | what `categories.find` returns is the first category with the id |
| Categories.ContextOf | src/App.tsx:171-174 | the shown context: the selected category's text, or "" with no category; stated by UnselectedShowsNothing |
| Categories.PromptsOf | src/App.tsx:175-178 | the shown prompts: the selected category's text, or "" with no category; stated by UnselectedShowsNothing |
| Categories.UnselectedShowsNothing | src/App.tsx:171-178 | with no category selected, both generated texts are empty, whatever the form holds |
| Categories.FieldsOf | src/App.tsx:119-121 | the flattened field list holds exactly the fields of the categories |
| Categories.EmptyData | src/App.tsx:119-121 | `emptyData`, one blank entry per field of every category; stated by EmptyDataBlank |
| Categories.EmptyEntriesBlank | src/App.tsx:119-121 | `Object.fromEntries` of the field names has exactly those names as keys, each mapped to "" |
| Categories.EmptyDataBlank | src/App.tsx:119-121 | `emptyData` has a key for every field of every category, and every value is "" |
| FormData.Cleared | src/App.tsx:162-166 | the reset form has the old keys plus the category's fields; those fields are "", every other key keeps its value |
| FormData.ResetFields | src/App.tsx:162-166 | the `forEach` over the copied form leaves exactly the reset form |
| FormData.ClearedIdempotent | src/App.tsx:162-166 | resetting twice is resetting once |
| FormData.ClearedElsewhere | src/App.tsx:162-166 | resetting fields a template does not read leaves its text unchanged |
| FormData.ClearedBlank | src/App.tsx:162-166 | resetting every field a template reads renders it as the empty form does |
| FormData.ResetShowsPlaceholders | src/App.tsx:156-169 | after the reset of a shipped category, its context and prompts are the placeholder-only texts |
| FormData.RegistryFieldsDisjoint | src/App.tsx:37-92 | the two categories share no field name |
| FormData.ForeignKeys | src/App.tsx:37-115 | one category's templates read none of the other category's fields |
| FormData.ResetKeepsOtherCategory | src/App.tsx:156-169 | resetting one category leaves the other category's context and prompts unchanged |
| Templates.Find | src/App.tsx:203-205 | the lookup finds nothing iff no template matches the (name, category) pair, and otherwise the first matching one |
| Templates.CheckSave | src/App.tsx:192-196 | the guards in order: no category, then a missing or empty name, then an existing template with the same name in the category |
| Templates.AfterSave | src/App.tsx:192-197 | the store after `saveTemplate`: the new template appended when the guards pass, the old store otherwise; stated by SaveRejected, SaveAppends and SavePreservesUnique |
| Templates.SaveRejected | src/App.tsx:192-196 | a save is rejected iff a guard fails, and a rejected save leaves the store identical |
| Templates.SaveAppends | src/App.tsx:197 | an accepted save appends exactly the new template at the end |
| Templates.SavePreservesUnique | src/App.tsx:195-197 | saving keeps every (name, category) pair unique |
| Templates.SaveThenFind | src/App.tsx:197-205 | the saved template is what `loadTemplate` finds under its name and category |
| Templates.FindAfterMiss | src/App.tsx:203-205 | when the first part has no match, the lookup in a concatenation finds what the second part gives |
| Templates.SaveKeepsOthers | src/App.tsx:197-205 | a save leaves every other (name, category) lookup as it was |
| Templates.FindAppend | src/App.tsx:203-205 | appending templates that do not match leaves the lookup unchanged |
| Templates.SameNameOtherCategory | src/App.tsx:195-205 | a name already used in one category is accepted in another, and each category then finds its own template |
| Templates.Remove | src/App.tsx:216-222 | the store after `deleteTemplate`: unchanged without a category, otherwise the templates not matching the pair; stated by RemoveExact, RemoveAt and RemoveAbsent |
| Templates.RemoveExact | src/App.tsx:218-222 | after a delete no template matches the pair, every other template is kept as often as before, and nothing new appears |
| Templates.RemoveAt | src/App.tsx:218-222 | in a unique store, deleting a template cuts exactly it out and keeps the rest in order |
| Templates.RemoveAbsent | src/App.tsx:216-222 | deleting a pair no template has changes nothing |
| Templates.RemoveThenFind | src/App.tsx:218-222 | after a delete the pair is not found |
| Templates.FilterPreservesUnique | src/App.tsx:218-222 | filtering a unique store keeps it unique |
| Templates.RemovePreservesUnique | src/App.tsx:216-222 | deleting never breaks uniqueness |
| Templates.ListFor | src/App.tsx:452-453 | the dropdown's templates, those of the selected category in store order; stated by ListForDistinct |
| Templates.ListForDistinct | src/App.tsx:452-453 | the dropdown lists every template of the category and only those, with no name twice |
| History.NewEntry | src/App.tsx:241-252 | the new entry carries the given id and time and the current category; its name is null iff no template is selected; it holds a copy of the form and the texts that category and form generate |
| History.SelectionOf | src/App.tsx:262 | `entry.templateName \|\| ''`: the stored name, or "" when none is stored; stated by SelectionRoundTrip |
| History.SelectionRoundTrip | src/App.tsx:246 | the template selection stored in an entry comes back from `entry.templateName \|\| ''` |
| History.FindEntry | src/App.tsx:257 | `history.find` returns nothing iff no entry has the id, and otherwise the first entry with that id |
| History.PrependThenFind | src/App.tsx:241-257 | the newest entry is the one found under its id |
| History.RemoveEntry | src/App.tsx:270 | `history.filter((h) => h.id !== id)`; stated by RemoveEntryExact, RemoveEntryConcat and RemoveEntryAbsent |
| History.RemoveEntryExact | src/App.tsx:270 | a delete keeps no entry with the id and every other entry as often as before |
| History.RemoveEntryConcat | src/App.tsx:270 | deleting from a split history deletes from each part, keeping the order |
| History.RemoveEntryAbsent | src/App.tsx:270 | deleting an id no entry has changes nothing |
| History.PrependThenRemove | src/App.tsx:241-270 | adding an entry under a fresh id and then deleting that id gives back the previous history |
| Completion.ErrorMessage | src/App.tsx:395-398 | the nested `error.message` wins, then the top-level `message`, and only when both are missing or empty is the message "API Error: " followed by the status's canonical decimal digits, which read back as the status; it is never empty |
| Completion.ChoiceText | src/App.tsx:402 | the first choice's `message.content`, or "" when the message or its content is missing |
| Completion.Shown | src/App.tsx:404 | the thrown message when it is non-empty, and "Unknown error connecting to backend" when it is empty |
| Completion.Interpret | src/App.tsx:393-404 | the request completes exactly when the reply is a 2xx response with a first choice, and a failure always carries a non-empty message |
| Completion.ErrorStatusFails | src/App.tsx:393-404 | a status outside 200-299 always fails with exactly the chosen error message |
| Completion.ConnectionFailureShown | src/App.tsx:403-404 | a request that got no reply fails with the thrown error's message, or with "Unknown error connecting to backend" when that message is empty |
| Completion.FirstChoiceWins | src/App.tsx:402 | a successful reply with a first choice completes with that choice's text |
| Completion.MissingChoicesFail | src/App.tsx:402-404 | a successful reply with missing or empty choices fails with the engine's TypeError message |
| Completion.FallbackNamesStatus | src/App.tsx:398 | replies without messages but with different statuses show different errors |
| Completion.RateLimitedScenario | src/App.tsx:395-399 | a 429 reply with nested message "rate limited" shows "rate limited" |
| Completion.Decimal500 | src/App.tsx:398 | status 500 renders as "500" |
| Completion.RelayFailureScenario | server/src/routes/deepseeks.ts:23-26 | the relay's failure body `{error: "<text>"}` with status 500 is shown as "API Error: 500" |
| FieldInput.UseTextarea | src/App.tsx:663-668 | a textarea iff the value is over 40 code units or the lower-cased label contains "description", "features", "goals" or "summary"; stated by the lemmas below |
| FieldInput.LongValueUsesTextarea | src/App.tsx:664 | a value longer than 40 characters always gets a textarea |
| FieldInput.ShortValueFollowsLabel | src/App.tsx:663-668 | for a value of at most 20 characters only the label decides |
| FieldInput.LoweredOccurrence | src/App.tsx:665-668 | a word that matches a part of the label after lower-casing is found in the lower-cased label |
| FieldInput.UpperChar | src/App.tsx:665 | the upper-case form of a lower-case ASCII letter lower-cases back to it |
| FieldInput.LowerCharFrom | src/App.tsx:665 | only a letter itself and its upper-case form lower-case to it |
| FieldInput.LetterOfOccurrence | src/App.tsx:665-668 | each letter of a word found in the lower-cased label is in the label, in one case or the other |
| FieldInput.LetterAbsent | src/App.tsx:665-668 | a word with a letter the label lacks in both cases is not found |
| FieldInput.PlainLabel | src/App.tsx:663-668 | a label with none of the four keywords gets a one-line input for every value of at most 40 code units |
| FieldInput.KeywordLabel | src/App.tsx:663-668 | a label holding a keyword in any letter case gets a textarea for every value |
| FieldInput.AppTextareas | src/App.tsx:40-44 | the `mainGoals` and `keyFeatures` fields always show a textarea |
| FieldInput.BusinessTextareas | src/App.tsx:88-90 | the `businessGoals` and `competitorSummary` fields always show a textarea |
| FieldInput.LabelWithoutS | src/App.tsx:663-668 | every keyword holds an "s", so a label without one in either case gets a one-line input for every short value |
| FieldInput.WithoutS | src/App.tsx:37-92 | the six labels App Type, Target Audience, Feature Name, Deployment Platform, Target Market and Available Budget hold no "s" |
| FieldInput.OneLineLabel | src/App.tsx:663-668 | those six labels keep a short value on one line |
| FieldInput.AppTypeInput | src/App.tsx:38 | the `appType` field shows a short value in a one-line input |
| FieldInput.TargetAudienceInput | src/App.tsx:39 | the `targetAudience` field shows a short value in a one-line input |
| FieldInput.FeatureNameInput | src/App.tsx:49 | the `featureName` field shows a short value in a one-line input |
| FieldInput.DeploymentPlatformInput | src/App.tsx:50 | the `deploymentPlatform` field shows a short value in a one-line input |
| FieldInput.TargetMarketInput | src/App.tsx:87 | the `targetMarket` field shows a short value in a one-line input |
| FieldInput.BudgetInput | src/App.tsx:91 | the `budget` field shows a short value in a one-line input |
| FieldInput.PairOf | src/App.tsx:665-668 | a word found in the lower-cased label starts at a position whose two characters lower-case to the word's first two letters |
| FieldInput.OpeningOfLower | src/App.tsx:665 | two characters that lower-case to a keyword's opening letters spell that opening in one case or the other |
| FieldInput.OpeningOfOccurrence | src/App.tsx:665-668 | a word found in the lower-cased label puts its two opening letters, in either case, side by side in the label |
| FieldInput.LabelWithoutOpening | src/App.tsx:663-668 | a label in which no two neighbouring characters spell "de", "fe", "go" or "su" in any case gets a one-line input for every short value |
| FieldInput.FrontendTechLabel | src/App.tsx:41 | "Frontend Tech Stack" spells none of those openings |
| FieldInput.FrontendTechInput | src/App.tsx:41 | the `frontendTech` field shows a short value in a one-line input |
| FieldInput.BackendTechLabel | src/App.tsx:42 | "Backend Tech Stack" spells none of those openings |
| FieldInput.BackendTechInput | src/App.tsx:42 | the `backendTech` field shows a short value in a one-line input |
| FieldInput.DatabaseTechLabel | src/App.tsx:43 | "Database Technology" spells none of those openings |
| FieldInput.DatabaseTechInput | src/App.tsx:43 | the `databaseTech` field shows a short value in a one-line input |
| FieldInput.NonFunctionalRequirementsLabel | src/App.tsx:45-47 | "Non-Functional Requirements" spells none of those openings |
| FieldInput.NonFunctionalRequirementsInput | src/App.tsx:45-47 | the `nonFunctionalRequirements` field shows a short value in a one-line input |
| FieldInput.IndustryLabel | src/App.tsx:86 | "Industry" spells none of those openings |
| FieldInput.IndustryInput | src/App.tsx:86 | the `industry` field shows a short value in a one-line input |
| FieldInput.CompetitorsLabel | src/App.tsx:89 | "Main Competitors (comma separated)" spells none of those openings |
| FieldInput.CompetitorsInput | src/App.tsx:89 | the `competitors` field shows a short value in a one-line input |
| Workspace.EffectForm | src/App.tsx:159-168 | the effect leaves the form unchanged when the id names no category, and otherwise resets that category's fields |
| Workspace.ResetCategory | src/App.tsx:159-168 | the imperative reset of the effect and of `deleteTemplate` computes exactly that form |
| Workspace.App.constructor | src/App.tsx:128-146 | the first render has no category and `emptyData` as the form, the stored templates and history, no selections, and no result or error |
| Workspace.App.CategoryEffect | src/App.tsx:156-169 | both selections clear and the category's fields reset; nothing else changes |
| Workspace.App.SelectCategory | src/App.tsx:156-169 | a new id runs the effect; choosing the current id changes nothing else |
| Workspace.App.InputChange | src/App.tsx:180-189 | the one field takes the value, both selections and the completion clear, and the stores stay as they were |
| Workspace.App.SaveTemplate | src/App.tsx:191-200 | the verdict is the guards' verdict; on success the template is appended and selected, otherwise nothing changes; uniqueness is kept |
| Workspace.App.LoadTemplate | src/App.tsx:202-213 | a found template replaces the form, becomes the selection and clears the history selection and completion; if none is found nothing changes |
| Workspace.App.DeleteTemplate | src/App.tsx:215-237 | with a category, the matching templates go and the completion clears, and deleting the selected template clears the selection and resets the category's fields; without one nothing changes; uniqueness is kept |
| Workspace.App.AddHistoryEntry | src/App.tsx:239-254 | with a category, the new entry goes in front of the unchanged old history, and its texts are the ones shown; without one nothing changes |
| Workspace.App.LoadHistoryEntry | src/App.tsx:256-266 | intended behaviour: a found entry restores its category, form and template selection and becomes the history selection; if none is found nothing changes |
| Workspace.App.LoadHistoryEntryAsWritten | src/App.tsx:256-266 | as written: when the entry's category differs from the current one, the effect then clears both selections and blanks that category's fields of the loaded form |
| Workspace.App.DeleteHistoryEntry | src/App.tsx:268-275 | entries with the id go, a selection of that id clears, and the completion clears |
| Workspace.App.ClearHistory | src/App.tsx:277-284 | the history is empty, nothing is selected in it, and the completion clears |
| Workspace.App.ReceiveCompletion | src/App.tsx:393-404 | the reply sets exactly one of the result and the error |
| Workspace.LoadedEntryReproduces | src/App.tsx:239-266 | an entry the app made, loaded the intended way, shows the texts and the template selection it stored |
| Workspace.LoadAcrossCategoriesShowsBlank | src/App.tsx:256-266 | as written, loading an entry of another shipped category shows that category's placeholder-only texts |
| Workspace.RetailEntryCounterexample | src/App.tsx:256-266 | a business entry with industry "retail", loaded while "app" is selected, shows "<Industry>" as written, while its stored form shows "retail" |

## Left out

- React hooks, JSX and the `Input` markup: only the state they hold and the `useTextarea` choice are modelled.
- Effect scheduling: each effect runs synchronously at the end of the handler that changes its dependency. The localStorage write-back effects are I/O and are left out.
- localStorage and `JSON.parse`/`JSON.stringify`: the constructor takes the parsed stores.
- `alert`, `prompt` and `window.confirm`: the name prompt's answer is an `Option` parameter, and the delete and clear handlers are modelled on the confirmed path.
- `generateId` (`Math.random`) and `Date.now`: they are parameters of `AddHistoryEntry`.
- Clipboard, TXT download and jsPDF export: browser and library calls with no logic to prove.
- The request side of `fetchAICompletion`: the message list, the request body (model, floating-point temperature, token bound), the network call and the loading flag. Only the reading of the reply is modelled.
- `historyVisible` and the other purely visual state.
- The relay server (`server/src/index.ts`, `server/src/routes/deepseeks.ts`): it forwards bodies and statuses. Only the shape of its failure body is used, in `Completion.RelayFailureScenario`.
- JSON values other than strings in the reply's `error`, `message` and `content` fields: a field is present with a string or absent.
- A `null` `choices` array or a `null` first choice: the reply's `choices` and each choice are present or absent, never `null`. A `null` there would throw "Cannot read properties of null (reading …)", which the model does not produce.
- Overlapping completion requests: `fetchAICompletion` clears `aiResult` and `aiError` when it starts and sets one of them when its reply arrives. The model takes each request as one step (`Workspace.App.ReceiveCompletion`), so two requests whose replies interleave are not modelled.
- Completion.MissingChoicesFail: the TypeError texts are V8's wording, and another engine words them differently.
- Text.LowerAscii: lower-cases ASCII letters only, not full Unicode case mapping. Every label in the table is ASCII.
- Text.Utf16Length: a `char` outside the Basic Multilingual Plane counts as two code units. Unpaired surrogates are not modelled.

## Findings

| source | as written | input that shows it | evidently intended | confidence | as-written member | corrected member |
|---|---|---|---|---|---|---|
| src/App.tsx:256-266 | `loadHistoryEntry` calls `setCategoryId(entry.categoryId)` and `setFormData(entry.formData)`. When the category changes, the `[categoryId]` effect (156-169) then runs. It clears the template and history selections and blanks every field of the entry's category. | "app" is selected, and a "business" entry with `industry` = "retail" is loaded. The context shows "<Industry>", not "retail". | The entry's category, form and template selection are restored, and the entry stays selected. | medium, not executed | Workspace.RetailEntryCounterexample | Workspace.App.LoadHistoryEntry |
