/**
 * The fixed category table and its text templates. Each `generateContext` /
 * `generatePrompts` of the app is a template literal whose every interpolation is
 * `${data.key || '<Placeholder>'}`, followed by `.trim()`; here a template is the
 * literal's sequence of fixed texts and slots, and rendering concatenates them.
 */
module Categories {
  import opened Optional
  import opened Text

  datatype Field = Field(name: string, caption: string)

  /** One part of a template literal: fixed text, or a slot filled from the form data. */
  datatype Piece = Lit(text: string) | Slot(key: string, placeholder: string)

  /**
   * The pair of `generateContext` / `generatePrompts` functions a category object
   * carries; the app ships two such pairs.
   */
  datatype Generators = AppGenerators | BusinessGenerators

  datatype Category = Category(
    id: string,
    caption: string,
    fields: seq<Field>,
    generators: Generators)

  /** `data[key] || placeholder`: a missing key (undefined) and the empty string both fall back. */
  function Fill(data: map<string, string>, key: string, placeholder: string): string {
    if key in data && data[key] != "" then data[key] else placeholder
  }

  function PieceText(p: Piece, data: map<string, string>): string {
    match p
    case Lit(text) => text
    case Slot(key, placeholder) => Fill(data, key, placeholder)
  }

  /** The template literal's value before `.trim()`. */
  function Render(ps: seq<Piece>, data: map<string, string>): string {
    if ps == [] then "" else PieceText(ps[0], data) + Render(ps[1..], data)
  }

  /** `template.trim()`, the text the app shows. */
  function Generate(ps: seq<Piece>, data: map<string, string>): string {
    Trim(Render(ps, data))
  }

  /** The template literal behind a category's `generateContext`. */
  function ContextPieces(c: Category): seq<Piece> {
    match c.generators
    case AppGenerators => AppContext
    case BusinessGenerators => BusinessContext
  }

  /** The template literal behind a category's `generatePrompts`. */
  function PromptPieces(c: Category): seq<Piece> {
    match c.generators
    case AppGenerators => AppPrompts
    case BusinessGenerators => BusinessPrompts
  }

  function GenerateContext(c: Category, data: map<string, string>): string {
    Generate(ContextPieces(c), data)
  }

  function GeneratePrompts(c: Category, data: map<string, string>): string {
    Generate(PromptPieces(c), data)
  }

  /** Rendering two parts one after the other gives the two texts one after the other. */
  lemma {:induction false} RenderConcat(a: seq<Piece>, b: seq<Piece>, data: map<string, string>)
    ensures Render(a + b, data) == Render(a, data) + Render(b, data)
    decreases |a|
  {
    if a == [] {
      assert a + b == b;
    } else {
      assert (a + b)[0] == a[0];
      assert (a + b)[1..] == a[1..] + b;
      RenderConcat(a[1..], b, data);
    }
  }

  /**
   * The shape of every template in the table: it opens and closes with fixed text
   * that holds a character `.trim()` keeps, so trimming never reaches a slot.
   */
  ghost predicate Framed(ps: seq<Piece>) {
    && |ps| >= 2
    && ps[0].Lit? && HasSolid(ps[0].text)
    && ps[|ps| - 1].Lit? && HasSolid(ps[|ps| - 1].text)
  }

  /** Cutting a template's inside around the run `ps[i..j]`. */
  lemma InnerSplit(ps: seq<Piece>, data: map<string, string>, i: nat, j: nat)
    requires 1 <= i <= j <= |ps| - 1
    ensures Render(ps, data) ==
      PieceText(ps[0], data) + Render(ps[1..i], data) + Render(ps[i..j], data)
      + (Render(ps[j..|ps| - 1], data) + PieceText(ps[|ps| - 1], data))
  {
    assert ps == [ps[0]] + ps[1..i] + ps[i..j] + (ps[j..|ps| - 1] + [ps[|ps| - 1]]);
    RenderConcat([ps[0]] + ps[1..i] + ps[i..j], ps[j..|ps| - 1] + [ps[|ps| - 1]], data);
    RenderConcat([ps[0]] + ps[1..i], ps[i..j], data);
    RenderConcat([ps[0]], ps[1..i], data);
    RenderConcat(ps[j..|ps| - 1], [ps[|ps| - 1]], data);
    assert Render([ps[0]], data) == PieceText(ps[0], data);
    assert Render([ps[|ps| - 1]], data) == PieceText(ps[|ps| - 1], data);
  }

  /** Any run of consecutive pieces inside a framed template appears, rendered, in the output. */
  lemma RunAppears(ps: seq<Piece>, data: map<string, string>, i: nat, j: nat)
    requires Framed(ps) && 1 <= i <= j <= |ps| - 1
    ensures Contains(Generate(ps, data), Render(ps[i..j], data))
  {
    InnerSplit(ps, data, i, j);
    var a := PieceText(ps[0], data) + Render(ps[1..i], data);
    var c := Render(ps[j..|ps| - 1], data) + PieceText(ps[|ps| - 1], data);
    var k :| 0 <= k < |ps[0].text| && !IsWhitespace(ps[0].text[k]);
    assert a[k] == ps[0].text[k];
    var q :| 0 <= q < |ps[|ps| - 1].text| && !IsWhitespace(ps[|ps| - 1].text[q]);
    assert c[|c| - |ps[|ps| - 1].text| + q] == ps[|ps| - 1].text[q];
    TrimKeepsInside(a, Render(ps[i..j], data), c);
  }

  /**
   * The exact text a framed template shows: its opening text without the leading
   * whitespace, every inner piece rendered in order, and its closing text without the
   * trailing whitespace.
   */
  lemma GenerateFramed(ps: seq<Piece>, data: map<string, string>)
    requires Framed(ps)
    ensures Generate(ps, data) ==
      TrimStart(ps[0].text) + Render(ps[1..|ps| - 1], data) + TrimEnd(ps[|ps| - 1].text)
  {
    var a, x, c := ps[0].text, Render(ps[1..|ps| - 1], data), ps[|ps| - 1].text;
    FramedParts(ps, data);
    TrimBetween(a, x, c);
  }

  /** A template that opens and closes with fixed text renders as that text around its inside. */
  lemma FramedParts(ps: seq<Piece>, data: map<string, string>)
    requires |ps| >= 2 && ps[0].Lit? && ps[|ps| - 1].Lit?
    ensures Render(ps, data) == ps[0].text + Render(ps[1..|ps| - 1], data) + ps[|ps| - 1].text
  {
    var inner := ps[1..|ps| - 1];
    assert ps == [ps[0]] + inner + [ps[|ps| - 1]];
    RenderConcat([ps[0]] + inner, [ps[|ps| - 1]], data);
    RenderConcat([ps[0]], inner, data);
    assert Render([ps[0]], data) == ps[0].text;
    assert Render([ps[|ps| - 1]], data) == ps[|ps| - 1].text;
  }

  /** A slot's fill stands between the texts of the pieces before it and after it. */
  lemma SlotSplit(ps: seq<Piece>, data: map<string, string>, i: nat)
    requires i < |ps| && ps[i].Slot?
    ensures Render(ps, data) ==
      Render(ps[..i], data) + Fill(data, ps[i].key, ps[i].placeholder) + Render(ps[i + 1..], data)
  {
    assert ps == ps[..i] + ([ps[i]] + ps[i + 1..]);
    RenderConcat(ps[..i], [ps[i]] + ps[i + 1..], data);
    RenderConcat([ps[i]], ps[i + 1..], data);
    assert Render([ps[i]], data) == PieceText(ps[i], data);
  }

  /**
   * Every slot of a framed template shows in the output: the field's value when it is
   * present and non-empty, its fixed placeholder otherwise.
   */
  lemma SlotAppears(ps: seq<Piece>, data: map<string, string>, i: nat)
    requires Framed(ps) && i < |ps| && ps[i].Slot?
    ensures ps[i].key in data && data[ps[i].key] != "" ==> Contains(Generate(ps, data), data[ps[i].key])
    ensures ps[i].key !in data || data[ps[i].key] == "" ==> Contains(Generate(ps, data), ps[i].placeholder)
  {
    assert ps[i..i + 1] == [ps[i]];
    assert Render([ps[i]], data) == PieceText(ps[i], data);
    RunAppears(ps, data, i, i + 1);
  }

  /**
   * Every slot of a framed template stands at its own place in the output: after the
   * trimmed opening text and the pieces before it, and before the pieces after it and
   * the trimmed closing text.
   */
  lemma SlotPlace(ps: seq<Piece>, data: map<string, string>, i: nat)
    requires Framed(ps) && i < |ps| && ps[i].Slot?
    ensures 1 <= i < |ps| - 1
    ensures Generate(ps, data) ==
      TrimStart(ps[0].text) + Render(ps[1..i], data) + Fill(data, ps[i].key, ps[i].placeholder)
      + Render(ps[i + 1..|ps| - 1], data) + TrimEnd(ps[|ps| - 1].text)
  {
    GenerateFramed(ps, data);
    InnerSlot(ps, data, i);
    var a, b, f, c, z := TrimStart(ps[0].text), Render(ps[1..i], data),
      Fill(data, ps[i].key, ps[i].placeholder), Render(ps[i + 1..|ps| - 1], data), TrimEnd(ps[|ps| - 1].text);
    JoinRegroup(a, b, f, c, z);
  }

  /** Inside a template, a slot's fill stands between the inner pieces before it and after it. */
  lemma InnerSlot(ps: seq<Piece>, data: map<string, string>, i: nat)
    requires 1 <= i < |ps| - 1 && ps[i].Slot?
    ensures Render(ps[1..|ps| - 1], data) ==
      Render(ps[1..i], data) + Fill(data, ps[i].key, ps[i].placeholder) + Render(ps[i + 1..|ps| - 1], data)
  {
    var inner := ps[1..|ps| - 1];
    assert inner[i - 1] == ps[i];
    SlotSplit(inner, data, i - 1);
    assert inner[..i - 1] == ps[1..i];
    assert inner[i..] == ps[i + 1..|ps| - 1];
  }

  /** Two data maps that fill every slot alike render the same text. */
  lemma {:induction false} RenderAgrees(ps: seq<Piece>, d1: map<string, string>, d2: map<string, string>)
    requires forall k :: 0 <= k < |ps| && ps[k].Slot? ==>
      Fill(d1, ps[k].key, ps[k].placeholder) == Fill(d2, ps[k].key, ps[k].placeholder)
    ensures Render(ps, d1) == Render(ps, d2)
    decreases |ps|
  {
    if ps != [] {
      assert forall k :: 0 <= k < |ps| - 1 ==> ps[1..][k] == ps[k + 1];
      RenderAgrees(ps[1..], d1, d2);
    }
  }

  /** The keys a template reads. */
  function SlotKeys(ps: seq<Piece>): set<string> {
    set k | 0 <= k < |ps| && ps[k].Slot? :: ps[k].key
  }

  /** Keys no slot reads are ignored: changing one never changes the rendered text. */
  lemma IgnoresOtherKeys(ps: seq<Piece>, data: map<string, string>, key: string, value: string)
    requires key !in SlotKeys(ps)
    ensures Generate(ps, data[key := value]) == Generate(ps, data)
  {
    forall k | 0 <= k < |ps| && ps[k].Slot?
      ensures Fill(data[key := value], ps[k].key, ps[k].placeholder) == Fill(data, ps[k].key, ps[k].placeholder)
    {
      assert ps[k].key in SlotKeys(ps);
    }
    RenderAgrees(ps, data[key := value], data);
  }

  // The category table (`categories`), transcribed slot by slot.

  const AppFields: seq<Field> := [
    Field("appType", "App Type"),
    Field("targetAudience", "Target Audience"),
    Field("mainGoals", "Main Goals (comma separated)"),
    Field("frontendTech", "Frontend Tech Stack"),
    Field("backendTech", "Backend Tech Stack"),
    Field("databaseTech", "Database Technology"),
    Field("keyFeatures", "Key Features (comma separated)"),
    Field("nonFunctionalRequirements", "Non-Functional Requirements"),
    Field("featureName", "Feature Name"),
    Field("deploymentPlatform", "Deployment Platform")
  ]

  const AppContext: seq<Piece> := [
    Lit("\nYou are working on a "), Slot("appType", "<App Type>"),
    Lit(" application targeted at "), Slot("targetAudience", "<Target Audience>"),
    Lit(".\nThe app\U{2019}s main goals are "), Slot("mainGoals", "<Main Goals>"),
    Lit(".\nThe tech stack includes "), Slot("frontendTech", "<Frontend Tech>"),
    Lit(", "), Slot("backendTech", "<Backend Tech>"),
    Lit(", and "), Slot("databaseTech", "<Database Tech>"),
    Lit(".\nThe app must support "), Slot("keyFeatures", "<Key Features>"),
    Lit(" and prioritize "), Slot("nonFunctionalRequirements", "<Non-Functional Requirements>"),
    Lit(".\n")
  ]

  const AppPrompts: seq<Piece> := [
    Lit("\nBased on the above context, design and implement a "), Slot("featureName", "<Feature Name>"),
    Lit(" feature including UI, state management, and API interactions.\n\nDesign RESTful API endpoints for the "),
    Slot("featureName", "<Feature Name>"),
    Lit(" feature with validation and error handling.\n\nWrite tests (unit/integration) for the feature, specifying tools and test cases.\n\nProvide deployment instructions for the "),
    Slot("appType", "<App Type>"),
    Lit(" app on "), Slot("deploymentPlatform", "<Deployment Platform>"),
    Lit(".\n")
  ]

  const BusinessFields: seq<Field> := [
    Field("industry", "Industry"),
    Field("targetMarket", "Target Market"),
    Field("businessGoals", "Business Goals (comma separated)"),
    Field("competitors", "Main Competitors (comma separated)"),
    Field("competitorSummary", "Competitor Summary"),
    Field("budget", "Available Budget")
  ]

  const BusinessContext: seq<Piece> := [
    Lit("\nYour company operates in the "), Slot("industry", "<Industry>"),
    Lit(" industry targeting "), Slot("targetMarket", "<Target Market>"),
    Lit(".\nCurrent business goals include "), Slot("businessGoals", "<Business Goals>"),
    Lit(".\nMain competitors are "), Slot("competitors", "<Competitors>"),
    Lit(", summarized as "), Slot("competitorSummary", "<Competitor Summary>"),
    Lit(".\nAvailable budget is "), Slot("budget", "<Budget>"),
    Lit(".\n")
  ]

  const BusinessPrompts: seq<Piece> := [
    Lit("\nDevelop a marketing strategy aligned with "), Slot("businessGoals", "<Business Goals>"),
    Lit(".\n\nOutline a product development roadmap including features, timelines, and resources.\n\nCreate a financial plan with revenue projections and cost analysis.\n\nAdvise on growth and scaling strategies considering market expansion and partnerships.\n")
  ]

  const AppDevelopment := Category("app", "App Development", AppFields, AppGenerators)
  const BusinessBuilding := Category("business", "Business Building", BusinessFields, BusinessGenerators)

  const Registry: seq<Category> := [AppDevelopment, BusinessBuilding]

  function FieldNames(fields: seq<Field>): set<string> {
    set k | 0 <= k < |fields| :: fields[k].name
  }

  /** A category is well formed when its templates are framed and read only its own fields. */
  ghost predicate WellFormed(c: Category) {
    Framed(ContextPieces(c)) && Framed(PromptPieces(c))
    && SlotKeys(ContextPieces(c)) <= FieldNames(c.fields) && SlotKeys(PromptPieces(c)) <= FieldNames(c.fields)
  }

  /** Every fixed text at the ends of a shipped template has a letter or a full stop before its last character. */
  lemma Solid(t: string)
    requires |t| >= 2 && !IsWhitespace(t[|t| - 2])
    ensures HasSolid(t)
  {
  }

  /** Both app templates open and close with fixed text that trimming keeps. */
  lemma AppTemplatesFramed()
    ensures Framed(AppContext) && Framed(AppPrompts)
  {
    Solid(AppContext[0].text);
    Solid(AppContext[|AppContext| - 1].text);
    Solid(AppPrompts[0].text);
    Solid(AppPrompts[|AppPrompts| - 1].text);
  }

  /** The app context reads only app fields. */
  lemma AppContextKeys()
    ensures SlotKeys(AppContext) <= FieldNames(AppFields)
  {
    forall key | key in SlotKeys(AppContext) ensures key in FieldNames(AppFields) {
      var k :| 0 <= k < |AppContext| && AppContext[k].Slot? && AppContext[k].key == key;
      assert key in {AppFields[0].name, AppFields[1].name, AppFields[2].name, AppFields[3].name,
                     AppFields[4].name, AppFields[5].name, AppFields[6].name, AppFields[7].name};
    }
  }

  /** The app prompts read only app fields. */
  lemma AppPromptsKeys()
    ensures SlotKeys(AppPrompts) <= FieldNames(AppFields)
  {
    forall key | key in SlotKeys(AppPrompts) ensures key in FieldNames(AppFields) {
      var k :| 0 <= k < |AppPrompts| && AppPrompts[k].Slot? && AppPrompts[k].key == key;
      assert key in {AppFields[0].name, AppFields[8].name, AppFields[9].name};
    }
  }

  lemma AppDevelopmentWellFormed()
    ensures WellFormed(AppDevelopment)
  {
    AppTemplatesFramed();
    AppContextKeys();
    AppPromptsKeys();
  }

  /** Both business templates open and close with fixed text that trimming keeps. */
  lemma BusinessTemplatesFramed()
    ensures Framed(BusinessContext) && Framed(BusinessPrompts)
  {
    Solid(BusinessContext[0].text);
    Solid(BusinessContext[|BusinessContext| - 1].text);
    Solid(BusinessPrompts[0].text);
    Solid(BusinessPrompts[|BusinessPrompts| - 1].text);
  }

  /** The business context reads only business fields. */
  lemma BusinessContextKeys()
    ensures SlotKeys(BusinessContext) <= FieldNames(BusinessFields)
  {
    forall key | key in SlotKeys(BusinessContext) ensures key in FieldNames(BusinessFields) {
      var k :| 0 <= k < |BusinessContext| && BusinessContext[k].Slot? && BusinessContext[k].key == key;
      assert key in {BusinessFields[0].name, BusinessFields[1].name, BusinessFields[2].name,
                     BusinessFields[3].name, BusinessFields[4].name, BusinessFields[5].name};
    }
  }

  /** The business prompts read only the business goals. */
  lemma BusinessPromptsKeys()
    ensures SlotKeys(BusinessPrompts) <= FieldNames(BusinessFields)
  {
    forall key | key in SlotKeys(BusinessPrompts) ensures key in FieldNames(BusinessFields) {
      var k :| 0 <= k < |BusinessPrompts| && BusinessPrompts[k].Slot? && BusinessPrompts[k].key == key;
      assert key == BusinessFields[2].name;
    }
  }

  lemma BusinessBuildingWellFormed()
    ensures WellFormed(BusinessBuilding)
  {
    BusinessTemplatesFramed();
    BusinessContextKeys();
    BusinessPromptsKeys();
  }

  /** Both shipped categories are well formed, and their ids differ. */
  lemma RegistryWellFormed()
    ensures forall c :: c in Registry ==> WellFormed(c)
    ensures Registry[0].id != Registry[1].id
  {
    AppDevelopmentWellFormed();
    BusinessBuildingWellFormed();
  }

  /**
   * The exact texts a shipped category shows: each template's opening text without its
   * leading whitespace, the inner pieces in order, and the closing text without its
   * trailing whitespace; each slot is filled at its own place between the pieces before
   * it and after it. In particular every slot shows in the output: the field's value
   * when it is non-empty, the slot's placeholder when the field is empty or missing.
   */
  lemma CategorySlotsShown(c: Category, data: map<string, string>)
    requires c in Registry
    ensures GenerateContext(c, data) == TrimStart(ContextPieces(c)[0].text)
      + Render(ContextPieces(c)[1..|ContextPieces(c)| - 1], data) + TrimEnd(ContextPieces(c)[|ContextPieces(c)| - 1].text)
    ensures GeneratePrompts(c, data) == TrimStart(PromptPieces(c)[0].text)
      + Render(PromptPieces(c)[1..|PromptPieces(c)| - 1], data) + TrimEnd(PromptPieces(c)[|PromptPieces(c)| - 1].text)
    ensures forall i :: 0 <= i < |ContextPieces(c)| && ContextPieces(c)[i].Slot? ==>
      && 1 <= i < |ContextPieces(c)| - 1
      && GenerateContext(c, data) == TrimStart(ContextPieces(c)[0].text) + Render(ContextPieces(c)[1..i], data)
           + Fill(data, ContextPieces(c)[i].key, ContextPieces(c)[i].placeholder)
           + Render(ContextPieces(c)[i + 1..|ContextPieces(c)| - 1], data) + TrimEnd(ContextPieces(c)[|ContextPieces(c)| - 1].text)
      && Contains(GenerateContext(c, data), Fill(data, ContextPieces(c)[i].key, ContextPieces(c)[i].placeholder))
    ensures forall i :: 0 <= i < |PromptPieces(c)| && PromptPieces(c)[i].Slot? ==>
      && 1 <= i < |PromptPieces(c)| - 1
      && GeneratePrompts(c, data) == TrimStart(PromptPieces(c)[0].text) + Render(PromptPieces(c)[1..i], data)
           + Fill(data, PromptPieces(c)[i].key, PromptPieces(c)[i].placeholder)
           + Render(PromptPieces(c)[i + 1..|PromptPieces(c)| - 1], data) + TrimEnd(PromptPieces(c)[|PromptPieces(c)| - 1].text)
      && Contains(GeneratePrompts(c, data), Fill(data, PromptPieces(c)[i].key, PromptPieces(c)[i].placeholder))
  {
    RegistryWellFormed();
    GenerateFramed(ContextPieces(c), data);
    GenerateFramed(PromptPieces(c), data);
    forall i | 0 <= i < |ContextPieces(c)| && ContextPieces(c)[i].Slot?
      ensures && 1 <= i < |ContextPieces(c)| - 1
      && GenerateContext(c, data) == TrimStart(ContextPieces(c)[0].text) + Render(ContextPieces(c)[1..i], data)
           + Fill(data, ContextPieces(c)[i].key, ContextPieces(c)[i].placeholder)
           + Render(ContextPieces(c)[i + 1..|ContextPieces(c)| - 1], data) + TrimEnd(ContextPieces(c)[|ContextPieces(c)| - 1].text)
      && Contains(GenerateContext(c, data), Fill(data, ContextPieces(c)[i].key, ContextPieces(c)[i].placeholder))
    {
      SlotAppears(ContextPieces(c), data, i);
      SlotPlace(ContextPieces(c), data, i);
    }
    forall i | 0 <= i < |PromptPieces(c)| && PromptPieces(c)[i].Slot?
      ensures && 1 <= i < |PromptPieces(c)| - 1
      && GeneratePrompts(c, data) == TrimStart(PromptPieces(c)[0].text) + Render(PromptPieces(c)[1..i], data)
           + Fill(data, PromptPieces(c)[i].key, PromptPieces(c)[i].placeholder)
           + Render(PromptPieces(c)[i + 1..|PromptPieces(c)| - 1], data) + TrimEnd(PromptPieces(c)[|PromptPieces(c)| - 1].text)
      && Contains(GeneratePrompts(c, data), Fill(data, PromptPieces(c)[i].key, PromptPieces(c)[i].placeholder))
    {
      SlotAppears(PromptPieces(c), data, i);
      SlotPlace(PromptPieces(c), data, i);
    }
  }

  /**
   * With `appType` set to "mobile" and the target audience left empty, the app
   * context reads "... mobile application targeted at <Target Audience> ...".
   */
  lemma MobileAppScenario(data: map<string, string>)
    requires "appType" in data && data["appType"] == "mobile"
    requires "targetAudience" !in data || data["targetAudience"] == ""
    ensures Contains(GenerateContext(AppDevelopment, data), "mobile" + " application targeted at " + "<Target Audience>")
  {
    AppTemplatesFramed();
    RunAppears(AppContext, data, 1, 4);
    MobileRun(data);
  }

  /** The second to fourth pieces of the app context, filled with a mobile app type and no audience. */
  lemma MobileRun(data: map<string, string>)
    requires "appType" in data && data["appType"] == "mobile"
    requires "targetAudience" !in data || data["targetAudience"] == ""
    ensures Render(AppContext[1..4], data) == "mobile" + " application targeted at " + "<Target Audience>"
  {
    var run := AppContext[1..4];
    assert run == [AppContext[1], AppContext[2], AppContext[3]];
    RenderThree(AppContext[1], AppContext[2], AppContext[3], data);
    assert Fill(data, "appType", "<App Type>") == "mobile";
  }

  /** A three-piece run renders as its three texts in order. */
  lemma RenderThree(p: Piece, q: Piece, r: Piece, data: map<string, string>)
    ensures Render([p, q, r], data) == PieceText(p, data) + PieceText(q, data) + PieceText(r, data)
  {
    assert [p, q, r][1..] == [q, r];
    assert [q, r][1..] == [r];
    assert [r][1..] == [];
    assert Render([r], data) == PieceText(r, data) + "";
    assert Render([q, r], data) == PieceText(q, data) + Render([r], data);
    assert Render([p, q, r], data) == PieceText(p, data) + Render([q, r], data);
  }

  /** `categories.find((c) => c.id === id)`: the first category with that id. */
  function FindIn(cats: seq<Category>, id: string): (r: Option<Category>)
    ensures r.None? <==> forall k :: 0 <= k < |cats| ==> cats[k].id != id
    ensures r.Some? ==> r.value in cats && r.value.id == id
  {
    if cats == [] then None else if cats[0].id == id then Some(cats[0]) else FindIn(cats[1..], id)
  }

  /** What `find` returns is the first category with the id: none before it has that id. */
  lemma {:induction false} FindInFirst(cats: seq<Category>, id: string)
    ensures FindIn(cats, id).Some? ==> exists k :: (0 <= k < |cats| && cats[k] == FindIn(cats, id).value
                                                  && forall q :: 0 <= q < k ==> cats[q].id != id)
    decreases |cats|
  {
    if cats != [] && cats[0].id != id && FindIn(cats, id).Some? {
      var rest := cats[1..];
      FindInFirst(rest, id);
      var k :| 0 <= k < |rest| && rest[k] == FindIn(rest, id).value && forall q :: 0 <= q < k ==> rest[q].id != id;
      assert cats[k + 1] == FindIn(cats, id).value;
      forall q | 0 <= q < k + 1 ensures cats[q].id != id {
        if q > 0 { assert cats[q] == rest[q - 1]; }
      }
    }
  }

  function FindCategory(id: string): Option<Category> {
    FindIn(Registry, id)
  }

  /** With no category selected, both panels are empty whatever the form holds. */
  lemma UnselectedShowsNothing(data: map<string, string>)
    ensures ContextOf("", data) == "" && PromptsOf("", data) == ""
  {
    assert Registry[0].id == "app" && Registry[1].id == "business" && |Registry| == 2;
  }

  /** `currentCategory ? currentCategory.generateContext(formData) : ''`. */
  function ContextOf(categoryId: string, data: map<string, string>): string {
    match FindCategory(categoryId)
    case Some(c) => GenerateContext(c, data)
    case None => ""
  }

  /** `currentCategory ? currentCategory.generatePrompts(formData) : ''`. */
  function PromptsOf(categoryId: string, data: map<string, string>): string {
    match FindCategory(categoryId)
    case Some(c) => GeneratePrompts(c, data)
    case None => ""
  }

  /** `categories.flatMap((cat) => cat.fields)`. */
  function FieldsOf(cats: seq<Category>): (fs: seq<Field>)
    ensures forall c, f :: c in cats && f in c.fields ==> f in fs
    ensures forall f :: f in fs ==> exists c :: c in cats && f in c.fields
  {
    if cats == [] then [] else cats[0].fields + FieldsOf(cats[1..])
  }

  /** `Object.fromEntries(fields.map((f) => [f.name, '']))`. */
  function EmptyEntries(fields: seq<Field>): map<string, string> {
    if fields == [] then map[] else EmptyEntries(fields[..|fields| - 1])[fields[|fields| - 1].name := ""]
  }

  /** The entries built from a field list hold exactly the fields' names, each with "". */
  lemma {:induction false} EmptyEntriesBlank(fields: seq<Field>)
    ensures EmptyEntries(fields).Keys == FieldNames(fields)
    ensures forall key :: key in EmptyEntries(fields) ==> EmptyEntries(fields)[key] == ""
    decreases |fields|
  {
    if fields != [] {
      var init := fields[..|fields| - 1];
      assert FieldNames(fields) == FieldNames(init) + {fields[|fields| - 1].name} by {
        assert forall k :: 0 <= k < |init| ==> init[k] == fields[k];
      }
      EmptyEntriesBlank(init);
    }
  }

  /** `emptyData`: the entries for every field of every category. */
  function EmptyData(): map<string, string> {
    EmptyEntries(FieldsOf(Registry))
  }

  /** The initial form has a key for every field of every category, each mapped to the empty string. */
  lemma EmptyDataBlank()
    ensures EmptyData().Keys == FieldNames(FieldsOf(Registry))
    ensures forall c, f :: c in Registry && f in c.fields ==> f.name in EmptyData()
    ensures forall key :: key in EmptyData() ==> EmptyData()[key] == ""
  {
    var fs := FieldsOf(Registry);
    EmptyEntriesBlank(fs);
    forall f | f in fs ensures f.name in FieldNames(fs) {
      var k :| 0 <= k < |fs| && fs[k] == f;
    }
  }
}
