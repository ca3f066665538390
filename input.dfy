/** The choice between a one-line input and a textarea for a form field. */
module FieldInput {
  import opened Text
  import opened Categories

  /**
   * `useTextarea`: a value longer than 40 UTF-16 code units, or a label that, lower-cased,
   * mentions a description, features, goals or a summary.
   */
  predicate UseTextarea(caption: string, value: string) {
    Utf16Length(value) > 40
    || Contains(LowerAscii(caption), "description")
    || Contains(LowerAscii(caption), "features")
    || Contains(LowerAscii(caption), "goals")
    || Contains(LowerAscii(caption), "summary")
  }

  /** A value too long for one line always gets a textarea, whatever its label. */
  lemma LongValueUsesTextarea(caption: string, value: string)
    requires |value| > 40
    ensures UseTextarea(caption, value)
  {
  }

  /** A value of at most 20 characters never forces a textarea: only the label decides. */
  lemma ShortValueFollowsLabel(caption: string, value: string)
    requires |value| <= 20
    ensures UseTextarea(caption, value) == UseTextarea(caption, "")
  {
  }

  /** The four words whose presence in a lower-cased label asks for a textarea. */
  const Keywords: seq<string> := ["description", "features", "goals", "summary"]

  /** `sub` occurs, once lower-cased, in `s` at position `i`. */
  lemma LoweredOccurrence(s: string, sub: string, i: nat)
    requires i + |sub| <= |s|
    requires forall j :: 0 <= j < |sub| ==> LowerChar(s[i + j]) == sub[j]
    ensures Contains(LowerAscii(s), sub)
  {
    var l := LowerAscii(s);
    forall j | 0 <= j < |sub| ensures l[i..i + |sub|][j] == sub[j] {
      assert l[i + j] == LowerChar(s[i + j]);
    }
    assert l[i..i + |sub|] == sub;
    assert OccursAt(l, sub, i);
  }

  /** The upper-case form of a lower-case ASCII letter. */
  function UpperChar(c: char): (u: char)
    requires 'a' <= c <= 'z'
    ensures 'A' <= u <= 'Z' && LowerChar(u) == c
  {
    (c as int - 32) as char
  }

  /** Only the letter itself and its upper-case form lower-case to a given lower-case letter. */
  lemma LowerCharFrom(x: char, c: char)
    requires 'a' <= c <= 'z' && LowerChar(x) == c
    ensures x == c || x == UpperChar(c)
  {
  }

  /** Each letter of a word found in the lower-cased text is in the text, in one case or the other. */
  lemma LetterOfOccurrence(s: string, sub: string, c: char)
    requires 'a' <= c <= 'z' && c in sub
    ensures Contains(LowerAscii(s), sub) ==> c in s || UpperChar(c) in s
  {
    var l := LowerAscii(s);
    if Contains(l, sub) {
      var i :| OccursAt(l, sub, i);
      var j :| 0 <= j < |sub| && sub[j] == c;
      assert l[i + j] == c by {
        assert l[i..i + |sub|][j] == l[i + j];
      }
      LowerCharFrom(s[i + j], c);
      assert s[i + j] in s;
    }
  }

  /** A word holding a letter that the text lacks in either case does not occur in the lower-cased text. */
  lemma LetterAbsent(s: string, sub: string, c: char)
    requires 'a' <= c <= 'z' && c in sub && c !in s && UpperChar(c) !in s
    ensures !Contains(LowerAscii(s), sub)
  {
    LetterOfOccurrence(s, sub, c);
  }

  /** A label with no keyword in it gets a one-line input for every short value. */
  lemma PlainLabel(caption: string, value: string)
    requires Utf16Length(value) <= 40
    requires !Contains(LowerAscii(caption), "description") && !Contains(LowerAscii(caption), "features")
    requires !Contains(LowerAscii(caption), "goals") && !Contains(LowerAscii(caption), "summary")
    ensures !UseTextarea(caption, value)
  {
  }

  /** A label holding a keyword, in any letter case, gets a textarea for every value. */
  lemma KeywordLabel(caption: string, value: string, keyword: string, i: nat)
    requires keyword in Keywords && i + |keyword| <= |caption|
    requires forall j :: 0 <= j < |keyword| ==> LowerChar(caption[i + j]) == keyword[j]
    ensures UseTextarea(caption, value)
  {
    LoweredOccurrence(caption, keyword, i);
  }

  /** The app labels with a keyword: each shows its field as a textarea. */
  lemma AppTextareas(value: string)
    ensures UseTextarea(AppFields[2].caption, value) && AppFields[2].name == "mainGoals"
    ensures UseTextarea(AppFields[6].caption, value) && AppFields[6].name == "keyFeatures"
  {
    KeywordLabel(AppFields[2].caption, value, "goals", 5);
    KeywordLabel(AppFields[6].caption, value, "features", 4);
  }

  /** The business labels with a keyword: each shows its field as a textarea. */
  lemma BusinessTextareas(value: string)
    ensures UseTextarea(BusinessFields[2].caption, value) && BusinessFields[2].name == "businessGoals"
    ensures UseTextarea(BusinessFields[4].caption, value) && BusinessFields[4].name == "competitorSummary"
  {
    KeywordLabel(BusinessFields[2].caption, value, "goals", 9);
    KeywordLabel(BusinessFields[4].caption, value, "summary", 11);
  }

  /** Every keyword holds an 's': a label without that letter, in either case, never asks for a textarea. */
  lemma LabelWithoutS(caption: string, value: string)
    requires Utf16Length(value) <= 40
    requires forall k :: 0 <= k < |caption| ==> caption[k] != 's' && caption[k] != 'S'
    ensures !UseTextarea(caption, value)
  {
    assert 's' !in caption && 'S' !in caption;
    LetterAbsent(caption, "description", 's');
    LetterAbsent(caption, "features", 's');
    LetterAbsent(caption, "goals", 's');
    LetterAbsent(caption, "summary", 's');
    PlainLabel(caption, value);
  }

  /** The keyword-free labels of the registry that hold no 's' in either case. */
  lemma WithoutS(caption: string)
    requires caption == "App Type" || caption == "Target Audience" || caption == "Feature Name"
          || caption == "Deployment Platform" || caption == "Target Market" || caption == "Available Budget"
    ensures forall k :: 0 <= k < |caption| ==> caption[k] != 's' && caption[k] != 'S'
  {
  }

  /** Those labels keep a short value on one line. */
  lemma OneLineLabel(caption: string, value: string)
    requires Utf16Length(value) <= 40
    requires caption == "App Type" || caption == "Target Audience" || caption == "Feature Name"
          || caption == "Deployment Platform" || caption == "Target Market" || caption == "Available Budget"
    ensures !UseTextarea(caption, value)
  {
    WithoutS(caption);
    LabelWithoutS(caption, value);
  }

  /** The `appType` field, labelled "App Type", shows a short value in a one-line input. */
  lemma AppTypeInput(value: string)
    requires Utf16Length(value) <= 40
    ensures AppFields[0].name == "appType" && !UseTextarea(AppFields[0].caption, value)
  {
    assert AppFields[0].caption == "App Type";
    OneLineLabel(AppFields[0].caption, value);
  }

  /** The `targetAudience` field, labelled "Target Audience", shows a short value in a one-line input. */
  lemma TargetAudienceInput(value: string)
    requires Utf16Length(value) <= 40
    ensures AppFields[1].name == "targetAudience" && !UseTextarea(AppFields[1].caption, value)
  {
    assert AppFields[1].caption == "Target Audience";
    OneLineLabel(AppFields[1].caption, value);
  }

  /** The `featureName` field, labelled "Feature Name", shows a short value in a one-line input. */
  lemma FeatureNameInput(value: string)
    requires Utf16Length(value) <= 40
    ensures AppFields[8].name == "featureName" && !UseTextarea(AppFields[8].caption, value)
  {
    assert AppFields[8].caption == "Feature Name";
    OneLineLabel(AppFields[8].caption, value);
  }

  /** The `deploymentPlatform` field, labelled "Deployment Platform", shows a short value in a one-line input. */
  lemma DeploymentPlatformInput(value: string)
    requires Utf16Length(value) <= 40
    ensures AppFields[9].name == "deploymentPlatform" && !UseTextarea(AppFields[9].caption, value)
  {
    assert AppFields[9].caption == "Deployment Platform";
    OneLineLabel(AppFields[9].caption, value);
  }

  /** The `targetMarket` field, labelled "Target Market", shows a short value in a one-line input. */
  lemma TargetMarketInput(value: string)
    requires Utf16Length(value) <= 40
    ensures BusinessFields[1].name == "targetMarket" && !UseTextarea(BusinessFields[1].caption, value)
  {
    assert BusinessFields[1].caption == "Target Market";
    OneLineLabel(BusinessFields[1].caption, value);
  }

  /** The `budget` field, labelled "Available Budget", shows a short value in a one-line input. */
  lemma BudgetInput(value: string)
    requires Utf16Length(value) <= 40
    ensures BusinessFields[5].name == "budget" && !UseTextarea(BusinessFields[5].caption, value)
  {
    assert BusinessFields[5].caption == "Available Budget";
    OneLineLabel(BusinessFields[5].caption, value);
  }

  /** Two neighbouring characters that spell, in either letter case, the start of a keyword: "de", "fe", "go" or "su". */
  predicate KeywordOpening(a: char, b: char) {
    || ((a == 'd' || a == 'D' || a == 'f' || a == 'F') && (b == 'e' || b == 'E'))
    || ((a == 'g' || a == 'G') && (b == 'o' || b == 'O'))
    || ((a == 's' || a == 'S') && (b == 'u' || b == 'U'))
  }

  /** An occurrence of a word in the lower-cased text starts at a position whose two characters lower-case to the word's first two letters. */
  lemma PairOf(s: string, sub: string) returns (i: int)
    requires |sub| >= 2 && Contains(LowerAscii(s), sub)
    ensures 0 <= i < |s| - 1 && LowerChar(s[i]) == sub[0] && LowerChar(s[i + 1]) == sub[1]
  {
    var l := LowerAscii(s);
    i :| OccursAt(l, sub, i);
    assert l[i] == sub[0] by { assert l[i..i + |sub|][0] == l[i]; }
    assert l[i + 1] == sub[1] by { assert l[i..i + |sub|][1] == l[i + 1]; }
  }

  lemma OpeningOfLower(a: char, b: char, x: char, y: char)
    requires KeywordOpening(x, y) && 'a' <= x <= 'z' && 'a' <= y <= 'z'
    requires LowerChar(a) == x && LowerChar(b) == y
    ensures KeywordOpening(a, b)
  {
    LowerCharFrom(a, x);
    LowerCharFrom(b, y);
  }

  /** A keyword found in the lower-cased text has its opening spelled, in some letter case, in the text. */
  lemma OpeningOfOccurrence(s: string, sub: string)
    requires |sub| >= 2 && KeywordOpening(sub[0], sub[1]) && 'a' <= sub[0] <= 'z' && 'a' <= sub[1] <= 'z'
    ensures Contains(LowerAscii(s), sub) ==> exists i :: 0 <= i < |s| - 1 && KeywordOpening(s[i], s[i + 1])
  {
    if Contains(LowerAscii(s), sub) {
      var i := PairOf(s, sub);
      OpeningOfLower(s[i], s[i + 1], sub[0], sub[1]);
    }
  }

  /** The text spells no keyword's opening, in any letter case. */
  ghost predicate NoKeywordOpening(s: string) {
    forall i :: 0 <= i < |s| - 1 ==> !KeywordOpening(s[i], s[i + 1])
  }

  /** A label that spells no keyword's opening never asks for a textarea for a short value. */
  lemma LabelWithoutOpening(caption: string, value: string)
    requires Utf16Length(value) <= 40 && NoKeywordOpening(caption)
    ensures !UseTextarea(caption, value)
  {
    OpeningOfOccurrence(caption, "description");
    OpeningOfOccurrence(caption, "features");
    OpeningOfOccurrence(caption, "goals");
    OpeningOfOccurrence(caption, "summary");
    PlainLabel(caption, value);
  }

  /** "Frontend Tech Stack" spells no keyword's opening. */
  lemma FrontendTechLabel(caption: string)
    requires caption == "Frontend Tech Stack"
    ensures NoKeywordOpening(caption)
  {
  }

  /** The `frontendTech` field, labelled "Frontend Tech Stack", shows a short value in a one-line input. */
  lemma FrontendTechInput(value: string)
    requires Utf16Length(value) <= 40
    ensures AppFields[3].name == "frontendTech" && !UseTextarea(AppFields[3].caption, value)
  {
    assert AppFields[3].caption == "Frontend Tech Stack";
    FrontendTechLabel(AppFields[3].caption);
    LabelWithoutOpening(AppFields[3].caption, value);
  }

  /** "Backend Tech Stack" spells no keyword's opening. */
  lemma BackendTechLabel(caption: string)
    requires caption == "Backend Tech Stack"
    ensures NoKeywordOpening(caption)
  {
  }

  /** The `backendTech` field, labelled "Backend Tech Stack", shows a short value in a one-line input. */
  lemma BackendTechInput(value: string)
    requires Utf16Length(value) <= 40
    ensures AppFields[4].name == "backendTech" && !UseTextarea(AppFields[4].caption, value)
  {
    assert AppFields[4].caption == "Backend Tech Stack";
    BackendTechLabel(AppFields[4].caption);
    LabelWithoutOpening(AppFields[4].caption, value);
  }

  /** "Database Technology" spells no keyword's opening. */
  lemma DatabaseTechLabel(caption: string)
    requires caption == "Database Technology"
    ensures NoKeywordOpening(caption)
  {
  }

  /** The `databaseTech` field, labelled "Database Technology", shows a short value in a one-line input. */
  lemma DatabaseTechInput(value: string)
    requires Utf16Length(value) <= 40
    ensures AppFields[5].name == "databaseTech" && !UseTextarea(AppFields[5].caption, value)
  {
    assert AppFields[5].caption == "Database Technology";
    DatabaseTechLabel(AppFields[5].caption);
    LabelWithoutOpening(AppFields[5].caption, value);
  }

  /** "Non-Functional Requirements" spells no keyword's opening. */
  lemma NonFunctionalRequirementsLabel(caption: string)
    requires caption == "Non-Functional Requirements"
    ensures NoKeywordOpening(caption)
  {
  }

  /** The `nonFunctionalRequirements` field, labelled "Non-Functional Requirements", shows a short value in a one-line input. */
  lemma NonFunctionalRequirementsInput(value: string)
    requires Utf16Length(value) <= 40
    ensures AppFields[7].name == "nonFunctionalRequirements" && !UseTextarea(AppFields[7].caption, value)
  {
    assert AppFields[7].caption == "Non-Functional Requirements";
    NonFunctionalRequirementsLabel(AppFields[7].caption);
    LabelWithoutOpening(AppFields[7].caption, value);
  }

  /** "Industry" spells no keyword's opening. */
  lemma IndustryLabel(caption: string)
    requires caption == "Industry"
    ensures NoKeywordOpening(caption)
  {
  }

  /** The `industry` field, labelled "Industry", shows a short value in a one-line input. */
  lemma IndustryInput(value: string)
    requires Utf16Length(value) <= 40
    ensures BusinessFields[0].name == "industry" && !UseTextarea(BusinessFields[0].caption, value)
  {
    assert BusinessFields[0].caption == "Industry";
    IndustryLabel(BusinessFields[0].caption);
    LabelWithoutOpening(BusinessFields[0].caption, value);
  }

  /** "Main Competitors (comma separated)" spells no keyword's opening. */
  lemma CompetitorsLabel(caption: string)
    requires caption == "Main Competitors (comma separated)"
    ensures NoKeywordOpening(caption)
  {
  }

  /** The `competitors` field, labelled "Main Competitors (comma separated)", shows a short value in a one-line input. */
  lemma CompetitorsInput(value: string)
    requires Utf16Length(value) <= 40
    ensures BusinessFields[3].name == "competitors" && !UseTextarea(BusinessFields[3].caption, value)
  {
    assert BusinessFields[3].caption == "Main Competitors (comma separated)";
    CompetitorsLabel(BusinessFields[3].caption);
    LabelWithoutOpening(BusinessFields[3].caption, value);
  }
}
