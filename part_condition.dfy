/**
 * Part-condition disclosure for the California Bureau of Automotive Repair: each part line is
 * classified NEW, REMANUFACTURED or UNKNOWN from keywords in its description, and a parts list
 * is summarised with a YELLOW flag when some part needs a manual choice.
 */
module PartCondition {

  import opened Wrappers
  import opened Text
  import opened Flags

  datatype Condition = New | Remanufactured | Unknown

  datatype Confidence = High | Medium | Low

  /** The outcome of classifying one description. */
  datatype ConditionResult = ConditionResult(
    condition: Condition,
    confidence: Confidence,
    matchedKeyword: Option<string>,
    displayTag: Option<string>,
    requiresManualSelection: bool,
    flagColor: Option<string>)

  /** Words that mark a remanufactured part; they are checked before any NEW word. */
  const RemanKeywords: seq<string> := [
    "REMAN", "RMN", "REBUILT", "REFURB", "REFURBISHED",
    "CORE CHARGE", "EXCHANGE", "RECO", "RECONDITIONED",
    "REMANUFACTURED", "RMFD", "RFB"]

  /** Phrases that state explicitly that a part is new. */
  const NewKeywords: seq<string> := [
    "100% NEW", "BRAND NEW", "NEW OEM", "NEW AFTERMARKET",
    "FACTORY NEW", "GENUINE NEW"]

  /** The result for a description that says nothing usable. */
  const UnknownResult: ConditionResult :=
    ConditionResult(Unknown, Low, None, None, true, Some("YELLOW"))

  /** `keyword` is the first entry of `keywords`, in list order, that occurs in `text`. */
  predicate IsFirstMatch(keywords: seq<string>, text: string, keyword: string) {
    exists k :: 0 <= k < |keywords| && keywords[k] == keyword && Contains(text, keyword) &&
      forall j :: 0 <= j < k ==> !Contains(text, keywords[j])
  }

  /**
   * `detect_part_condition`: an empty description is UNKNOWN; otherwise, on the upper-cased
   * text, a REMAN word wins over everything, then an explicit NEW phrase (HIGH), then a bare
   * "NEW" (MEDIUM), else UNKNOWN. Manual selection and the YELLOW colour go with UNKNOWN.
   */
  function DetectPartCondition(description: string): (r: ConditionResult)
    ensures r.requiresManualSelection <==> r.condition == Unknown
    ensures r.flagColor == (if r.condition == Unknown then Some("YELLOW") else None)
    ensures r.condition == Unknown <==> r == UnknownResult
    ensures description == "" ==> r == UnknownResult
  {
    if description == "" then UnknownResult
    else
      var upper := Upper(description);
      match FirstIn(RemanKeywords, upper)
      case Some(k) =>
        ConditionResult(Remanufactured, High, Some(RemanKeywords[k]), Some("[REMANUFACTURED]"), false, None)
      case None =>
        match FirstIn(NewKeywords, upper)
        case Some(k) =>
          ConditionResult(New, High, Some(NewKeywords[k]), Some("[NEW]"), false, None)
        case None =>
          if Contains(upper, "NEW") then ConditionResult(New, Medium, Some("NEW"), Some("[NEW]"), false, None)
          else UnknownResult
  }

  /**
   * The priority order: REMANUFACTURED exactly when a REMAN word occurs, NEW / HIGH exactly when
   * no REMAN word but an explicit NEW phrase occurs, NEW / MEDIUM exactly when only a bare "NEW"
   * occurs; the reported keyword is the first match in list order.
   */
  lemma DetectPartConditionPriority(description: string)
    ensures var r := DetectPartCondition(description);
      && (r.condition == Remanufactured <==>
          (description != "" && AnyIn(RemanKeywords, Upper(description))))
      && ((r.condition == New && r.confidence == High) <==>
          (description != "" && !AnyIn(RemanKeywords, Upper(description)) &&
           AnyIn(NewKeywords, Upper(description))))
      && ((r.condition == New && r.confidence == Medium) <==>
          (description != "" && !AnyIn(RemanKeywords, Upper(description)) &&
           !AnyIn(NewKeywords, Upper(description)) && Contains(Upper(description), "NEW")))
      && (r.condition == Remanufactured ==>
          && r.confidence == High
          && r.displayTag == Some("[REMANUFACTURED]")
          && r.matchedKeyword.Some?
          && IsFirstMatch(RemanKeywords, Upper(description), r.matchedKeyword.value))
      && (r.condition == New && r.confidence == High ==>
          && r.displayTag == Some("[NEW]")
          && r.matchedKeyword.Some?
          && IsFirstMatch(NewKeywords, Upper(description), r.matchedKeyword.value))
      && (r.condition == New && r.confidence == Medium ==>
          r.displayTag == Some("[NEW]") && r.matchedKeyword == Some("NEW"))
  {
    if description != "" {
      var upper := Upper(description);
      match FirstIn(RemanKeywords, upper)
      case Some(k) =>
        assert IsFirstMatch(RemanKeywords, upper, RemanKeywords[k]);
      case None =>
        match FirstIn(NewKeywords, upper)
        case Some(k) =>
          assert IsFirstMatch(NewKeywords, upper, NewKeywords[k]);
        case None =>
    }
  }

  /** Every occurrence of `mid` in `s` carries the occurrences of `mid`'s own substrings. */
  lemma ContainsTransitive(s: string, mid: string, sub: string)
    requires Contains(s, mid) && Contains(mid, sub)
    ensures Contains(s, sub)
  {
    var i :| 0 <= i <= |s| && OccursAt(s, mid, i);
    var j :| 0 <= j <= |mid| && OccursAt(mid, sub, j);
    forall t | 0 <= t < |sub|
      ensures s[i + j + t] == sub[t]
    {
      assert s[i..i + |mid|][j + t] == mid[j + t];
      assert mid[j..j + |sub|][t] == sub[t];
    }
    assert s[i + j..i + j + |sub|] == sub;
    assert OccursAt(s, sub, i + j);
  }

  /**
   * Three REMAN words are never reported: each contains an earlier one ("REMAN" in
   * "REMANUFACTURED", "RECO" in "RECONDITIONED", "REFURB" in "REFURBISHED"), which matches first.
   */
  lemma ShadowedRemanKeywords(description: string)
    ensures DetectPartCondition(description).matchedKeyword != Some("REMANUFACTURED")
    ensures DetectPartCondition(description).matchedKeyword != Some("RECONDITIONED")
    ensures DetectPartCondition(description).matchedKeyword != Some("REFURBISHED")
  {
    DetectPartConditionPriority(description);
    var r := DetectPartCondition(description);
    if r.condition == Remanufactured {
      ShadowedFirstMatch(Upper(description), r.matchedKeyword.value);
    }
  }

  /** No text has one of the three shadowed REMAN words as its first REMAN match. */
  lemma ShadowedFirstMatch(upper: string, w: string)
    requires IsFirstMatch(RemanKeywords, upper, w)
    ensures w != "REMANUFACTURED" && w != "RECONDITIONED" && w != "REFURBISHED"
  {
    var k :| 0 <= k < |RemanKeywords| && RemanKeywords[k] == w && Contains(upper, w) &&
      forall j :: 0 <= j < k ==> !Contains(upper, RemanKeywords[j]);
    if k == 9 {
      assert OccursAt(RemanKeywords[9], RemanKeywords[0], 0);
      ShadowedBy(upper, 0, 9);
      assert false;
    } else if k == 8 {
      assert OccursAt(RemanKeywords[8], RemanKeywords[7], 0);
      ShadowedBy(upper, 7, 8);
      assert false;
    } else if k == 4 {
      assert OccursAt(RemanKeywords[4], RemanKeywords[3], 0);
      ShadowedBy(upper, 3, 4);
      assert false;
    }
  }

  /** A REMAN word that contains an earlier one can never be the first match. */
  lemma ShadowedBy(upper: string, j: nat, k: nat)
    requires j < k < |RemanKeywords| && Contains(RemanKeywords[k], RemanKeywords[j])
    ensures Contains(upper, RemanKeywords[k]) ==> Contains(upper, RemanKeywords[j])
  {
    if Contains(upper, RemanKeywords[k]) {
      ContainsTransitive(upper, RemanKeywords[k], RemanKeywords[j]);
    }
  }

  /** A REMAN word beats an explicit NEW phrase in the same description. */
  lemma RemanBeatsBrandNew()
    ensures DetectPartCondition("Reman starter, brand new").condition == Remanufactured
    ensures DetectPartCondition("Reman starter, brand new").matchedKeyword == Some("REMAN")
  {
    var upper := Upper("Reman starter, brand new");
    assert upper[0..5] == "REMAN";
    assert OccursAt(upper, RemanKeywords[0], 0);
  }

  /** "RENEWED CALIPER" holds no REMAN word and no explicit NEW phrase, but it holds "NEW". */
  lemma RenewedCaliperText(upper: string)
    requires upper == "RENEWED CALIPER"
    ensures !AnyIn(RemanKeywords, upper) && !AnyIn(NewKeywords, upper) && Contains(upper, "NEW")
  {
    RenewedCaliperNoReman(upper);
    RenewedCaliperNoNewPhrase(upper);
    assert OccursAt(upper, "NEW", 2);
  }

  /** None of the REMAN words occurs in "RENEWED CALIPER": each has a letter the text lacks. */
  lemma RenewedCaliperNoReman(upper: string)
    requires upper == "RENEWED CALIPER"
    ensures !AnyIn(RemanKeywords, upper)
  {
    MissingChar(upper, RemanKeywords[0], 2);
    MissingChar(upper, RemanKeywords[1], 1);
    MissingChar(upper, RemanKeywords[2], 2);
    MissingChar(upper, RemanKeywords[3], 2);
    MissingChar(upper, RemanKeywords[4], 2);
    MissingChar(upper, RemanKeywords[5], 1);
    MissingChar(upper, RemanKeywords[6], 1);
    MissingChar(upper, RemanKeywords[7], 3);
    MissingChar(upper, RemanKeywords[8], 3);
    MissingChar(upper, RemanKeywords[9], 2);
    MissingChar(upper, RemanKeywords[10], 1);
    MissingChar(upper, RemanKeywords[11], 1);
  }

  /** None of the explicit NEW phrases occurs in "RENEWED CALIPER". */
  lemma RenewedCaliperNoNewPhrase(upper: string)
    requires upper == "RENEWED CALIPER"
    ensures !AnyIn(NewKeywords, upper)
  {
    MissingChar(upper, NewKeywords[0], 0);
    MissingChar(upper, NewKeywords[1], 0);
    MissingChar(upper, NewKeywords[2], 4);
    MissingChar(upper, NewKeywords[3], 5);
    MissingChar(upper, NewKeywords[4], 0);
    MissingChar(upper, NewKeywords[5], 0);
  }

  /** Matching is on substrings: "renewed" holds "NEW", so a renewed caliper is NEW / MEDIUM. */
  lemma RenewedReadsAsNew()
    ensures DetectPartCondition("renewed caliper") == ConditionResult(New, Medium, Some("NEW"), Some("[NEW]"), false, None)
  {
    var upper := Upper("renewed caliper");
    assert upper == "RENEWED CALIPER";
    RenewedCaliperText(upper);
  }

  // ---------------------------------------------------------------------------
  // Processing a parts list
  // ---------------------------------------------------------------------------

  /** A part dictionary as the list carries it; a missing or None text field is `None`. */
  datatype PartInput = PartInput(description: Option<string>, manufacturer: Option<string>, partNumber: string)

  /** The input part, unchanged, with its condition and display description added. */
  datatype ProcessedPart = ProcessedPart(part: PartInput, condition: ConditionResult, displayDescription: string)

  datatype ConditionSummary = ConditionSummary(
    parts: seq<ProcessedPart>,
    totalParts: nat,
    autoDetected: nat,
    requiresReview: nat,
    hasUnknownConditions: bool,
    flag: Option<Flag>)

  /** `part.get(key, "") or ""`. */
  function OrEmpty(s: Option<string>): string {
    if s.Some? then s.value else ""
  }

  /** The text a part is classified on: description, a space, manufacturer. */
  function FullDescription(p: PartInput): string {
    OrEmpty(p.description) + " " + OrEmpty(p.manufacturer)
  }

  function ConditionOf(p: PartInput): ConditionResult {
    DetectPartCondition(FullDescription(p))
  }

  function ProcessPart(p: PartInput): ProcessedPart {
    var r := ConditionOf(p);
    var description := OrEmpty(p.description);
    ProcessedPart(p, r, if r.displayTag.Some? then description + " - " + r.displayTag.value else description)
  }

  /** The processed parts whose condition needs a manual choice. */
  function ReviewCount(parts: seq<ProcessedPart>): nat
    decreases |parts|
  {
    if parts == [] then 0
    else ReviewCount(parts[..|parts| - 1]) + (if parts[|parts| - 1].condition.requiresManualSelection then 1 else 0)
  }

  /** The processed parts whose condition was detected. */
  function AutoCount(parts: seq<ProcessedPart>): nat
    decreases |parts|
  {
    if parts == [] then 0
    else AutoCount(parts[..|parts| - 1]) + (if parts[|parts| - 1].condition.requiresManualSelection then 0 else 1)
  }

  function ManualSelectionFlag(requiresReview: nat): Flag {
    Flag(Yellow,
      WarningSign + " MANUAL SELECTION REQUIRED",
      NatToString(requiresReview) + " part(s) need condition selection (NEW or REMANUFACTURED)",
      "Select condition for flagged parts before sending to customer",
      "",
      [])
  }

  /** What `process_parts_list` returns when each part is classified by `process`. */
  function SummaryWith(process: PartInput -> ProcessedPart, parts: seq<PartInput>): ConditionSummary {
    var processed := seq(|parts|, i requires 0 <= i < |parts| => process(parts[i]));
    var review := ReviewCount(processed);
    ConditionSummary(processed, |parts|, AutoCount(processed), review, review > 0,
      if review > 0 then Some(ManualSelectionFlag(review)) else None)
  }

  /** What `process_parts_list` returns. */
  function SummaryOf(parts: seq<PartInput>): ConditionSummary {
    SummaryWith(ProcessPart, parts)
  }

  /** Appending one processed part moves exactly one of the two counts up by one. */
  lemma CountsAppend(before: seq<ProcessedPart>, part: ProcessedPart)
    ensures ReviewCount(before + [part]) ==
      ReviewCount(before) + (if part.condition.requiresManualSelection then 1 else 0)
    ensures AutoCount(before + [part]) ==
      AutoCount(before) + (if part.condition.requiresManualSelection then 0 else 1)
  {
    assert (before + [part])[..|before|] == before;
  }

  /** `process_parts_list` over a given per-part classification. */
  method ProcessPartsWith(process: PartInput -> ProcessedPart, parts: seq<PartInput>) returns (s: ConditionSummary)
    ensures s == SummaryWith(process, parts)
  {
    var processed: seq<ProcessedPart> := [];
    var autoDetected := 0;
    var requiresReview := 0;
    for i := 0 to |parts|
      invariant |processed| == i
      invariant forall k :: 0 <= k < i ==> processed[k] == process(parts[k])
      invariant autoDetected == AutoCount(processed)
      invariant requiresReview == ReviewCount(processed)
    {
      var part := process(parts[i]);
      CountsAppend(processed, part);
      processed := processed + [part];
      if part.condition.requiresManualSelection {
        requiresReview := requiresReview + 1;
      } else {
        autoDetected := autoDetected + 1;
      }
    }
    assert processed == seq(|parts|, i requires 0 <= i < |parts| => process(parts[i]));
    var flag: Option<Flag> := None;
    if requiresReview > 0 {
      flag := Some(ManualSelectionFlag(requiresReview));
    }
    s := ConditionSummary(processed, |parts|, autoDetected, requiresReview, requiresReview > 0, flag);
  }

  /** `process_parts_list`: classify each part in turn, counting detected and unresolved ones. */
  method ProcessPartsList(parts: seq<PartInput>) returns (s: ConditionSummary)
    ensures s == SummaryOf(parts)
  {
    s := ProcessPartsWith(ProcessPart, parts);
  }

  /** Every part is either detected or sent for review. */
  lemma {:induction false} CountsAddUp(parts: seq<ProcessedPart>)
    ensures AutoCount(parts) + ReviewCount(parts) == |parts|
    decreases |parts|
  {
    if parts != [] {
      CountsAddUp(parts[..|parts| - 1]);
    }
  }

  /** Nothing needs review exactly when every part's condition was detected. */
  lemma {:induction false} NoReviewIffAllDetected(parts: seq<ProcessedPart>)
    ensures ReviewCount(parts) == 0 <==> forall i :: 0 <= i < |parts| ==> !parts[i].condition.requiresManualSelection
    decreases |parts|
  {
    if parts != [] {
      var init := parts[..|parts| - 1];
      NoReviewIffAllDetected(init);
      if ReviewCount(parts) == 0 {
        forall i | 0 <= i < |parts|
          ensures !parts[i].condition.requiresManualSelection
        {
          if i < |init| {
            assert init[i] == parts[i];
          }
        }
      }
    }
  }

  /**
   * Over any classification: the summary keeps one processed part per input, in order; the
   * counts add up to the number of parts; the YELLOW flag and the unknown-conditions marker are
   * there exactly when some part needs review.
   */
  lemma SummaryWithCorrect(process: PartInput -> ProcessedPart, parts: seq<PartInput>)
    ensures var s := SummaryWith(process, parts);
      && |s.parts| == |parts| == s.totalParts
      && (forall i :: 0 <= i < |parts| ==> s.parts[i] == process(parts[i]))
      && s.autoDetected + s.requiresReview == s.totalParts
      && (s.flag.Some? <==> s.requiresReview > 0)
      && (s.flag.Some? ==> s.flag.value.kind == Yellow)
      && (s.hasUnknownConditions <==>
            exists i :: 0 <= i < |parts| && process(parts[i]).condition.requiresManualSelection)
  {
    var processed := SummaryWith(process, parts).parts;
    CountsAddUp(processed);
    NoReviewIffAllDetected(processed);
    if ReviewCount(processed) > 0 {
      var i :| 0 <= i < |processed| && processed[i].condition.requiresManualSelection;
      assert process(parts[i]).condition.requiresManualSelection;
    }
  }

  /** A processed part keeps its input and its classification, and needs review exactly when UNKNOWN. */
  lemma ProcessPartCorrect(p: PartInput)
    ensures ProcessPart(p).part == p && ProcessPart(p).condition == ConditionOf(p)
    ensures ProcessPart(p).condition.requiresManualSelection <==> ConditionOf(p).condition == Unknown
  {
  }

  /**
   * The summary keeps every part, in order and unchanged, with its own classification; the
   * counts add up to the number of parts; the YELLOW flag is there exactly when some part's
   * condition is UNKNOWN.
   */
  lemma SummaryCorrect(parts: seq<PartInput>)
    ensures var s := SummaryOf(parts);
      && |s.parts| == |parts| == s.totalParts
      && (forall i :: 0 <= i < |parts| ==>
            s.parts[i].part == parts[i] && s.parts[i].condition == DetectPartCondition(FullDescription(parts[i])))
      && s.autoDetected + s.requiresReview == s.totalParts
      && (s.flag.Some? <==> s.requiresReview > 0)
      && (s.flag.Some? ==> s.flag.value.kind == Yellow)
      && (s.hasUnknownConditions <==> exists i :: 0 <= i < |parts| && ConditionOf(parts[i]).condition == Unknown)
  {
    SummaryWithCorrect(ProcessPart, parts);
    forall i | 0 <= i < |parts|
      ensures ProcessPart(parts[i]).part == parts[i] && ProcessPart(parts[i]).condition == ConditionOf(parts[i])
      ensures ProcessPart(parts[i]).condition.requiresManualSelection <==> ConditionOf(parts[i]).condition == Unknown
    {
      ProcessPartCorrect(parts[i]);
    }
  }

  /** The classified text is never empty, so the empty-description branch is not reached from a list. */
  lemma FullDescriptionNonEmpty(p: PartInput)
    ensures FullDescription(p) != ""
    ensures |FullDescription(p)| == |OrEmpty(p.description)| + 1 + |OrEmpty(p.manufacturer)|
  {
  }
}
