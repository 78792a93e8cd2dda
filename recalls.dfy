// Recall matching: a customer complaint and each open recall are matched against a map of
// component categories to synonyms; a recall whose text shares a category with the complaint
// is a possible recall match and raises a RED flag.
module Recalls {
  import opened Wrappers
  import opened Text
  import opened Flags

  /** `RecallInfo`: one open recall as fetched for a vehicle. */
  datatype RecallInfo = RecallInfo(
    campaignNumber: string,
    manufacturer: string,
    component: string,
    summary: string,
    consequence: string,
    remedy: string)

  /** An entry of `all_recalls`: every field, long texts shortened. */
  datatype RecallEntry = RecallEntry(
    campaignNumber: string,
    manufacturer: string,
    component: string,
    summary: string,
    consequence: string,
    remedy: string)

  /** An entry of `matching_recalls`. */
  datatype MatchEntry = MatchEntry(campaignNumber: string, component: string, summary: string)

  /** The result of `check_recalls`. */
  datatype RecallCheck = RecallCheck(
    success: bool,
    hasOpenRecalls: bool,
    hasMatchingRecall: bool,
    openRecallsCount: nat,
    matchingRecallsCount: nat,
    allRecalls: seq<RecallEntry>,
    matchingRecalls: seq<MatchEntry>,
    flag: Option<Flag>)

  /** A component category and its synonyms. */
  datatype Category = Category(name: string, keywords: seq<string>)

  /** `component_mappings`, in its insertion order. */
  const ComponentMappings: seq<Category> := [
    Category("brake", ["brake", "braking", "abs", "stopping"]),
    Category("fuel", ["fuel", "gas", "gasoline", "leak", "smell"]),
    Category("engine", ["engine", "motor", "stall", "power"]),
    Category("steering", ["steering", "wheel", "turn", "handling"]),
    Category("airbag", ["airbag", "air bag", "srs", "safety"]),
    Category("electrical", ["electrical", "battery", "short", "fire"]),
    Category("transmission", ["transmission", "gear", "shift"]),
    Category("suspension", ["suspension", "shock", "strut"]),
    Category("tire", ["tire", "wheel", "tyre"]),
    Category("cooling", ["coolant", "radiator", "overheat", "temperature"])
  ]

  /** The names of the categories one of whose synonyms occurs in `text`. */
  function MentionedCategories(mappings: seq<Category>, text: string): set<string> {
    set j | 0 <= j < |mappings| && AnyIn(mappings[j].keywords, text) :: mappings[j].name
  }

  /** `f"{recall.component} {recall.summary}".lower()` */
  function RecallText(recall: RecallInfo): string {
    Lower(recall.component + " " + recall.summary)
  }

  /** Some category named in `categories` has a synonym in the recall text. */
  predicate RecallMatches(mappings: seq<Category>, categories: set<string>, recallText: string) {
    exists j :: 0 <= j < |mappings| && mappings[j].name in categories && AnyIn(mappings[j].keywords, recallText)
  }

  /** The recalls that match, in input order. */
  function FilterMatches(mappings: seq<Category>, categories: set<string>, recalls: seq<RecallInfo>): seq<RecallInfo>
    decreases |recalls|
  {
    if recalls == [] then []
    else
      var last := recalls[|recalls| - 1];
      FilterMatches(mappings, categories, recalls[..|recalls| - 1]) +
        (if RecallMatches(mappings, categories, RecallText(last)) then [last] else [])
  }

  /** What `match_complaint_to_recalls` returns for a given category map. */
  function MatchingRecalls(mappings: seq<Category>, complaint: string, recalls: seq<RecallInfo>): seq<RecallInfo> {
    if complaint == [] || recalls == [] then []
    else FilterMatches(mappings, MentionedCategories(mappings, Lower(complaint)), recalls)
  }

  lemma MentionedStep(mappings: seq<Category>, i: nat, text: string)
    requires i < |mappings|
    ensures MentionedCategories(mappings[..i + 1], text) ==
      MentionedCategories(mappings[..i], text) +
        (if AnyIn(mappings[i].keywords, text) then {mappings[i].name} else {})
  {
    var prefix := mappings[..i + 1];
    assert forall j :: 0 <= j < i ==> prefix[j] == mappings[..i][j];
  }

  lemma FilterStep(mappings: seq<Category>, categories: set<string>, recalls: seq<RecallInfo>, r: nat)
    requires r < |recalls|
    ensures FilterMatches(mappings, categories, recalls[..r + 1]) ==
      FilterMatches(mappings, categories, recalls[..r]) +
        (if RecallMatches(mappings, categories, RecallText(recalls[r])) then [recalls[r]] else [])
  {
    assert recalls[..r + 1][..r] == recalls[..r];
  }

  /**
   * The loops of `match_complaint_to_recalls` over a given category map: collect the categories
   * the complaint mentions, then keep each recall, once, when a collected category has a synonym
   * in its text.
   */
  method MatchComplaintIn(mappings: seq<Category>, complaint: string, recalls: seq<RecallInfo>)
    returns (matching: seq<RecallInfo>)
    ensures matching == MatchingRecalls(mappings, complaint, recalls)
  {
    if complaint == [] || recalls == [] {
      return [];
    }
    var complaintLower := Lower(complaint);
    var categories: set<string> := {};
    for i := 0 to |mappings|
      invariant categories == MentionedCategories(mappings[..i], complaintLower)
    {
      MentionedStep(mappings, i, complaintLower);
      if AnyIn(mappings[i].keywords, complaintLower) {
        categories := categories + {mappings[i].name};
      }
    }
    assert mappings[..|mappings|] == mappings;
    matching := [];
    for r := 0 to |recalls|
      invariant matching == FilterMatches(mappings, categories, recalls[..r])
    {
      var recall := recalls[r];
      var recallText := RecallText(recall);
      FilterStep(mappings, categories, recalls, r);
      var c := 0;
      while c < |mappings|
        invariant 0 <= c <= |mappings|
        invariant forall j :: 0 <= j < c ==>
          !(mappings[j].name in categories && AnyIn(mappings[j].keywords, recallText))
        invariant matching == FilterMatches(mappings, categories, recalls[..r])
      {
        if mappings[c].name in categories {
          if AnyIn(mappings[c].keywords, recallText) {
            matching := matching + [recall];
            break;
          }
        }
        c := c + 1;
      }
    }
    assert recalls[..|recalls|] == recalls;
  }

  /** `match_complaint_to_recalls` over `component_mappings`. */
  method MatchComplaintToRecalls(complaint: string, recalls: seq<RecallInfo>) returns (matching: seq<RecallInfo>)
    ensures matching == MatchingRecalls(ComponentMappings, complaint, recalls)
  {
    matching := MatchComplaintIn(ComponentMappings, complaint, recalls);
  }

  // ---- the matches are the matching recalls, in order, once each ----

  /** The input positions of the kept recalls. */
  function MatchIndices(mappings: seq<Category>, categories: set<string>, recalls: seq<RecallInfo>): seq<nat>
    decreases |recalls|
  {
    if recalls == [] then []
    else
      var n := |recalls| - 1;
      MatchIndices(mappings, categories, recalls[..n]) +
        (if RecallMatches(mappings, categories, RecallText(recalls[n])) then [n] else [])
  }

  /** The kept recalls are the input recalls at strictly increasing positions. */
  lemma {:induction false} FilterIsSubsequence(mappings: seq<Category>, categories: set<string>, recalls: seq<RecallInfo>)
    ensures var m := FilterMatches(mappings, categories, recalls);
      var idx := MatchIndices(mappings, categories, recalls);
      && |idx| == |m|
      && (forall k :: 0 <= k < |idx| ==> idx[k] < |recalls| && m[k] == recalls[idx[k]])
      && (forall k, l :: 0 <= k < l < |idx| ==> idx[k] < idx[l])
    decreases |recalls|
  {
    if recalls != [] {
      var n := |recalls| - 1;
      var init := recalls[..n];
      FilterIsSubsequence(mappings, categories, init);
    }
  }

  /** A position is kept exactly when its recall matches. */
  lemma {:induction false} FilterKeepsMatches(mappings: seq<Category>, categories: set<string>, recalls: seq<RecallInfo>)
    ensures var idx := MatchIndices(mappings, categories, recalls);
      forall i :: 0 <= i < |recalls| ==> (i in idx <==> RecallMatches(mappings, categories, RecallText(recalls[i])))
    decreases |recalls|
  {
    if recalls != [] {
      var n := |recalls| - 1;
      var init := recalls[..n];
      FilterIsSubsequence(mappings, categories, init);
      FilterKeepsMatches(mappings, categories, init);
      var idx := MatchIndices(mappings, categories, recalls);
      var idx0 := MatchIndices(mappings, categories, init);
      assert forall k :: 0 <= k < |idx0| ==> idx0[k] < n;
      forall i | 0 <= i < |recalls|
        ensures i in idx <==> RecallMatches(mappings, categories, RecallText(recalls[i]))
      {
        if i < n {
          assert init[i] == recalls[i];
        }
      }
    }
  }

  /** One category of `component_mappings` has a synonym in both texts. */
  predicate SharesCategory(complaintLower: string, recallText: string) {
    exists j :: 0 <= j < |ComponentMappings| &&
      AnyIn(ComponentMappings[j].keywords, complaintLower) && AnyIn(ComponentMappings[j].keywords, recallText)
  }

  /** The category names of `component_mappings` are distinct. */
  lemma CategoryNamesDistinct()
    ensures forall i, j :: 0 <= i < j < |ComponentMappings| ==> ComponentMappings[i].name != ComponentMappings[j].name
  {
  }

  /**
   * Over `component_mappings`, a recall matches exactly when one category has a synonym both in
   * the lowercased complaint and in the lowercased recall text.
   */
  lemma MatchesSharedCategory(complaintLower: string, recallText: string)
    ensures RecallMatches(ComponentMappings, MentionedCategories(ComponentMappings, complaintLower), recallText) <==>
      SharesCategory(complaintLower, recallText)
  {
    var m := ComponentMappings;
    var cats := MentionedCategories(m, complaintLower);
    if RecallMatches(m, cats, recallText) {
      var j :| 0 <= j < |m| && m[j].name in cats && AnyIn(m[j].keywords, recallText);
      var j' :| 0 <= j' < |m| && AnyIn(m[j'].keywords, complaintLower) && m[j'].name == m[j].name;
      CategoryNamesDistinct();
      assert j' == j;
    }
    if SharesCategory(complaintLower, recallText) {
      var j :| 0 <= j < |m| && AnyIn(m[j].keywords, complaintLower) && AnyIn(m[j].keywords, recallText);
      assert m[j].name in cats;
    }
  }

  /**
   * `match_complaint_to_recalls`: nothing for an empty complaint or list; otherwise the recalls
   * sharing a category with the complaint, in input order, each once.
   */
  lemma MatchingRecallsCorrect(complaint: string, recalls: seq<RecallInfo>)
    ensures complaint == [] || recalls == [] ==> MatchingRecalls(ComponentMappings, complaint, recalls) == []
    ensures complaint != [] ==>
      var cats := MentionedCategories(ComponentMappings, Lower(complaint));
      var m := MatchingRecalls(ComponentMappings, complaint, recalls);
      var idx := MatchIndices(ComponentMappings, cats, recalls);
      && |idx| == |m|
      && (forall k :: 0 <= k < |idx| ==> idx[k] < |recalls| && m[k] == recalls[idx[k]])
      && (forall k, l :: 0 <= k < l < |idx| ==> idx[k] < idx[l])
      && (forall i :: 0 <= i < |recalls| ==> (i in idx <==> SharesCategory(Lower(complaint), RecallText(recalls[i]))))
  {
    if complaint != [] {
      var cats := MentionedCategories(ComponentMappings, Lower(complaint));
      FilterIsSubsequence(ComponentMappings, cats, recalls);
      FilterKeepsMatches(ComponentMappings, cats, recalls);
      forall i | 0 <= i < |recalls|
        ensures RecallMatches(ComponentMappings, cats, RecallText(recalls[i])) <==>
          SharesCategory(Lower(complaint), RecallText(recalls[i]))
      {
        MatchesSharedCategory(Lower(complaint), RecallText(recalls[i]));
      }
      if recalls == [] {
        assert MatchIndices(ComponentMappings, cats, recalls) == [];
      }
    }
  }

  // ---- check_recalls ----

  /** `text[:200] + "..." if len(text) > 200 else text` on the long fields. */
  function Shorten(r: RecallInfo): RecallEntry {
    RecallEntry(r.campaignNumber, r.manufacturer, r.component,
      Truncate(r.summary, 200), Truncate(r.consequence, 200), Truncate(r.remedy, 200))
  }

  function MatchEntryOf(r: RecallInfo): MatchEntry {
    MatchEntry(r.campaignNumber, r.component, Truncate(r.summary, 200))
  }

  /** The RED flag raised for the first matching recall. */
  function RecallFlag(first: RecallInfo): Flag {
    Flag(Red,
      WarningSign + " RECALL ALERT",
      "Possible recall match detected! Campaign: " + first.campaignNumber,
      "Verify with dealer - customer may get FREE repair under recall",
      Truncate(first.summary, 150),
      [])
  }

  /** The record `check_recalls` returns for a fetched recall list, over a given category table. */
  function RecallCheckIn(mappings: seq<Category>, recalls: seq<RecallInfo>, complaintDescription: string): RecallCheck {
    var m := MatchingRecalls(mappings, complaintDescription, recalls);
    RecallCheck(true, recalls != [], m != [], |recalls|, |m|,
      seq(|recalls|, i requires 0 <= i < |recalls| => Shorten(recalls[i])),
      seq(|m|, i requires 0 <= i < |m| => MatchEntryOf(m[i])),
      if m != [] then Some(RecallFlag(m[0])) else None)
  }

  /** The record `check_recalls` returns for a fetched recall list. */
  function RecallCheckOf(recalls: seq<RecallInfo>, complaintDescription: string): RecallCheck {
    RecallCheckIn(ComponentMappings, recalls, complaintDescription)
  }

  /**
   * `check_recalls` over a given category table, with the fetched recall list as input: counts,
   * shortened copies of every recall, the matching ones, and a RED flag citing the first match
   * exactly when there is one.
   */
  method CheckRecallsIn(mappings: seq<Category>, recalls: seq<RecallInfo>, complaintDescription: string)
    returns (result: RecallCheck)
    ensures result.success
    ensures result.hasOpenRecalls <==> recalls != []
    ensures result.openRecallsCount == |recalls|
    ensures |result.allRecalls| == |recalls|
    ensures forall i :: 0 <= i < |recalls| ==> result.allRecalls[i] == Shorten(recalls[i])
    ensures var m := MatchingRecalls(mappings, complaintDescription, recalls);
      && (result.hasMatchingRecall <==> m != [])
      && result.matchingRecallsCount == |m|
      && |result.matchingRecalls| == |m|
      && (forall i :: 0 <= i < |m| ==> result.matchingRecalls[i] == MatchEntryOf(m[i]))
      && (result.flag.Some? <==> m != [])
      && (m != [] ==> result.flag == Some(RecallFlag(m[0])))
    ensures result == RecallCheckIn(mappings, recalls, complaintDescription)
  {
    result := RecallCheck(true, false, false, 0, 0, [], [], None);
    result := result.(hasOpenRecalls := |recalls| > 0, openRecallsCount := |recalls|);
    result := result.(allRecalls := seq(|recalls|, i requires 0 <= i < |recalls| => Shorten(recalls[i])));
    var matching := MatchComplaintIn(mappings, complaintDescription, recalls);
    if matching != [] {
      result := result.(
        hasMatchingRecall := true,
        matchingRecallsCount := |matching|,
        matchingRecalls := seq(|matching|, i requires 0 <= i < |matching| => MatchEntryOf(matching[i])));
      result := result.(flag := Some(RecallFlag(matching[0])));
    }
  }

  /** `check_recalls` with the component categories of `COMPONENT_MAPPINGS`. */
  method CheckRecalls(recalls: seq<RecallInfo>, complaintDescription: string) returns (result: RecallCheck)
    ensures result == RecallCheckOf(recalls, complaintDescription)
  {
    result := CheckRecallsIn(ComponentMappings, recalls, complaintDescription);
  }

  /** Long recall texts are cut to 200 characters plus "...", short ones kept; flag details to 150. */
  lemma ShortenedTexts(r: RecallInfo)
    ensures |r.summary| <= 200 ==> Shorten(r).summary == r.summary
    ensures |r.summary| > 200 ==> Shorten(r).summary == r.summary[..200] + "..."
    ensures |Shorten(r).consequence| <= 203 && |Shorten(r).remedy| <= 203
    ensures |RecallFlag(r).details| <= 153
    ensures RecallFlag(r).details[..if |r.summary| <= 150 then |r.summary| else 150] ==
      r.summary[..if |r.summary| <= 150 then |r.summary| else 150]
  {
  }

  /** "Brakes pull to the left" matches a recall of the service brakes. */
  lemma BrakeComplaintMatchesBrakeRecall()
    ensures var recall := RecallInfo("23V123000", "Maker", "SERVICE BRAKES", "Brake line may corrode", "", "");
      MatchingRecalls(ComponentMappings, "Brakes pull to the left", [recall]) == [recall]
  {
    var recall := RecallInfo("23V123000", "Maker", "SERVICE BRAKES", "Brake line may corrode", "", "");
    var complaintLower := Lower("Brakes pull to the left");
    assert complaintLower[..5] == "brake";
    assert OccursAt(complaintLower, ComponentMappings[0].keywords[0], 0);
    var text := RecallText(recall);
    assert text[8..13] == "brake";
    assert OccursAt(text, ComponentMappings[0].keywords[0], 8);
    MatchesSharedCategory(complaintLower, text);
    var cats := MentionedCategories(ComponentMappings, complaintLower);
    assert RecallMatches(ComponentMappings, cats, text);
    assert [recall][..0] == [];
  }
}
