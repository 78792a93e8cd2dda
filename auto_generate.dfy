/**
 * The estimate pipeline: decode the VIN, check recalls and warranty, look up labor and parts,
 * compare vendors, classify part conditions, add the routine add-ons and price the estimate,
 * recording each step's outcome and collecting the advisor flags in step order; then score the
 * run's confidence and decide its overall success.
 *
 * The collaborators (the VIN decoder's HTTP response, the recall fetch, the labor and parts
 * adapters and the vendor offer fetch) are inputs; an `Err` stands for the exception they raise.
 */
module AutoGenerate {
  import opened Wrappers
  import opened Text
  import opened Flags
  import opened Adapters
  import opened Calculation
  import Vendor
  import PartCondition
  import AddOns
  import Recalls
  import Warranty
  import VinDecoder

  // ---------------------------------------------------------------------------
  // Job type
  // ---------------------------------------------------------------------------

  const BrakeKeywords: seq<string> := ["brake", "pad", "rotor", "caliper"]
  const EngineKeywords: seq<string> := ["engine", "motor", "oil", "gasket"]
  const AcKeywords: seq<string> := ["ac", "air condition", "a/c", "compressor", "freon"]

  /** `_detect_job_type`: the first keyword bucket with a hit in the lowercased request. */
  function DetectJobType(serviceRequest: string): string {
    var text := Lower(serviceRequest);
    if AnyIn(BrakeKeywords, text) then "brake_service"
    else if AnyIn(EngineKeywords, text) then "engine_repair"
    else if AnyIn(AcKeywords, text) then "ac_service"
    else "general"
  }

  /**
   * The buckets are tried brake, engine, AC; each answer is a kit the calculation knows, and
   * the transmission and suspension kits are never chosen.
   */
  lemma DetectJobTypeCorrect(serviceRequest: string)
    ensures var r := DetectJobType(serviceRequest);
      var text := Lower(serviceRequest);
      && (r == "brake_service" <==> AnyIn(BrakeKeywords, text))
      && (r == "engine_repair" <==> !AnyIn(BrakeKeywords, text) && AnyIn(EngineKeywords, text))
      && (r == "ac_service" <==>
            !AnyIn(BrakeKeywords, text) && !AnyIn(EngineKeywords, text) && AnyIn(AcKeywords, text))
      && (r == "general" <==>
            !AnyIn(BrakeKeywords, text) && !AnyIn(EngineKeywords, text) && !AnyIn(AcKeywords, text))
      && r in CleaningKits
      && r != "transmission" && r != "suspension"
  {
  }

  /** "ac" is found inside "replace", so a request to replace anything unrelated reads as AC work. */
  lemma ReplaceReadsAsAcService()
    ensures DetectJobType("Replace horn") == "ac_service"
  {
    var text := Lower("Replace horn");
    assert text == "replace horn";
    MissingChar(text, "brake", 0);
    MissingChar(text, "pad", 2);
    MissingChar(text, "rotor", 2);
    MissingChar(text, "caliper", 3);
    MissingChar(text, "engine", 2);
    MissingChar(text, "motor", 0);
    MissingChar(text, "oil", 1);
    MissingChar(text, "gasket", 0);
    assert OccursAt(text, AcKeywords[0], 4);
  }

  // ---------------------------------------------------------------------------
  // Steps and confidence
  // ---------------------------------------------------------------------------

  /** The keys of `result["steps"]`, in the order the pipeline inserts them. */
  datatype StepName =
    | VehicleDecode | RecallCheck | WarrantyCheck | LaborLookup | PartsSearch
    | VendorCompare | PartConditions | AddonDetection | CalculationStep

  /** A step ran, was skipped (and counts as a success), or failed with an error message. */
  datatype StepStatus = Ran | Skipped | Failed(error: string)

  datatype Step = Step(name: StepName, status: StepStatus)

  predicate Succeeded(s: Step) { !s.status.Failed? }

  predicate AllSucceeded(steps: seq<Step>) { forall i :: 0 <= i < |steps| ==> Succeeded(steps[i]) }

  predicate AllInfo(flags: seq<Flag>) { forall i :: 0 <= i < |flags| ==> flags[i].kind == Info }

  datatype Threshold = High | Medium | Low

  /** The `confidence_score` entry. */
  datatype ConfidenceScore = ConfidenceScore(score: nat, percentage: string, threshold: Threshold, action: string)

  /** A failed decode or labor lookup costs 30 points, any other failed step 10. */
  function StepPenalty(s: Step): int {
    if !s.status.Failed? then 0
    else if s.name == VehicleDecode || s.name == LaborLookup then 30
    else 10
  }

  /** RED costs 20 points, WARNING 10, YELLOW 5 and INFO nothing. */
  function FlagPenalty(f: Flag): int {
    match f.kind
    case Red => 20
    case Warning => 10
    case Yellow => 5
    case Info => 0
  }

  function StepsPenalty(steps: seq<Step>): int
    decreases |steps|
  {
    if steps == [] then 0 else StepsPenalty(steps[..|steps| - 1]) + StepPenalty(steps[|steps| - 1])
  }

  function FlagsPenalty(flags: seq<Flag>): int
    decreases |flags|
  {
    if flags == [] then 0 else FlagsPenalty(flags[..|flags| - 1]) + FlagPenalty(flags[|flags| - 1])
  }

  /** 100 less the penalties, clamped at 0. */
  function ScoreOf(steps: seq<Step>, flags: seq<Flag>): nat {
    var raw := 100 - StepsPenalty(steps) - FlagsPenalty(flags);
    if raw < 0 then 0 else raw
  }

  function ThresholdOf(score: int): Threshold {
    if score >= 90 then High else if score >= 70 then Medium else Low
  }

  function ActionOf(t: Threshold): string {
    match t
    case High => "Auto-proceed"
    case Medium => "Quick advisor review recommended"
    case Low => "Human advisor required"
  }

  /** The record `_calculate_confidence_score` returns. */
  function ConfidenceOf(steps: seq<Step>, flags: seq<Flag>): ConfidenceScore {
    var score := ScoreOf(steps, flags);
    var t := ThresholdOf(score);
    ConfidenceScore(score, NatToString(score) + "%", t, ActionOf(t))
  }

  /** `_calculate_confidence_score`: deduct per failed step, then per flag, then clamp. */
  method CalculateConfidenceScore(steps: seq<Step>, flags: seq<Flag>) returns (c: ConfidenceScore)
    ensures c == ConfidenceOf(steps, flags)
  {
    var score := 100;
    for i := 0 to |steps|
      invariant score == 100 - StepsPenalty(steps[..i])
    {
      assert steps[..i + 1][..i] == steps[..i];
      if steps[i].status.Failed? {
        if steps[i].name == VehicleDecode || steps[i].name == LaborLookup {
          score := score - 30;
        } else {
          score := score - 10;
        }
      }
    }
    assert steps[..|steps|] == steps;
    for i := 0 to |flags|
      invariant score == 100 - StepsPenalty(steps) - FlagsPenalty(flags[..i])
    {
      assert flags[..i + 1][..i] == flags[..i];
      if flags[i].kind == Red {
        score := score - 20;
      } else if flags[i].kind == Warning {
        score := score - 10;
      } else if flags[i].kind == Yellow {
        score := score - 5;
      }
    }
    assert flags[..|flags|] == flags;
    if score < 0 {
      score := 0;
    }
    var threshold: Threshold;
    var action: string;
    if score >= 90 {
      threshold, action := High, "Auto-proceed";
    } else if score >= 70 {
      threshold, action := Medium, "Quick advisor review recommended";
    } else {
      threshold, action := Low, "Human advisor required";
    }
    c := ConfidenceScore(score, NatToString(score) + "%", threshold, action);
  }

  lemma {:induction false} StepsPenaltyBounds(steps: seq<Step>)
    ensures 0 <= StepsPenalty(steps) <= 30 * |steps|
    ensures AllSucceeded(steps) ==> StepsPenalty(steps) == 0
    decreases |steps|
  {
    if steps != [] {
      StepsPenaltyBounds(steps[..|steps| - 1]);
    }
  }

  lemma {:induction false} FlagsPenaltyBounds(flags: seq<Flag>)
    ensures 0 <= FlagsPenalty(flags) <= 20 * |flags|
    ensures AllInfo(flags) ==> FlagsPenalty(flags) == 0
    decreases |flags|
  {
    if flags != [] {
      FlagsPenaltyBounds(flags[..|flags| - 1]);
    }
  }

  /**
   * The score lies in [0, 100]; it is 100 and HIGH when no step failed and every flag is INFO;
   * and the threshold is HIGH from 90, MEDIUM from 70 and LOW below, with its advice.
   */
  lemma ConfidenceCorrect(steps: seq<Step>, flags: seq<Flag>)
    ensures var c := ConfidenceOf(steps, flags);
      && 0 <= c.score <= 100
      && (AllSucceeded(steps) && AllInfo(flags) ==> c.score == 100 && c.threshold == High)
      && (c.threshold == High <==> c.score >= 90)
      && (c.threshold == Medium <==> 70 <= c.score < 90)
      && (c.threshold == Low <==> c.score < 70)
      && (c.threshold == Low ==> c.action == "Human advisor required")
      && (c.threshold == High ==> c.action == "Auto-proceed")
  {
    StepsPenaltyBounds(steps);
    FlagsPenaltyBounds(flags);
  }

  /** An INFO flag never changes the score. */
  lemma InfoFlagIsFree(steps: seq<Step>, flags: seq<Flag>, f: Flag)
    requires f.kind == Info
    ensures ScoreOf(steps, flags + [f]) == ScoreOf(steps, flags)
  {
    assert (flags + [f])[..|flags|] == flags;
  }

  /** One more step or flag never raises the score. */
  lemma MoreNeverHelps(steps: seq<Step>, flags: seq<Flag>, s: Step, f: Flag)
    ensures ScoreOf(steps + [s], flags) <= ScoreOf(steps, flags)
    ensures ScoreOf(steps, flags + [f]) <= ScoreOf(steps, flags)
  {
    assert (steps + [s])[..|steps|] == steps;
    assert (flags + [f])[..|flags|] == flags;
  }

  /** A failed VIN decode alone, with every other step fine and no flag, scores 70: MEDIUM. */
  lemma FailedDecodeExample()
    ensures var steps := [Step(VehicleDecode, Failed("VIN must be exactly 17 characters")),
                          Step(LaborLookup, Ran), Step(CalculationStep, Ran)];
      ConfidenceOf(steps, []).score == 70 && ConfidenceOf(steps, []).threshold == Medium
  {
    var steps := [Step(VehicleDecode, Failed("VIN must be exactly 17 characters")),
                  Step(LaborLookup, Ran), Step(CalculationStep, Ran)];
    assert steps[..2][..1] == steps[..1];
    assert StepsPenalty(steps[..1]) == 30;
    assert StepsPenalty(steps[..2]) == 30;
  }

  // ---------------------------------------------------------------------------
  // Estimate lines
  // ---------------------------------------------------------------------------

  /** The labor line built from a labor result at the shop's rate. */
  function LaborLineOf(l: LaborTimeResult, rate: real): LaborLine {
    LaborLine(l.jobDescription, l.laborHours, rate, l.laborHours * rate)
  }

  /** `part.price or Decimal("0")`. */
  function PriceOrZero(p: PartResult): real {
    if p.price.Some? then p.price.value else 0.0
  }

  /** `part.manufacturer or "Unknown"`: a missing or empty brand reads "Unknown". */
  function VendorOrUnknown(p: PartResult): string {
    if p.manufacturer.Some? && p.manufacturer.value != "" then p.manufacturer.value else "Unknown"
  }

  /** A marked-up line total: cost x (1 + markup / 100). */
  function MarkedUp(cost: real, markup: real): real {
    cost * (1.0 + markup / 100.0)
  }

  /** The part line built from a found part: quantity 1, the shop markup, the brand as vendor. */
  function PartLineOf(p: PartResult, markup: real): PartLine {
    PartLine(p.description, p.partNumber, 1.0, PriceOrZero(p), markup,
      MarkedUp(PriceOrZero(p), markup), VendorOrUnknown(p), "")
  }

  function PartLines(found: seq<PartResult>, markup: real): (r: seq<PartLine>)
    ensures |r| == |found|
  {
    seq(|found|, i requires 0 <= i < |found| => PartLineOf(found[i], markup))
  }

  /** How many lines are built before `PartItemSchema` rejects one. */
  function FirstRejected(lines: seq<PartLine>): (n: nat)
    ensures n <= |lines|
    decreases |lines|
  {
    if lines == [] || !ValidPartLine(lines[0]) then 0 else 1 + FirstRejected(lines[1..])
  }

  /** Every line before that point is accepted, and the line at it, if there is one, is not. */
  lemma {:induction false} FirstRejectedCorrect(lines: seq<PartLine>)
    ensures forall j :: 0 <= j < FirstRejected(lines) ==> ValidPartLine(lines[j])
    ensures FirstRejected(lines) < |lines| ==> !ValidPartLine(lines[FirstRejected(lines)])
    decreases |lines|
  {
    if lines != [] && ValidPartLine(lines[0]) {
      FirstRejectedCorrect(lines[1..]);
      forall j | 0 < j < FirstRejected(lines)
        ensures ValidPartLine(lines[j])
      {
        assert lines[j] == lines[1..][j - 1];
      }
    }
  }

  /**
   * The found parts step 5 turns into lines: the longest prefix whose lines the schema accepts,
   * since the first rejected line raises out of the building loop.
   */
  function Accepted(found: seq<PartResult>, markup: real): (r: seq<PartResult>)
    ensures |r| <= |found|
  {
    found[..FirstRejected(PartLines(found, markup))]
  }

  /** The accepted parts are a prefix of the found ones, each with an accepted line, stopped by the first rejected line. */
  lemma AcceptedCorrect(found: seq<PartResult>, markup: real)
    ensures var r := Accepted(found, markup);
      && r == found[..|r|]
      && (forall j :: 0 <= j < |r| ==> ValidPartLine(PartLineOf(found[j], markup)))
      && (|r| < |found| ==> !ValidPartLine(PartLineOf(found[|r|], markup)))
  {
    var lines := PartLines(found, markup);
    FirstRejectedCorrect(lines);
    assert forall j :: 0 <= j < |lines| ==> lines[j] == PartLineOf(found[j], markup);
  }

  /** The part line for an add-on: its price, no markup, price x quantity, vendor "Auto-Add". */
  function AddOnLine(a: AddOns.AddOnItem): PartLine {
    PartLine(a.partName, a.partNumber, a.quantity as real, a.price, 0.0,
      a.price * (a.quantity as real), "Auto-Add", a.reasonBadge)
  }

  function AddOnLines(addons: seq<AddOns.AddOnItem>): (r: seq<PartLine>)
    ensures |r| == |addons|
  {
    seq(|addons|, i requires 0 <= i < |addons| => AddOnLine(addons[i]))
  }

  /** The add-ons step 8 adds: the longest prefix whose lines the schema accepts. */
  function Added(addons: seq<AddOns.AddOnItem>): (r: seq<AddOns.AddOnItem>)
    ensures |r| <= |addons|
  {
    addons[..FirstRejected(AddOnLines(addons))]
  }

  /** The added add-ons are a prefix of the detected ones, each with an accepted line, stopped by the first rejected line. */
  lemma AddedCorrect(addons: seq<AddOns.AddOnItem>)
    ensures var r := Added(addons);
      && r == addons[..|r|]
      && (forall j :: 0 <= j < |r| ==> ValidPartLine(AddOnLine(addons[j])))
      && (|r| < |addons| ==> !ValidPartLine(AddOnLine(addons[|r|])))
  {
    var lines := AddOnLines(addons);
    FirstRejectedCorrect(lines);
    assert forall j :: 0 <= j < |lines| ==> lines[j] == AddOnLine(addons[j]);
  }

  /** The INFO flag recording one added add-on. */
  function AddOnFlag(a: AddOns.AddOnItem): Flag {
    Flag(Info, "", "Added " + a.partName + ": " + a.reason, "", "", [])
  }

  function AddOnFlags(addons: seq<AddOns.AddOnItem>): (r: seq<Flag>)
    ensures |r| == |addons|
  {
    seq(|addons|, i requires 0 <= i < |addons| => AddOnFlag(addons[i]))
  }

  // ---------------------------------------------------------------------------
  // Vendor price back-fill
  // ---------------------------------------------------------------------------

  /** One vendor part applied to one line: a zero-cost line with its part number takes the primary. */
  function FillFrom(line: PartLine, vp: Vendor.PartComparison): PartLine {
    if vp.primary.Some? && line.partNumber == vp.partNumber && line.cost == 0.0 then
      var price := vp.primary.value.offer.price;
      line.(cost := price, total := MarkedUp(price, line.markup), vendor := vp.primary.value.offer.vendorName)
    else line
  }

  /** A line after every vendor part has been applied to it, in order. */
  function FillLine(line: PartLine, vps: seq<Vendor.PartComparison>): PartLine
    decreases |vps|
  {
    if vps == [] then line else FillFrom(FillLine(line, vps[..|vps| - 1]), vps[|vps| - 1])
  }

  function BackFilled(lines: seq<PartLine>, vps: seq<Vendor.PartComparison>): (r: seq<PartLine>)
    ensures |r| == |lines|
  {
    seq(|lines|, i requires 0 <= i < |lines| => FillLine(lines[i], vps))
  }

  /** The back-fill loop: for each vendor part, update every matching zero-cost line in place. */
  method BackFill(lines: seq<PartLine>, vps: seq<Vendor.PartComparison>) returns (items: seq<PartLine>)
    ensures items == BackFilled(lines, vps)
  {
    items := lines;
    for k := 0 to |vps|
      invariant |items| == |lines|
      invariant forall i :: 0 <= i < |items| ==> items[i] == FillLine(lines[i], vps[..k])
    {
      assert vps[..k + 1][..k] == vps[..k];
      var vp := vps[k];
      if vp.primary.Some? {
        var price := vp.primary.value.offer.price;
        var name := vp.primary.value.offer.vendorName;
        for i := 0 to |items|
          invariant |items| == |lines|
          invariant forall j :: 0 <= j < i ==> items[j] == FillLine(lines[j], vps[..k + 1])
          invariant forall j :: i <= j < |items| ==> items[j] == FillLine(lines[j], vps[..k])
        {
          if items[i].partNumber == vp.partNumber && items[i].cost == 0.0 {
            items := items[i := items[i].(cost := price, total := MarkedUp(price, items[i].markup), vendor := name)];
          }
        }
      }
    }
    assert vps[..|vps|] == vps;
  }

  /** Vendor part `k` carries a primary offer for `partNumber`. */
  predicate Offers(vps: seq<Vendor.PartComparison>, partNumber: string, k: int) {
    0 <= k < |vps| && vps[k].primary.Some? && vps[k].partNumber == partNumber
  }

  /** Back-fill never touches the description, part number, quantity, markup or badge. */
  lemma {:induction false} FillLineKeeps(line: PartLine, vps: seq<Vendor.PartComparison>)
    ensures var r := FillLine(line, vps);
      r.description == line.description && r.partNumber == line.partNumber &&
      r.quantity == line.quantity && r.markup == line.markup && r.reasonBadge == line.reasonBadge
    decreases |vps|
  {
    if vps != [] {
      FillLineKeeps(line, vps[..|vps| - 1]);
    }
  }

  /** A line that already has a cost, or that no vendor part offers, is left as it was. */
  lemma {:induction false} FillLineUnchanged(line: PartLine, vps: seq<Vendor.PartComparison>)
    requires line.cost != 0.0 || forall k :: 0 <= k < |vps| ==> !Offers(vps, line.partNumber, k)
    ensures FillLine(line, vps) == line
    decreases |vps|
  {
    if vps != [] {
      var init := vps[..|vps| - 1];
      forall k | 0 <= k < |init|
        ensures Offers(init, line.partNumber, k) == Offers(vps, line.partNumber, k)
      {
        assert init[k] == vps[k];
      }
      FillLineUnchanged(line, init);
      assert line.cost != 0.0 || !Offers(vps, line.partNumber, |vps| - 1);
    }
  }

  /**
   * A zero-cost line takes the price, the marked-up total and the vendor of the first vendor
   * part offering its part number, when that price is not zero; later parts cannot overwrite it.
   */
  lemma {:induction false} FillLineFirstOffer(line: PartLine, vps: seq<Vendor.PartComparison>, k: nat)
    requires line.cost == 0.0
    requires Offers(vps, line.partNumber, k) && forall j :: 0 <= j < k ==> !Offers(vps, line.partNumber, j)
    requires vps[k].primary.value.offer.price != 0.0
    ensures var price := vps[k].primary.value.offer.price;
      FillLine(line, vps) ==
        line.(cost := price, total := MarkedUp(price, line.markup), vendor := vps[k].primary.value.offer.vendorName)
    decreases |vps|
  {
    var init := vps[..|vps| - 1];
    forall j | 0 <= j < |init|
      ensures Offers(init, line.partNumber, j) == Offers(vps, line.partNumber, j)
    {
      assert init[j] == vps[j];
    }
    if k < |init| {
      FillLineFirstOffer(line, init, k);
      assert init[k] == vps[k];
    } else {
      FillLineUnchanged(line, init);
    }
  }

  /** The back-filled list keeps the length, changes only zero-cost lines some vendor part offers, and keeps their identity. */
  lemma BackFilledCorrect(lines: seq<PartLine>, vps: seq<Vendor.PartComparison>)
    ensures var r := BackFilled(lines, vps);
      && |r| == |lines|
      && (forall i :: 0 <= i < |lines| && r[i] != lines[i] ==>
            lines[i].cost == 0.0 && exists k :: Offers(vps, lines[i].partNumber, k))
      && (forall i :: 0 <= i < |lines| ==>
            r[i].description == lines[i].description && r[i].partNumber == lines[i].partNumber &&
            r[i].quantity == lines[i].quantity && r[i].markup == lines[i].markup)
  {
    forall i | 0 <= i < |lines|
      ensures BackFilled(lines, vps)[i] != lines[i] ==>
        lines[i].cost == 0.0 && exists k :: Offers(vps, lines[i].partNumber, k)
      ensures BackFilled(lines, vps)[i].description == lines[i].description
      ensures BackFilled(lines, vps)[i].partNumber == lines[i].partNumber
      ensures BackFilled(lines, vps)[i].quantity == lines[i].quantity
      ensures BackFilled(lines, vps)[i].markup == lines[i].markup
    {
      FillLineKeeps(lines[i], vps);
      if lines[i].cost != 0.0 || forall k :: 0 <= k < |vps| ==> !Offers(vps, lines[i].partNumber, k) {
        FillLineUnchanged(lines[i], vps);
      }
    }
  }

  // ---------------------------------------------------------------------------
  // Vendor price back-fill as written
  // ---------------------------------------------------------------------------

  /**
   * What Python raises once a line's cost has been replaced: the line's markup is a float (the
   * schema converted it) and is divided by a `Decimal`.
   */
  const BackFillTypeError := "unsupported operand type(s) for /: 'float' and 'decimal.Decimal'"

  /** Vendor part `vp` back-fills `line`: it has a primary offer, and the line has its part number and no cost. */
  predicate FillsLine(vp: Vendor.PartComparison, line: PartLine) {
    vp.primary.Some? && line.partNumber == vp.partNumber && line.cost == 0.0
  }

  /** The first line, in list order, that vendor part `vp` back-fills. */
  function FirstFilled(lines: seq<PartLine>, vp: Vendor.PartComparison): (r: Option<nat>)
    ensures r.Some? ==> r.value < |lines| && FillsLine(vp, lines[r.value])
    ensures r.Some? ==> forall j :: 0 <= j < r.value ==> !FillsLine(vp, lines[j])
    ensures r.None? ==> forall j :: 0 <= j < |lines| ==> !FillsLine(vp, lines[j])
    decreases |lines|
  {
    if lines == [] then None
    else if FillsLine(vp, lines[0]) then Some(0)
    else match FirstFilled(lines[1..], vp)
      case None => None
      case Some(j) => Some(j + 1)
  }

  /** The part lines after the back-fill, and the message of the exception that stopped it, if any. */
  datatype BackFillRun = BackFillRun(items: seq<PartLine>, error: Option<string>)

  /**
   * The back-fill as written: the first line some vendor part fills takes the vendor price as its
   * cost; computing its total then raises, so its total and vendor stay as they were and no later
   * line is reached.
   */
  function BackFilledAsWritten(lines: seq<PartLine>, vps: seq<Vendor.PartComparison>): BackFillRun
    decreases |vps|
  {
    if vps == [] then BackFillRun(lines, None)
    else match FirstFilled(lines, vps[0])
      case Some(i) => BackFillRun(lines[i := lines[i].(cost := vps[0].primary.value.offer.price)], Some(BackFillTypeError))
      case None => BackFilledAsWritten(lines, vps[1..])
  }

  /** The back-fill loops as written, which leave at the first assignment that raises. */
  method BackFillAsWritten(lines: seq<PartLine>, vps: seq<Vendor.PartComparison>) returns (items: seq<PartLine>, error: Option<string>)
    ensures BackFillRun(items, error) == BackFilledAsWritten(lines, vps)
  {
    items, error := lines, None;
    for k := 0 to |vps|
      invariant items == lines && error == None
      invariant BackFilledAsWritten(lines, vps[k..]) == BackFilledAsWritten(lines, vps)
    {
      assert vps[k..][0] == vps[k] && vps[k..][1..] == vps[k + 1..];
      var vp := vps[k];
      if vp.primary.Some? {
        var price := vp.primary.value.offer.price;
        for i := 0 to |items|
          invariant items == lines && error == None
          invariant forall j :: 0 <= j < i ==> !FillsLine(vp, lines[j])
        {
          if items[i].partNumber == vp.partNumber && items[i].cost == 0.0 {
            items := items[i := items[i].(cost := price)];
            error := Some(BackFillTypeError);
            return;
          }
        }
      }
    }
  }

  /**
   * As written, the back-fill raises exactly when some vendor part would fill some line; it never
   * changes a line's total or vendor, and without a fill it changes nothing at all.
   */
  lemma {:induction false} BackFillAsWrittenRaises(lines: seq<PartLine>, vps: seq<Vendor.PartComparison>)
    ensures var run := BackFilledAsWritten(lines, vps);
      && (run.error.Some? <==> exists k, i :: 0 <= k < |vps| && 0 <= i < |lines| && FillsLine(vps[k], lines[i]))
      && (run.error.Some? ==> run.error.value == BackFillTypeError)
      && (run.error.None? ==> run.items == lines)
      && |run.items| == |lines|
      && (forall i :: 0 <= i < |lines| ==> run.items[i].total == lines[i].total && run.items[i].vendor == lines[i].vendor)
    decreases |vps|
  {
    if vps != [] {
      match FirstFilled(lines, vps[0])
      case Some(i) =>
      case None =>
        BackFillAsWrittenRaises(lines, vps[1..]);
        if exists k, i :: 0 <= k < |vps| && 0 <= i < |lines| && FillsLine(vps[k], lines[i]) {
          var k, i :| 0 <= k < |vps| && 0 <= i < |lines| && FillsLine(vps[k], lines[i]);
          assert k != 0;
          assert vps[1..][k - 1] == vps[k];
        }
    }
  }

  /** A fill is exactly a zero-cost line with a vendor part offering its part number. */
  lemma FillsLineOffers(lines: seq<PartLine>, vps: seq<Vendor.PartComparison>, k: int, i: int)
    requires 0 <= k < |vps| && 0 <= i < |lines|
    ensures FillsLine(vps[k], lines[i]) <==> lines[i].cost == 0.0 && Offers(vps, lines[i].partNumber, k)
  {
  }

  /** A part found without a price; the vendor part that offers it at 50.00 from "SSF". */
  const UnpricedPad := PartLineOf(PartResult("X", "pad", None, None, false, None), 30.0)
  const PadOffer := Vendor.PartComparison("X", "pad", [],
    Some(Vendor.ScoredOffer(Vendor.VendorOffer("ssf", "SSF", "Bosch", Vendor.Premium, "X", 50.0, "in_stock", 3,
                                               "Main", 2.0, "same_day", "1 year"),
                            100.0, 100.0, 100.0, 100.0, "Primary")),
    None)

  /**
   * On the unpriced pad, the back-fill as written sets the cost to 50.00 and raises, leaving the
   * total at 0 and the vendor "Unknown"; the intended back-fill prices the line at 65.00 from SSF.
   */
  lemma BackFillRaisesOnUnpricedPart()
    ensures BackFilledAsWritten([UnpricedPad], [PadOffer]) ==
      BackFillRun([UnpricedPad.(cost := 50.0)], Some(BackFillTypeError))
    ensures UnpricedPad.total == 0.0 && UnpricedPad.vendor == "Unknown"
    ensures BackFilled([UnpricedPad], [PadOffer]) == [UnpricedPad.(cost := 50.0, total := 65.0, vendor := "SSF")]
  {
    assert FirstFilled([UnpricedPad], PadOffer) == Some(0);
    assert [PadOffer][..0] == [];
    assert FillLine(UnpricedPad, [PadOffer]) == FillFrom(UnpricedPad, PadOffer);
    assert MarkedUp(50.0, 30.0) == 65.0;
  }

  // ---------------------------------------------------------------------------
  // The pipeline
  // ---------------------------------------------------------------------------

  datatype Customer = Customer(name: string, phone: string, email: string)

  /** The request `generate_estimate` is called with. */
  datatype Request = Request(
    vin: string,
    serviceRequest: string,
    customer: Customer,
    odometer: int,
    laborRate: real,
    partsMarkup: real,
    taxRate: real,
    vendorWeights: map<string, int>)

  /** A request with the defaults for everything but the VIN and the service request. */
  function RequestWithDefaults(vin: string, serviceRequest: string): Request {
    Request(vin, serviceRequest, Customer("", "", ""), 0, 150.0, 30.0, 0.0925, map[])
  }

  /**
   * What the collaborators answer; `Err` carries the message of the exception they raise. The
   * last three are the messages of the `ValidationError` the schema raises when it rejects a line
   * in step 4, 5 or 8: each step raises at most once, and the wording is pydantic's own.
   */
  datatype Collaborators = Collaborators(
    currentYear: int,
    nhtsa: Result<seq<VinDecoder.ResultItem>>,
    recalls: seq<Recalls.RecallInfo>,
    labor: Result<Option<LaborTimeResult>>,
    parts: Result<seq<PartResult>>,
    offers: Result<seq<Vendor.VendorOffer>>,
    laborRejection: string,
    partRejection: string,
    addonRejection: string)

  /**
   * The services `generate_estimate` calls, as the functions they compute: the VIN decoder on a
   * well-formed VIN and its NHTSA response, the recall check on the fetched recalls, the warranty
   * check, the vendor comparison, the part-condition summary, the add-on detection and the totals.
   */
  datatype Services = Services(
    decodeVin: (string, seq<VinDecoder.ResultItem>) -> Result<VinDecoder.VehicleDecodeResult>,
    checkRecalls: (seq<Recalls.RecallInfo>, string) -> Recalls.RecallCheck,
    checkWarranty: (int, int, string, int, string) -> Warranty.WarrantyCheck,
    compareVendors: (seq<string>, Option<seq<string>>, Option<Vendor.VendorWeights>, seq<Vendor.VendorOffer>,
                     real -> real) -> Result<Vendor.Comparison>,
    processParts: seq<PartCondition.PartInput> -> PartCondition.ConditionSummary,
    detectAddons: (string, seq<string>) -> AddOns.AddOnReport,
    calculate: (seq<LaborLine>, seq<PartLine>, string, Option<real>) -> Breakdown)

  /** The services this project models, as the pipeline's module-level singletons configure them. */
  const StandardServices := Services(
    VinDecoder.DecodeVin,
    Recalls.RecallCheckOf,
    Warranty.WarrantyOf,
    Vendor.ComparisonOf,
    PartCondition.SummaryOf,
    StandardAddOns,
    StandardCalculate)

  /** `AddonDetectionService.detect_addons` with the rules of `ADDON_RULES`. */
  function StandardAddOns(request: string, procedures: seq<string>): AddOns.AddOnReport {
    AddOns.AddOnsOf(AddOns.AddOnRules, request, procedures)
  }

  /** `CalculationService.calculate_estimate` at the default tax rate, with the cleaning kit. */
  function StandardCalculate(labor: seq<LaborLine>, parts: seq<PartLine>, jobType: string, taxRate: Option<real>): Breakdown {
    EstimateOf(labor, parts, jobType, taxRate, DefaultTaxRate, true)
  }

  /** The estimate `generate_estimate` returns; a step that raised or was skipped leaves `None`. */
  datatype Generated = Generated(
    success: bool,
    steps: seq<Step>,
    flags: seq<Flag>,
    errors: seq<string>,
    customer: Customer,
    vehicle: Option<VinDecoder.VehicleDecodeResult>,
    recallCheck: Recalls.RecallCheck,
    warranty: Option<Warranty.WarrantyCheck>,
    laborItems: seq<LaborLine>,
    jobType: string,
    vendorComparison: Option<Vendor.Comparison>,
    partConditions: Option<PartCondition.ConditionSummary>,
    addons: AddOns.AddOnReport,
    partsItems: seq<PartLine>,
    breakdown: Breakdown,
    confidence: ConfidenceScore)

  const NoLaborFound := "No labor time found"
  const NoLaborError := "Labor lookup returned no results"
  /** What Python raises when the decoded year is missing (`current_year - None`). */
  const MissingYearError := "unsupported operand type(s) for -: 'int' and 'NoneType'"
  /** What Python raises when the decoded make is missing (`None.upper()`). */
  const MissingMakeError := "'NoneType' object has no attribute 'upper'"

  /** `vin_decoder_service.decode_vin`: the length guard, then the response (or its failure). */
  function VehicleOutcome(s: Services, vin: string, nhtsa: Result<seq<VinDecoder.ResultItem>>): Result<VinDecoder.VehicleDecodeResult> {
    if vin == "" || |vin| != 17 then Err(VinDecoder.VinLengthError)
    else match nhtsa
      case Err(e) => Err(e)
      case Ok(results) => s.decodeVin(vin, results)
  }

  /** The warranty step: skipped without a vehicle or an odometer reading; raises on a missing year or make. */
  function WarrantyOutcome(s: Services, currentYear: int,
                           vehicle: Result<VinDecoder.VehicleDecodeResult>, odometer: int, serviceRequest: string): Option<Result<Warranty.WarrantyCheck>>
  {
    if vehicle.Err? || odometer <= 0 then None
    else if vehicle.value.year.None? then Some(Err(MissingYearError))
    else if vehicle.value.make.None? then Some(Err(MissingMakeError))
    else
      var make := vehicle.value.make.value;
      Some(Ok(s.checkWarranty(currentYear, vehicle.value.year.value, make, odometer, serviceRequest)))
  }

  /**
   * Step 4's outcome: the labor line, no result, or the message of what raised, either the
   * lookup or `LaborItemSchema` rejecting the line built from its result.
   */
  function LaborOutcome(labor: Result<Option<LaborTimeResult>>, rate: real, rejection: string): Result<Option<LaborLine>> {
    match labor
    case Err(e) => Err(e)
    case Ok(None) => Ok(None)
    case Ok(Some(l)) => if ValidLaborLine(LaborLineOf(l, rate)) then Ok(Some(LaborLineOf(l, rate))) else Err(rejection)
  }

  /** The labor lookup returned a result whose line the schema accepts. */
  predicate LaborAccepted(labor: Result<Option<LaborTimeResult>>, rate: real) {
    labor.Ok? && labor.value.Some? && ValidLaborLine(LaborLineOf(labor.value.value, rate))
  }

  function LaborLines(outcome: Result<Option<LaborLine>>): seq<LaborLine> {
    if outcome.Ok? && outcome.value.Some? then [outcome.value.value] else []
  }

  /** `job_type` stays "general" unless a labor line was built. */
  function JobTypeOf(outcome: Result<Option<LaborLine>>, serviceRequest: string): string {
    if outcome.Ok? && outcome.value.Some? then DetectJobType(serviceRequest) else "general"
  }

  /** `parts_results`: the found parts, or none when the search raised. */
  function Found(parts: Result<seq<PartResult>>): seq<PartResult> {
    if parts.Ok? then parts.value else []
  }

  function WeightOr(m: map<string, int>, key: string, default: int): int {
    if key in m then m[key] else default
  }

  /** The shop weights: the defaults, or the given map's entries (each defaulted) when it is non-empty. */
  function WeightsOf(m: map<string, int>): Vendor.VendorWeights {
    if |m| == 0 then Vendor.DefaultWeights
    else Vendor.VendorWeights(WeightOr(m, "brand", 40), WeightOr(m, "price", 35), WeightOr(m, "distance", 25))
  }

  /** `[p.partNumber for p in parts_results if p.partNumber]`. */
  function PartNumbersOf(found: seq<PartResult>): seq<string>
    decreases |found|
  {
    if found == [] then []
    else
      var last := found[|found| - 1];
      PartNumbersOf(found[..|found| - 1]) + (if last.partNumber != "" then [last.partNumber] else [])
  }

  function DescriptionsOf(found: seq<PartResult>): seq<string> {
    seq(|found|, i requires 0 <= i < |found| => found[i].description)
  }

  /** The vendor step: skipped without parts; otherwise the fetch, then the comparison, may raise. */
  function VendorOutcome(s: Services, found: seq<PartResult>, weights: map<string, int>,
                         offers: Result<seq<Vendor.VendorOffer>>,
                         roundTenth: real -> real): Option<Result<Vendor.Comparison>>
  {
    if found == [] then None
    else match offers
      case Err(e) => Some(Err(e))
      case Ok(all) => Some(s.compareVendors(PartNumbersOf(found), Some(DescriptionsOf(found)),
                                            Some(WeightsOf(weights)), all, roundTenth))
  }

  /** The vendor parts whose primary offers feed the back-fill. */
  function VendorParts(outcome: Option<Result<Vendor.Comparison>>): seq<Vendor.PartComparison> {
    if outcome.Some? && outcome.value.Ok? then outcome.value.value.parts else []
  }

  /** The part dictionaries the condition check sees: the vendor stands in for the manufacturer. */
  function ConditionInputs(lines: seq<PartLine>): seq<PartCondition.PartInput> {
    seq(|lines|, i requires 0 <= i < |lines| =>
      PartCondition.PartInput(Some(lines[i].description), Some(lines[i].vendor), lines[i].partNumber))
  }

  function ConditionOutcome(s: Services, lines: seq<PartLine>): Option<PartCondition.ConditionSummary> {
    if lines == [] then None else Some(s.processParts(ConditionInputs(lines)))
  }

  function LaborDescriptions(labor: seq<LaborLine>): seq<string> {
    seq(|labor|, i requires 0 <= i < |labor| => labor[i].description)
  }

  function DecodeErrors(vehicle: Result<VinDecoder.VehicleDecodeResult>): seq<string> {
    if vehicle.Err? then ["VIN Decode failed: " + vehicle.error] else []
  }

  function LaborErrors(labor: Result<Option<LaborLine>>): seq<string> {
    match labor
    case Err(e) => ["Labor lookup failed: " + e]
    case Ok(None) => [NoLaborError]
    case Ok(Some(_)) => []
  }

  function PartsErrors(parts: StepStatus): seq<string> {
    if parts.Failed? then ["Parts search failed: " + parts.error] else []
  }

  /** `result["errors"]`: the decode, labor and parts failures, in step order. */
  function ErrorsOf(vehicle: Result<VinDecoder.VehicleDecodeResult>, labor: Result<Option<LaborLine>>,
                    parts: StepStatus): seq<string>
  {
    DecodeErrors(vehicle) + LaborErrors(labor) + PartsErrors(parts)
  }

  /** No error mentions "VIN" or "Labor". */
  predicate NoCriticalError(errors: seq<string>) {
    forall i :: 0 <= i < |errors| ==> !Contains(errors[i], "VIN") && !Contains(errors[i], "Labor")
  }

  function StatusOf<T>(r: Result<T>): StepStatus {
    if r.Ok? then Ran else Failed(r.error)
  }

  function OptionalStatus<T>(r: Option<Result<T>>): StepStatus {
    if r.None? then Skipped else StatusOf(r.value)
  }

  function LaborStatus(labor: Result<Option<LaborLine>>): StepStatus {
    match labor
    case Err(e) => Failed(e)
    case Ok(None) => Failed(NoLaborFound)
    case Ok(Some(_)) => Ran
  }

  /** Step 5 fails when the search raises or when the schema rejects one of the found parts' lines. */
  function PartsStatus(parts: Result<seq<PartResult>>, markup: real, rejection: string): StepStatus {
    if parts.Err? then Failed(parts.error)
    else if |Accepted(parts.value, markup)| < |parts.value| then Failed(rejection)
    else Ran
  }

  /** Step 8 fails when the schema rejects an add-on's line. */
  function AddOnStatus(addons: seq<AddOns.AddOnItem>, rejection: string): StepStatus {
    if |Added(addons)| < |addons| then Failed(rejection) else Ran
  }

  function OkValue<T>(r: Option<Result<T>>): Option<T> {
    if r.Some? && r.value.Ok? then Some(r.value.value) else None
  }

  function FlagList(f: Option<Flag>): seq<Flag> {
    if f.Some? then [f.value] else []
  }

  function RecallFlags(rc: Recalls.RecallCheck): seq<Flag> {
    if rc.hasMatchingRecall then FlagList(rc.flag) else []
  }

  function WarrantyFlags(w: Option<Warranty.WarrantyCheck>): seq<Flag> {
    if w.Some? then FlagList(w.value.flag) else []
  }

  function ConditionFlags(c: Option<PartCondition.ConditionSummary>): seq<Flag> {
    if c.Some? then FlagList(c.value.flag) else []
  }

  /** What `generate_estimate` returns for a request and its collaborators' answers, over given services. */
  function GenerateWith(s: Services, req: Request, col: Collaborators, roundTenth: real -> real): Generated {
    var vehicle := VehicleOutcome(s, req.vin, col.nhtsa);
    var recall := s.checkRecalls(col.recalls, req.serviceRequest);
    var warranty := WarrantyOutcome(s, col.currentYear, vehicle, req.odometer, req.serviceRequest);
    var laborOutcome := LaborOutcome(col.labor, req.laborRate, col.laborRejection);
    var labor := LaborLines(laborOutcome);
    var jobType := JobTypeOf(laborOutcome, req.serviceRequest);
    var found := Found(col.parts);
    var partsStatus := PartsStatus(col.parts, req.partsMarkup, col.partRejection);
    var vendor := VendorOutcome(s, found, req.vendorWeights, col.offers, roundTenth);
    var filled := BackFilled(PartLines(Accepted(found, req.partsMarkup), req.partsMarkup), VendorParts(vendor));
    var conditions := ConditionOutcome(s, filled);
    var addons := s.detectAddons(req.serviceRequest, LaborDescriptions(labor));
    var added := Added(addons.addons);
    var partsItems := filled + AddOnLines(added);
    var breakdown := s.calculate(labor, partsItems, jobType, Some(req.taxRate));
    var steps := [
      Step(VehicleDecode, StatusOf(vehicle)),
      Step(RecallCheck, Ran),
      Step(WarrantyCheck, OptionalStatus(warranty)),
      Step(LaborLookup, LaborStatus(laborOutcome)),
      Step(PartsSearch, partsStatus),
      Step(VendorCompare, OptionalStatus(vendor)),
      Step(PartConditions, if conditions.Some? then Ran else Skipped),
      Step(AddonDetection, AddOnStatus(addons.addons, col.addonRejection)),
      Step(CalculationStep, Ran)];
    var flags := RecallFlags(recall) + WarrantyFlags(OkValue(warranty)) + ConditionFlags(conditions) +
      AddOnFlags(added);
    var errors := ErrorsOf(vehicle, laborOutcome, partsStatus);
    Generated(NoCriticalError(errors), steps, flags, errors, req.customer,
      if vehicle.Ok? then Some(vehicle.value) else None,
      recall, OkValue(warranty), labor, jobType, OkValue(vendor), conditions, addons, partsItems,
      breakdown, ConfidenceOf(steps, flags))
  }

  /** Step 3: the warranty check, run only for a decoded vehicle with an odometer reading. */
  method WarrantyStep(s: Services, currentYear: int,
                      vehicle: Result<VinDecoder.VehicleDecodeResult>, odometer: int, serviceRequest: string) returns (outcome: Option<Result<Warranty.WarrantyCheck>>)
    ensures outcome == WarrantyOutcome(s, currentYear, vehicle, odometer, serviceRequest)
  {
    if vehicle.Ok? && odometer > 0 {
      var v := vehicle.value;
      if v.year.None? {
        outcome := Some(Err(MissingYearError));
      } else if v.make.None? {
        outcome := Some(Err(MissingMakeError));
      } else {
        var w := s.checkWarranty(currentYear, v.year.value, v.make.value, odometer, serviceRequest);
        outcome := Some(Ok(w));
      }
    } else {
      outcome := None;
    }
  }

  /** Step 5: one line per found part, in order, until the schema rejects one. */
  method BuildPartLines(found: seq<PartResult>, markup: real) returns (items: seq<PartLine>, rejected: bool)
    ensures items == PartLines(Accepted(found, markup), markup)
    ensures rejected <==> |Accepted(found, markup)| < |found|
  {
    items, rejected := [], false;
    for i := 0 to |found|
      invariant |items| == i
      invariant forall j :: 0 <= j < i ==> items[j] == PartLineOf(found[j], markup)
      invariant forall j :: 0 <= j < i ==> ValidPartLine(PartLineOf(found[j], markup))
    {
      var line := PartLineOf(found[i], markup);
      if !ValidPartLine(line) {
        rejected := true;
        AcceptedCorrect(found, markup);
        assert |Accepted(found, markup)| == i;
        return;
      }
      items := items + [line];
    }
    AcceptedCorrect(found, markup);
  }

  /** Step 6: the vendor comparison over the found parts, when there are any. */
  method VendorStep(s: Services, found: seq<PartResult>, weights: map<string, int>, offers: Result<seq<Vendor.VendorOffer>>,
                    roundTenth: real -> real) returns (outcome: Option<Result<Vendor.Comparison>>)
    ensures outcome == VendorOutcome(s, found, weights, offers, roundTenth)
  {
    if found == [] {
      outcome := None;
    } else if offers.Err? {
      outcome := Some(Err(offers.error));
    } else {
      var c := s.compareVendors(PartNumbersOf(found), Some(DescriptionsOf(found)), Some(WeightsOf(weights)),
                                offers.value, roundTenth);
      outcome := Some(c);
    }
  }

  /** Step 8: each detected add-on becomes a part line and an INFO flag, until the schema rejects a line. */
  method AddOnStep(items: seq<PartLine>, flags: seq<Flag>, addons: seq<AddOns.AddOnItem>)
    returns (items': seq<PartLine>, flags': seq<Flag>, rejected: bool)
    ensures items' == items + AddOnLines(Added(addons))
    ensures flags' == flags + AddOnFlags(Added(addons))
    ensures rejected <==> |Added(addons)| < |addons|
  {
    items', flags', rejected := items, flags, false;
    for i := 0 to |addons|
      invariant |items'| == |items| + i && |flags'| == |flags| + i
      invariant items'[..|items|] == items && flags'[..|flags|] == flags
      invariant forall j :: 0 <= j < i ==> items'[|items| + j] == AddOnLine(addons[j])
      invariant forall j :: 0 <= j < i ==> flags'[|flags| + j] == AddOnFlag(addons[j])
      invariant forall j :: 0 <= j < i ==> ValidPartLine(AddOnLine(addons[j]))
    {
      var line := AddOnLine(addons[i]);
      if !ValidPartLine(line) {
        rejected := true;
        AddedCorrect(addons);
        assert |Added(addons)| == i;
        return;
      }
      items' := items' + [line];
      flags' := flags' + [AddOnFlag(addons[i])];
    }
    AddedCorrect(addons);
  }

  /** Step 1: `decode_vin`, whose length guard runs before the request is sent. */
  method DecodeStep(s: Services, vin: string, nhtsa: Result<seq<VinDecoder.ResultItem>>)
    returns (vehicle: Result<VinDecoder.VehicleDecodeResult>)
    ensures vehicle == VehicleOutcome(s, vin, nhtsa)
  {
    if vin == "" || |vin| != 17 {
      vehicle := Err(VinDecoder.VinLengthError);
    } else if nhtsa.Err? {
      vehicle := Err(nhtsa.error);
    } else {
      vehicle := s.decodeVin(vin, nhtsa.value);
    }
  }

  /** Step 4: the labor line and job type, or the error the lookup or the schema leaves. */
  method LaborStep(labor: Result<Option<LaborTimeResult>>, rate: real, rejection: string, serviceRequest: string)
    returns (lines: seq<LaborLine>, jobType: string, status: StepStatus, errors: seq<string>)
    ensures lines == LaborLines(LaborOutcome(labor, rate, rejection))
    ensures jobType == JobTypeOf(LaborOutcome(labor, rate, rejection), serviceRequest)
    ensures status == LaborStatus(LaborOutcome(labor, rate, rejection))
    ensures errors == LaborErrors(LaborOutcome(labor, rate, rejection))
  {
    lines, jobType, errors := [], "general", [];
    match labor {
      case Err(e) =>
        status := Failed(e);
        errors := ["Labor lookup failed: " + e];
      case Ok(None) =>
        status := Failed(NoLaborFound);
        errors := [NoLaborError];
      case Ok(Some(l)) =>
        var line := LaborLineOf(l, rate);
        if ValidLaborLine(line) {
          lines := [line];
          jobType := DetectJobType(serviceRequest);
          status := Ran;
        } else {
          status := Failed(rejection);
          errors := ["Labor lookup failed: " + rejection];
        }
    }
  }

  /** Steps 1 to 4: decode, recalls, warranty and labor, with the errors and flags they leave. */
  method FrontSteps(s: Services, req: Request, col: Collaborators)
    returns (vehicle: Result<VinDecoder.VehicleDecodeResult>, recall: Recalls.RecallCheck,
             warranty: Option<Result<Warranty.WarrantyCheck>>, labor: seq<LaborLine>, jobType: string,
             laborStatus: StepStatus, errors: seq<string>, flags: seq<Flag>)
    ensures vehicle == VehicleOutcome(s, req.vin, col.nhtsa)
    ensures recall == s.checkRecalls(col.recalls, req.serviceRequest)
    ensures warranty == WarrantyOutcome(s, col.currentYear, vehicle, req.odometer, req.serviceRequest)
    ensures labor == LaborLines(LaborOutcome(col.labor, req.laborRate, col.laborRejection))
    ensures jobType == JobTypeOf(LaborOutcome(col.labor, req.laborRate, col.laborRejection), req.serviceRequest)
    ensures laborStatus == LaborStatus(LaborOutcome(col.labor, req.laborRate, col.laborRejection))
    ensures errors == DecodeErrors(vehicle) + LaborErrors(LaborOutcome(col.labor, req.laborRate, col.laborRejection))
    ensures flags == RecallFlags(recall) + WarrantyFlags(OkValue(warranty))
  {
    errors, flags := [], [];

    // Step 1: decode the VIN.
    vehicle := DecodeStep(s, req.vin, col.nhtsa);
    if vehicle.Err? {
      errors := errors + ["VIN Decode failed: " + vehicle.error];
    }

    // Step 2: recalls.
    recall := s.checkRecalls(col.recalls, req.serviceRequest);
    if recall.hasMatchingRecall && recall.flag.Some? {
      flags := flags + [recall.flag.value];
    }
    assert flags == RecallFlags(recall);

    // Step 3: warranty.
    warranty := WarrantyStep(s, col.currentYear, vehicle, req.odometer, req.serviceRequest);
    var warrantyValue := OkValue(warranty);
    if warrantyValue.Some? && warrantyValue.value.flag.Some? {
      flags := flags + [warrantyValue.value.flag.value];
    }

    // Step 4: labor.
    var laborErrors;
    labor, jobType, laborStatus, laborErrors := LaborStep(col.labor, req.laborRate, col.laborRejection, req.serviceRequest);
    errors := errors + laborErrors;
  }

  /** Steps 5 to 7: parts, vendors with the price back-fill, and part conditions. */
  method PartsSteps(s: Services, req: Request, col: Collaborators, roundTenth: real -> real, errors: seq<string>, flags: seq<Flag>)
    returns (partsStatus: StepStatus, vendor: Option<Result<Vendor.Comparison>>, items: seq<PartLine>,
             conditions: Option<PartCondition.ConditionSummary>, errors': seq<string>, flags': seq<Flag>)
    ensures partsStatus == PartsStatus(col.parts, req.partsMarkup, col.partRejection)
    ensures vendor == VendorOutcome(s, Found(col.parts), req.vendorWeights, col.offers, roundTenth)
    ensures items == BackFilled(PartLines(Accepted(Found(col.parts), req.partsMarkup), req.partsMarkup), VendorParts(vendor))
    ensures conditions == ConditionOutcome(s, items)
    ensures errors' == errors + PartsErrors(partsStatus)
    ensures flags' == flags + ConditionFlags(conditions)
  {
    errors', flags' := errors, flags;

    // Step 5: parts; the found parts stay even when one of their lines is rejected.
    var found: seq<PartResult> := [];
    partsStatus := Ran;
    items := [];
    if col.parts.Ok? {
      found := col.parts.value;
      var rejected;
      items, rejected := BuildPartLines(found, req.partsMarkup);
      if rejected {
        partsStatus := Failed(col.partRejection);
        errors' := errors' + ["Parts search failed: " + col.partRejection];
      }
    } else {
      partsStatus := Failed(col.parts.error);
      errors' := errors' + ["Parts search failed: " + col.parts.error];
    }

    // Step 6: vendors, and the back-fill of their prices into zero-cost lines.
    vendor := VendorStep(s, found, req.vendorWeights, col.offers, roundTenth);
    items := BackFill(items, VendorParts(vendor));

    // Step 7: part conditions.
    conditions := None;
    if items != [] {
      var summary := s.processParts(ConditionInputs(items));
      conditions := Some(summary);
      if summary.flag.Some? {
        flags' := flags' + [summary.flag.value];
      }
    }
  }

  /**
   * `generate_estimate` with the given services: the nine steps in order, then the confidence
   * score and the overall success.
   */
  method GenerateEstimate(s: Services, req: Request, col: Collaborators, roundTenth: real -> real) returns (r: Generated)
    ensures r == GenerateWith(s, req, col, roundTenth)
  {
    var vehicle, recall, warranty, labor, jobType, laborStatus, errors, flags := FrontSteps(s, req, col);
    var partsStatus, vendor, items, conditions;
    partsStatus, vendor, items, conditions, errors, flags := PartsSteps(s, req, col, roundTenth, errors, flags);

    // Step 8: add-ons.
    var addons := s.detectAddons(req.serviceRequest, LaborDescriptions(labor));
    var addonsRejected;
    items, flags, addonsRejected := AddOnStep(items, flags, addons.addons);

    // Step 9: totals.
    var breakdown := s.calculate(labor, items, jobType, Some(req.taxRate));

    var steps := [
      Step(VehicleDecode, StatusOf(vehicle)),
      Step(RecallCheck, Ran),
      Step(WarrantyCheck, OptionalStatus(warranty)),
      Step(LaborLookup, laborStatus),
      Step(PartsSearch, partsStatus),
      Step(VendorCompare, OptionalStatus(vendor)),
      Step(PartConditions, if conditions.Some? then Ran else Skipped),
      Step(AddonDetection, if addonsRejected then Failed(col.addonRejection) else Ran),
      Step(CalculationStep, Ran)];
    var confidence := CalculateConfidenceScore(steps, flags);
    r := Generated(NoCriticalError(errors), steps, flags, errors, req.customer,
      if vehicle.Ok? then Some(vehicle.value) else None,
      recall, OkValue(warranty), labor, jobType, OkValue(vendor), conditions, addons, items, breakdown, confidence);
  }

  // ---------------------------------------------------------------------------
  // What a run promises
  // ---------------------------------------------------------------------------

  /** A message that starts with `sub` contains it. */
  lemma StartsWithContains(prefix: string, rest: string, sub: string)
    requires |sub| <= |prefix| && prefix[..|sub|] == sub
    ensures Contains(prefix + rest, sub)
  {
    assert OccursAt(prefix + rest, sub, 0);
  }

  /**
   * Step 4 yields the line built from the labor result exactly when the schema accepts it; no
   * result stays no result; a raising lookup keeps its message and a rejected line the schema's.
   */
  lemma LaborOutcomeCorrect(labor: Result<Option<LaborTimeResult>>, rate: real, rejection: string)
    ensures var o := LaborOutcome(labor, rate, rejection);
      && (o.Ok? && o.value.Some? <==> LaborAccepted(labor, rate))
      && (LaborAccepted(labor, rate) ==> o.value.value == LaborLineOf(labor.value.value, rate))
      && (o == Ok(None) <==> labor == Ok(None))
      && (labor.Err? ==> o == Err(labor.error))
      && (labor.Ok? && labor.value.Some? && !LaborAccepted(labor, rate) ==> o == Err(rejection))
  {
  }

  /**
   * Step 5 fails with the search's message when it raised, fails with the schema's message
   * exactly when some found part's line is rejected, and otherwise runs.
   */
  lemma PartsStatusCorrect(parts: Result<seq<PartResult>>, markup: real, rejection: string)
    ensures var status := PartsStatus(parts, markup, rejection);
      && (parts.Err? ==> status == Failed(parts.error))
      && (parts.Ok? ==>
            (status == Failed(rejection) <==>
               exists j :: 0 <= j < |parts.value| && !ValidPartLine(PartLineOf(parts.value[j], markup))))
      && (parts.Ok? && status != Failed(rejection) ==> status == Ran)
  {
    if parts.Ok? {
      AcceptedCorrect(parts.value, markup);
      var n := |Accepted(parts.value, markup)|;
      if exists j :: 0 <= j < |parts.value| && !ValidPartLine(PartLineOf(parts.value[j], markup)) {
        var j :| 0 <= j < |parts.value| && !ValidPartLine(PartLineOf(parts.value[j], markup));
        assert n <= j;
      }
    }
  }

  /** The errors hold a critical one exactly when the decode or the labor step failed, or the parts message names one. */
  lemma CriticalErrors(vehicle: Result<VinDecoder.VehicleDecodeResult>, labor: Result<Option<LaborLine>>,
                       parts: StepStatus)
    ensures NoCriticalError(ErrorsOf(vehicle, labor, parts)) <==>
      && vehicle.Ok?
      && labor.Ok? && labor.value.Some?
      && (parts.Failed? ==>
            !Contains("Parts search failed: " + parts.error, "VIN") &&
            !Contains("Parts search failed: " + parts.error, "Labor"))
  {
    var errors := ErrorsOf(vehicle, labor, parts);
    if vehicle.Err? {
      StartsWithContains("VIN Decode failed: ", vehicle.error, "VIN");
      assert errors[0] == DecodeErrors(vehicle)[0];
    } else if !(labor.Ok? && labor.value.Some?) {
      match labor
      case Err(e) =>
        StartsWithContains("Labor lookup failed: ", e, "Labor");
        assert errors[0] == LaborErrors(labor)[0];
      case Ok(None) =>
        StartsWithContains(NoLaborError, "", "Labor");
        assert NoLaborError + "" == NoLaborError;
        assert errors[0] == LaborErrors(labor)[0];
    } else {
      assert DecodeErrors(vehicle) == [] && LaborErrors(labor) == [];
      assert errors == PartsErrors(parts);
      if parts.Failed? {
        var message := "Parts search failed: " + parts.error;
        assert errors == [message];
        if NoCriticalError(errors) {
          assert errors[0] == message;
        } else {
          var i :| 0 <= i < |errors| && (Contains(errors[i], "VIN") || Contains(errors[i], "Labor"));
          assert errors[i] == message;
        }
      }
    }
  }

  /**
   * The run succeeds exactly when the VIN decoded, the labor lookup returned a result whose line
   * the schema accepts, and no parts-step failure message mentions "VIN" or "Labor".
   */
  lemma GenerateSuccess(s: Services, req: Request, col: Collaborators, roundTenth: real -> real)
    ensures var g := GenerateWith(s, req, col, roundTenth);
      var vehicle := VehicleOutcome(s, req.vin, col.nhtsa);
      var parts := PartsStatus(col.parts, req.partsMarkup, col.partRejection);
      g.success <==>
        && vehicle.Ok?
        && LaborAccepted(col.labor, req.laborRate)
        && (parts.Failed? ==>
              !Contains("Parts search failed: " + parts.error, "VIN") &&
              !Contains("Parts search failed: " + parts.error, "Labor"))
  {
    LaborOutcomeCorrect(col.labor, req.laborRate, col.laborRejection);
    CriticalErrors(VehicleOutcome(s, req.vin, col.nhtsa), LaborOutcome(col.labor, req.laborRate, col.laborRejection),
                   PartsStatus(col.parts, req.partsMarkup, col.partRejection));
  }

  /** A labor result whose description runs past 500 characters is rejected by the schema, and the run fails. */
  lemma LongLaborDescriptionFails(s: Services, req: Request, col: Collaborators, roundTenth: real -> real)
    requires col.labor.Ok? && col.labor.value.Some? && |col.labor.value.value.jobDescription| > 500
    ensures !GenerateWith(s, req, col, roundTenth).success
  {
    assert !LaborAccepted(col.labor, req.laborRate);
    GenerateSuccess(s, req, col, roundTenth);
  }

  /**
   * The rejected labor line fails the labor step with the schema's message; no labor line is kept
   * and the job type stays "general".
   */
  lemma LongLaborDescriptionDropped(s: Services, req: Request, col: Collaborators, roundTenth: real -> real)
    requires col.labor.Ok? && col.labor.value.Some? && |col.labor.value.value.jobDescription| > 500
    ensures var g := GenerateWith(s, req, col, roundTenth);
      && g.steps[3].status == Failed(col.laborRejection)
      && g.laborItems == [] && g.jobType == "general"
  {
    assert LaborOutcome(col.labor, req.laborRate, col.laborRejection) == Err(col.laborRejection);
  }

  /** The rejected labor line is reported in the errors, right after any decode failure. */
  lemma LongLaborDescriptionReported(s: Services, req: Request, col: Collaborators, roundTenth: real -> real)
    requires col.labor.Ok? && col.labor.value.Some? && |col.labor.value.value.jobDescription| > 500
    ensures var g := GenerateWith(s, req, col, roundTenth);
      g.errors == DecodeErrors(VehicleOutcome(s, req.vin, col.nhtsa)) + ["Labor lookup failed: " + col.laborRejection] +
                  PartsErrors(PartsStatus(col.parts, req.partsMarkup, col.partRejection))
  {
    assert LaborOutcome(col.labor, req.laborRate, col.laborRejection) == Err(col.laborRejection);
  }

  /**
   * A shop markup outside 0 to 100 makes the schema reject the first found part's line: the
   * parts step fails, no found part reaches the estimate and the condition check is skipped.
   */
  lemma MarkupOutOfRangeRejectsParts(s: Services, req: Request, col: Collaborators, roundTenth: real -> real)
    requires col.parts.Ok? && col.parts.value != [] && !(0.0 <= req.partsMarkup <= 100.0)
    ensures var g := GenerateWith(s, req, col, roundTenth);
      && g.steps[4].status == Failed(col.partRejection)
      && g.errors == DecodeErrors(VehicleOutcome(s, req.vin, col.nhtsa)) +
                     LaborErrors(LaborOutcome(col.labor, req.laborRate, col.laborRejection)) +
                     ["Parts search failed: " + col.partRejection]
      && g.steps[6].status == Skipped
      && g.partsItems == AddOnLines(Added(g.addons.addons))
  {
    var found := col.parts.value;
    assert !ValidPartLine(PartLineOf(found[0], req.partsMarkup));
    AcceptedCorrect(found, req.partsMarkup);
    assert Accepted(found, req.partsMarkup) == [];
    assert PartsStatus(col.parts, req.partsMarkup, col.partRejection) == Failed(col.partRejection);
    GenerateSkipsConditions(s, req, col, roundTenth);
  }

  /** A parts-search failure whose message mentions the VIN fails the whole run, like a decode failure. */
  lemma PartsErrorNamingVinIsCritical(s: Services, req: Request, col: Collaborators, roundTenth: real -> real)
    requires col.parts.Err? && Contains(col.parts.error, "VIN")
    ensures !GenerateWith(s, req, col, roundTenth).success
  {
    assert PartsStatus(col.parts, req.partsMarkup, col.partRejection) == Failed(col.parts.error);
    GenerateSuccess(s, req, col, roundTenth);
    ContainsConcat("Parts search failed: ", col.parts.error, "VIN");
  }

  /**
   * The warranty check is skipped exactly without a decoded vehicle or an odometer reading, and
   * when it runs it raises exactly when the decoded year or make is missing.
   */
  lemma WarrantySkipped(s: Services, currentYear: int,
                        vehicle: Result<VinDecoder.VehicleDecodeResult>, odometer: int, serviceRequest: string)
    ensures WarrantyOutcome(s, currentYear, vehicle, odometer, serviceRequest).None? <==> vehicle.Err? || odometer <= 0
    ensures vehicle.Ok? && odometer > 0 ==>
      (WarrantyOutcome(s, currentYear, vehicle, odometer, serviceRequest).value.Err? <==>
         vehicle.value.year.None? || vehicle.value.make.None?)
  {
  }

  /** The vendor comparison is skipped exactly when no parts were found. */
  lemma VendorSkipped(s: Services, found: seq<PartResult>, weights: map<string, int>, offers: Result<seq<Vendor.VendorOffer>>,
                      roundTenth: real -> real)
    ensures var v := VendorOutcome(s, found, weights, offers, roundTenth);
      && (v.None? <==> found == [])
      && (found != [] && offers.Err? ==> v == Some(Err(offers.error)))
      && (v.None? ==> VendorParts(v) == [])
  {
  }

  /**
   * The condition check is skipped exactly when no part line was built: no parts were found, or
   * the schema rejected the first one; the back-fill makes no difference.
   */
  lemma ConditionsSkipped(s: Services, found: seq<PartResult>, markup: real, vps: seq<Vendor.PartComparison>)
    ensures ConditionOutcome(s, BackFilled(PartLines(Accepted(found, markup), markup), vps)).None? <==>
      found == [] || !ValidPartLine(PartLineOf(found[0], markup))
  {
    var accepted := Accepted(found, markup);
    AcceptedCorrect(found, markup);
    assert |BackFilled(PartLines(accepted, markup), vps)| == |accepted|;
  }

  /** In a run, the warranty check is skipped exactly without a decoded vehicle or an odometer reading. */
  lemma GenerateSkipsWarranty(s: Services, req: Request, col: Collaborators, roundTenth: real -> real)
    ensures GenerateWith(s, req, col, roundTenth).steps[2].status == Skipped <==>
      VehicleOutcome(s, req.vin, col.nhtsa).Err? || req.odometer <= 0
  {
    var vehicle := VehicleOutcome(s, req.vin, col.nhtsa);
    WarrantySkipped(s, col.currentYear, vehicle, req.odometer, req.serviceRequest);
  }

  /** In a run, the vendor comparison is skipped exactly when no parts were found. */
  lemma GenerateSkipsVendors(s: Services, req: Request, col: Collaborators, roundTenth: real -> real)
    ensures GenerateWith(s, req, col, roundTenth).steps[5].status == Skipped <==> Found(col.parts) == []
  {
    VendorSkipped(s, Found(col.parts), req.vendorWeights, col.offers, roundTenth);
  }

  /** In a run, the condition check is skipped exactly when no parts were found or the first one's line was rejected. */
  lemma GenerateSkipsConditions(s: Services, req: Request, col: Collaborators, roundTenth: real -> real)
    ensures GenerateWith(s, req, col, roundTenth).steps[6].status == Skipped <==>
      Found(col.parts) == [] || !ValidPartLine(PartLineOf(Found(col.parts)[0], req.partsMarkup))
  {
    var found := Found(col.parts);
    var vendor := VendorOutcome(s, found, req.vendorWeights, col.offers, roundTenth);
    ConditionsSkipped(s, found, req.partsMarkup, VendorParts(vendor));
  }

  /** The penalty of a sequence covers the penalty of any one of its steps. */
  lemma {:induction false} StepsPenaltyCovers1(steps: seq<Step>, i: nat)
    requires i < |steps|
    ensures StepsPenalty(steps) >= StepPenalty(steps[i])
    decreases |steps|
  {
    var init := steps[..|steps| - 1];
    StepsPenaltyBounds(init);
    if i < |init| {
      StepsPenaltyCovers1(init, i);
      assert init[i] == steps[i];
    }
  }

  /** The penalty of a sequence covers the penalties of any two of its steps. */
  lemma {:induction false} StepsPenaltyCovers(steps: seq<Step>, i: nat, j: nat)
    requires i < j < |steps|
    ensures StepsPenalty(steps) >= StepPenalty(steps[i]) + StepPenalty(steps[j])
    decreases |steps|
  {
    var init := steps[..|steps| - 1];
    StepsPenaltyBounds(init);
    if j < |init| {
      StepsPenaltyCovers(init, i, j);
      assert init[i] == steps[i] && init[j] == steps[j];
    } else {
      StepsPenaltyCovers1(init, i);
      assert init[i] == steps[i];
    }
  }

  /** With the decode at position 0 and the labor lookup at position 3, their failures cap the score. */
  lemma CriticalStepsCap(steps: seq<Step>, flags: seq<Flag>)
    requires |steps| > 3 && steps[0].name == VehicleDecode && steps[3].name == LaborLookup
    ensures var c := ConfidenceOf(steps, flags);
      && (steps[0].status.Failed? || steps[3].status.Failed? ==> c.score <= 70 && c.threshold != High)
      && (steps[0].status.Failed? && steps[3].status.Failed? ==> c.score <= 40 && c.threshold == Low)
  {
    StepsPenaltyCovers(steps, 0, 3);
    FlagsPenaltyBounds(flags);
  }

  /**
   * A failed decode or labor step (no result, or a rejected line) caps the confidence at 70
   * (never HIGH), and both together at 40 (LOW).
   */
  lemma CriticalFailureConfidence(s: Services, req: Request, col: Collaborators, roundTenth: real -> real)
    ensures var g := GenerateWith(s, req, col, roundTenth);
      var decodeFailed := VehicleOutcome(s, req.vin, col.nhtsa).Err?;
      var laborFailed := !LaborAccepted(col.labor, req.laborRate);
      && (decodeFailed || laborFailed ==> g.confidence.score <= 70 && g.confidence.threshold != High)
      && (decodeFailed && laborFailed ==> g.confidence.score <= 40 && g.confidence.threshold == Low)
  {
    var g := GenerateWith(s, req, col, roundTenth);
    LaborOutcomeCorrect(col.labor, req.laborRate, col.laborRejection);
    CriticalStepsCap(g.steps, g.flags);
  }

  /**
   * The back-filled lines followed by the add-on lines: a found part keeps its description,
   * number, quantity 1 and the shop markup, and one with a non-zero price keeps that price, its
   * marked-up total and its brand; an add-on line is the add-on at its own price, no markup,
   * vendor "Auto-Add".
   */
  predicate PartsLaidOut(items: seq<PartLine>, found: seq<PartResult>, markup: real, addons: seq<AddOns.AddOnItem>) {
    && |items| == |found| + |addons|
    && (forall i :: 0 <= i < |found| ==>
          && items[i].description == found[i].description && items[i].partNumber == found[i].partNumber
          && items[i].quantity == 1.0 && items[i].markup == markup
          && (found[i].price.Some? && found[i].price.value != 0.0 ==>
                items[i].cost == found[i].price.value &&
                items[i].total == MarkedUp(found[i].price.value, markup) &&
                items[i].vendor == VendorOrUnknown(found[i])))
    && (forall j :: 0 <= j < |addons| ==>
          && items[|found| + j].description == addons[j].partName
          && items[|found| + j].partNumber == addons[j].partNumber
          && items[|found| + j].cost == addons[j].price && items[|found| + j].markup == 0.0
          && items[|found| + j].total == addons[j].price * (addons[j].quantity as real)
          && items[|found| + j].vendor == "Auto-Add")
  }

  /** The part lines, back-filled from any vendor parts, then the add-on lines, are laid out as above. */
  lemma PartsLayout(found: seq<PartResult>, markup: real, vps: seq<Vendor.PartComparison>,
                    addons: seq<AddOns.AddOnItem>)
    ensures PartsLaidOut(BackFilled(PartLines(found, markup), vps) + AddOnLines(addons), found, markup, addons)
  {
    var lines := PartLines(found, markup);
    BackFilledCorrect(lines, vps);
    forall i | 0 <= i < |found| && found[i].price.Some? && found[i].price.value != 0.0
      ensures BackFilled(lines, vps)[i] == lines[i]
    {
      FillLineUnchanged(lines[i], vps);
    }
  }

  /**
   * A run's parts list is laid out as above: the found parts whose lines the schema accepted, in
   * order, then the accepted add-ons detected for its request and labor lines.
   */
  lemma GeneratePartsLayout(s: Services, req: Request, col: Collaborators, roundTenth: real -> real)
    ensures var g := GenerateWith(s, req, col, roundTenth);
      && g.addons == s.detectAddons(req.serviceRequest, LaborDescriptions(g.laborItems))
      && PartsLaidOut(g.partsItems, Accepted(Found(col.parts), req.partsMarkup), req.partsMarkup, Added(g.addons.addons))
  {
    var found := Found(col.parts);
    var vendor := VendorOutcome(s, found, req.vendorWeights, col.offers, roundTenth);
    var labor := LaborLines(LaborOutcome(col.labor, req.laborRate, col.laborRejection));
    var addons := s.detectAddons(req.serviceRequest, LaborDescriptions(labor));
    PartsLayout(Accepted(found, req.partsMarkup), req.partsMarkup, VendorParts(vendor), Added(addons.addons));
  }

  /**
   * Flags in step order: at most three from the recall, warranty and condition steps (the
   * recall's first when a recall matches), then one INFO flag per add-on; only the first three
   * can cost confidence.
   */
  predicate FlagsLaidOut(flags: seq<Flag>, recall: Recalls.RecallCheck, addons: seq<AddOns.AddOnItem>) {
    var k := |flags| - |addons|;
    && 0 <= k <= 3
    && (forall j :: 0 <= j < |addons| ==> flags[k + j] == AddOnFlag(addons[j]) && flags[k + j].kind == Info)
    && (recall.hasMatchingRecall ==> k >= 1 && Some(flags[0]) == recall.flag)
    && (forall i :: 0 <= i < |flags| && flags[i].kind != Info ==> i < 3)
  }

  /** The flags the steps collect are laid out as above. */
  lemma FlagsLayout(recall: Recalls.RecallCheck, warranty: Option<Warranty.WarrantyCheck>,
                    conditions: Option<PartCondition.ConditionSummary>, addons: seq<AddOns.AddOnItem>)
    requires recall.hasMatchingRecall ==> recall.flag.Some?
    ensures FlagsLaidOut(RecallFlags(recall) + WarrantyFlags(warranty) + ConditionFlags(conditions) + AddOnFlags(addons),
                         recall, addons)
  {
  }

  /** A recall check that reports a match also carries its flag. */
  ghost predicate RecallFlagsMatch(check: (seq<Recalls.RecallInfo>, string) -> Recalls.RecallCheck) {
    forall recalls, complaint :: check(recalls, complaint).hasMatchingRecall ==> check(recalls, complaint).flag.Some?
  }

  /** `check_recalls` flags every check that reports a match. */
  lemma StandardRecallFlagsMatch()
    ensures RecallFlagsMatch(Recalls.RecallCheckOf)
  {
  }

  /** A run's flags are laid out as above, for a recall check that flags its matches. */
  lemma GenerateFlagsLayout(s: Services, req: Request, col: Collaborators, roundTenth: real -> real)
    requires RecallFlagsMatch(s.checkRecalls)
    ensures var g := GenerateWith(s, req, col, roundTenth);
      FlagsLaidOut(g.flags, g.recallCheck, Added(g.addons.addons))
  {
    var vehicle := VehicleOutcome(s, req.vin, col.nhtsa);
    var warranty := WarrantyOutcome(s, col.currentYear, vehicle, req.odometer, req.serviceRequest);
    var found := Found(col.parts);
    var vendor := VendorOutcome(s, found, req.vendorWeights, col.offers, roundTenth);
    var lines := PartLines(Accepted(found, req.partsMarkup), req.partsMarkup);
    var conditions := ConditionOutcome(s, BackFilled(lines, VendorParts(vendor)));
    var labor := LaborLines(LaborOutcome(col.labor, req.laborRate, col.laborRejection));
    var addons := s.detectAddons(req.serviceRequest, LaborDescriptions(labor));
    FlagsLayout(s.checkRecalls(col.recalls, req.serviceRequest), OkValue(warranty), conditions, Added(addons.addons));
  }

  /**
   * The job type is "general" unless a labor line was built, and always names a known cleaning
   * kit; the line is the labor result's job at its hours and the shop rate.
   */
  lemma JobTypeFacts(labor: Result<Option<LaborTimeResult>>, rate: real, rejection: string, serviceRequest: string)
    ensures var o := LaborOutcome(labor, rate, rejection);
      var jobType := JobTypeOf(o, serviceRequest);
      var lines := LaborLines(o);
      && jobType in CleaningKits
      && (!LaborAccepted(labor, rate) ==> jobType == "general" && lines == [])
      && (LaborAccepted(labor, rate) ==>
            jobType == DetectJobType(serviceRequest) && |lines| == 1 &&
            lines[0].description == labor.value.value.jobDescription &&
            lines[0].hours == labor.value.value.laborHours && lines[0].rate == rate &&
            lines[0].total == labor.value.value.laborHours * rate)
  {
    DetectJobTypeCorrect(serviceRequest);
  }

  /** A run's job type and labor lines are as above. */
  lemma GenerateJobType(s: Services, req: Request, col: Collaborators, roundTenth: real -> real)
    ensures var g := GenerateWith(s, req, col, roundTenth);
      && g.jobType in CleaningKits
      && (!LaborAccepted(col.labor, req.laborRate) ==> g.jobType == "general" && g.laborItems == [])
      && (LaborAccepted(col.labor, req.laborRate) ==>
            g.jobType == DetectJobType(req.serviceRequest) &&
            g.laborItems == [LaborLineOf(col.labor.value.value, req.laborRate)])
  {
    JobTypeFacts(col.labor, req.laborRate, col.laborRejection, req.serviceRequest);
  }

  /** A totals function that adds the cleaning kit of every listed job type. */
  ghost predicate CarriesKit(calculate: (seq<LaborLine>, seq<PartLine>, string, Option<real>) -> Breakdown) {
    forall labor, parts, jobType, taxRate :: jobType in CleaningKits ==>
      calculate(labor, parts, jobType, taxRate).cleaningKit == Some(CleaningKits[jobType])
  }

  /** The pipeline's totals always add the cleaning kit of a listed job type. */
  lemma StandardCarriesKit()
    ensures CarriesKit(StandardCalculate)
  {
    forall labor, parts, jobType, taxRate | jobType in CleaningKits
      ensures StandardCalculate(labor, parts, jobType, taxRate).cleaningKit == Some(CleaningKits[jobType])
    {
      CleaningKitLookup(jobType);
    }
  }

  /** The estimate of a run carries the cleaning kit of its job type. */
  lemma GenerateCleaningKit(s: Services, req: Request, col: Collaborators, roundTenth: real -> real)
    requires CarriesKit(s.calculate)
    ensures var g := GenerateWith(s, req, col, roundTenth);
      g.jobType in CleaningKits && g.breakdown.cleaningKit == Some(CleaningKits[g.jobType])
  {
    JobTypeFacts(col.labor, req.laborRate, col.laborRejection, req.serviceRequest);
  }

  /** With `ADDON_RULES` every add-on's line is accepted, so step 8 adds every detected add-on. */
  lemma StandardAddOnsAccepted(request: string, procedures: seq<string>)
    ensures var addons := StandardAddOns(request, procedures).addons;
      Added(addons) == addons
  {
    var addons := AddOns.AddOnsOf(AddOns.AddOnRules, request, procedures).addons;
    var n := |Added(addons)|;
    AddedCorrect(addons);
    if n < |addons| {
      AddOns.AddOnRulesPricesPositive();
      AddOns.AddOnsTotals(AddOns.AddOnRules, request, procedures);
      AddOns.AddOnRulesNamesFit();
      AddOns.AddOnsNamesFit(AddOns.AddOnRules, request, procedures);
      assert addons[n] in addons;
      AddOnLineValid(addons[n]);
    }
  }

  /** An add-on with a fitting name and part number, quantity 1 and a positive price makes an accepted line. */
  lemma AddOnLineValid(a: AddOns.AddOnItem)
    requires 1 <= |a.partName| <= 500 && |a.partNumber| <= 100 && a.quantity == 1 && a.price > 0.0
    ensures ValidPartLine(AddOnLine(a))
  {
  }

  /** An add-on detection whose every add-on makes an accepted line. */
  ghost predicate AddsOnlyAccepted(detect: (string, seq<string>) -> AddOns.AddOnReport) {
    forall request, procedures :: Added(detect(request, procedures).addons) == detect(request, procedures).addons
  }

  /** `detect_addons` with `ADDON_RULES` is such a detection. */
  lemma StandardAddsOnlyAccepted()
    ensures AddsOnlyAccepted(StandardAddOns)
  {
    forall request, procedures
      ensures Added(StandardAddOns(request, procedures).addons) == StandardAddOns(request, procedures).addons
    {
      StandardAddOnsAccepted(request, procedures);
    }
  }

  /** With such a detection, the add-on step never fails and adds every detected add-on. */
  lemma GenerateAddsEveryAddOn(s: Services, req: Request, col: Collaborators, roundTenth: real -> real)
    requires AddsOnlyAccepted(s.detectAddons)
    ensures var g := GenerateWith(s, req, col, roundTenth);
      g.steps[7].status == Ran && Added(g.addons.addons) == g.addons.addons
  {
  }
}
