// The ALLDATA adapter's offline answer: a keyword estimate of the labor time, returned under
// a description that asks for manual verification.
module AlldataFallback {
  import opened Wrappers
  import opened Text
  import opened Adapters

  /** One entry of the estimate table in `_estimate_labor_time`. */
  datatype Estimate = Estimate(keyword: string, hours: real)

  /** The estimate table, in its insertion order. */
  const Estimates: seq<Estimate> := [
    Estimate("brake pad", 1.2),
    Estimate("brake rotor", 2.0),
    Estimate("oil change", 0.5),
    Estimate("spark plug", 1.5),
    Estimate("battery", 0.3),
    Estimate("alternator", 1.5),
    Estimate("starter", 1.8),
    Estimate("water pump", 3.0),
    Estimate("timing belt", 4.5),
    Estimate("transmission fluid", 1.0),
    Estimate("ac compressor", 3.5),
    Estimate("strut", 2.5),
    Estimate("shock", 1.5),
    Estimate("tie rod", 1.2),
    Estimate("ball joint", 2.0),
    Estimate("wheel bearing", 2.5)]

  /** The estimate when no keyword matches. */
  const DefaultHours: real := 1.5

  const ManualVerificationSuffix := " (\U{26A0}\U{FE0F} MANUAL VERIFICATION NEEDED)"
  const FallbackSource := "alldata-fallback"
  const FallbackCategory := "Estimated - Check ALLDATA"

  /** Entry `k` is the first entry whose keyword occurs in `text`. */
  predicate IsFirstEstimate(table: seq<Estimate>, text: string, k: int) {
    0 <= k < |table| && Contains(text, table[k].keyword) &&
    forall j :: 0 <= j < k ==> !Contains(text, table[j].keyword)
  }

  /** `_estimate_labor_time` over a given table. */
  function EstimateIn(table: seq<Estimate>, jobDescription: string): real {
    match FirstIn(Column(table, (e: Estimate) => e.keyword), Lower(jobDescription))
    case Some(k) => table[k].hours
    case None => DefaultHours
  }

  /** `_estimate_labor_time(job_description)`. */
  function EstimateLaborTime(jobDescription: string): real {
    EstimateIn(Estimates, jobDescription)
  }

  /** `_get_fallback_data(job_description)`. */
  function GetFallbackData(jobDescription: string): LaborTimeResult {
    LaborTimeResult(
      jobDescription + ManualVerificationSuffix,
      EstimateLaborTime(jobDescription),
      FallbackSource,
      FallbackCategory,
      "Unknown")
  }

  /**
   * The estimate is the hours of the first table keyword found in the lowercased description,
   * and 1.5 when none is found.
   */
  lemma EstimateInCorrect(table: seq<Estimate>, jobDescription: string)
    ensures var h := EstimateIn(table, jobDescription);
      var text := Lower(jobDescription);
      && (forall k :: IsFirstEstimate(table, text, k) ==> h == table[k].hours)
      && ((forall k :: 0 <= k < |table| ==> !Contains(text, table[k].keyword)) ==> h == 1.5)
  {
    var text := Lower(jobDescription);
    var keys := Column(table, (e: Estimate) => e.keyword);
    match FirstIn(keys, text)
    case Some(m) =>
      forall k | IsFirstEstimate(table, text, k)
        ensures k == m
      {
        assert keys[k] == table[k].keyword;
      }
    case None =>
      forall k | 0 <= k < |table|
        ensures !Contains(text, table[k].keyword)
      {
        assert keys[k] == table[k].keyword;
      }
  }

  /** The estimate is always one of the table's hours or the default. */
  lemma EstimateInRange(table: seq<Estimate>, jobDescription: string)
    ensures var h := EstimateIn(table, jobDescription);
      h == DefaultHours || exists k :: 0 <= k < |table| && table[k].hours == h
  {
    match FirstIn(Column(table, (e: Estimate) => e.keyword), Lower(jobDescription))
    case Some(k) =>
      assert table[k].hours == EstimateIn(table, jobDescription);
    case None =>
  }

  /** Hence every estimate is between 0.3 and 4.5 hours, and so positive. */
  lemma EstimateLaborTimeBounds(jobDescription: string)
    ensures 0.3 <= EstimateLaborTime(jobDescription) <= 4.5
  {
    EstimateInRange(Estimates, jobDescription);
  }

  /**
   * The fallback keeps the caller's description as a prefix, marks it for manual
   * verification, carries the keyword estimate and names its own source.
   */
  lemma FallbackDataCorrect(jobDescription: string)
    ensures var r := GetFallbackData(jobDescription);
      && r.jobDescription[..|jobDescription|] == jobDescription
      && r.jobDescription[|jobDescription|..] == " (\U{26A0}\U{FE0F} MANUAL VERIFICATION NEEDED)"
      && r.laborHours == EstimateLaborTime(jobDescription)
      && r.laborHours > 0.0
      && r.source == "alldata-fallback"
      && r.category == "Estimated - Check ALLDATA"
      && r.difficulty == "Unknown"
  {
    EstimateLaborTimeBounds(jobDescription);
  }

  /** This table rates pads at 1.2 hours, not the mock adapter's 1.5. */
  lemma BrakePadEstimate()
    ensures EstimateLaborTime("Front brake pads") == 1.2
  {
    var text := Lower("Front brake pads");
    assert text == "front brake pads";
    assert text[6..15] == "brake pad";
    assert OccursAt(text, Column(Estimates, (e: Estimate) => e.keyword)[0], 6);
  }
}
