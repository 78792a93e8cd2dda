// The mock labor adapter: a keyword table of standard labor times, searched in table order
// against the lowercased job description, with a one-hour default.
module LaborMock {
  import opened Wrappers
  import opened Text
  import opened Adapters

  /** One entry of `LABOR_DATABASE`: the keyword it is filed under and its job data. */
  datatype LaborEntry = LaborEntry(keyword: string, hours: real, category: string, difficulty: string, description: string)

  const BrakePad := LaborEntry("brake pad", 1.5, "Brakes", "Medium", "Brake Pad Replacement")
  const BrakeRotor := LaborEntry("brake rotor", 2.0, "Brakes", "Medium", "Brake Rotor Replacement")
  const BrakeCaliper := LaborEntry("brake caliper", 1.8, "Brakes", "Medium", "Brake Caliper Replacement")
  const OilChange := LaborEntry("oil change", 0.5, "Maintenance", "Easy", "Oil Change")
  const TransmissionFluid := LaborEntry("transmission fluid", 1.0, "Maintenance", "Medium", "Transmission Fluid Change")
  const CoolantFlush := LaborEntry("coolant flush", 1.2, "Cooling System", "Medium", "Coolant Flush")
  const TimingBelt := LaborEntry("timing belt", 4.5, "Engine", "Hard", "Timing Belt Replacement")
  const ShockAbsorber := LaborEntry("shock absorber", 2.5, "Suspension", "Medium", "Shock Absorber Replacement")
  const Strut := LaborEntry("strut", 3.0, "Suspension", "Hard", "Strut Replacement")
  const Battery := LaborEntry("battery", 0.3, "Electrical", "Easy", "Battery Replacement")
  const Alternator := LaborEntry("alternator", 2.0, "Electrical", "Medium", "Alternator Replacement")
  const Starter := LaborEntry("starter", 1.5, "Electrical", "Medium", "Starter Replacement")
  const TireRotation := LaborEntry("tire rotation", 0.5, "Tires", "Easy", "Tire Rotation")
  const TireReplacement := LaborEntry("tire replacement", 1.0, "Tires", "Easy", "Tire Replacement (Set of 4)")
  const AirFilter := LaborEntry("air filter", 0.3, "Maintenance", "Easy", "Engine Air Filter Replacement")
  const CabinFilter := LaborEntry("cabin filter", 0.3, "Maintenance", "Easy", "Cabin Air Filter Replacement")

  /** `LABOR_DATABASE`, in its insertion order (the order the search tries the keywords in). */
  const LaborDatabase: seq<LaborEntry> := [
    BrakePad, BrakeRotor, BrakeCaliper, OilChange, TransmissionFluid, CoolantFlush, TimingBelt,
    ShockAbsorber, Strut, Battery, Alternator, Starter, TireRotation, TireReplacement,
    AirFilter, CabinFilter]

  const MockSource := "mock"

  /** The result built from a matching table entry. */
  function FromEntry(e: LaborEntry): LaborTimeResult {
    LaborTimeResult(e.description, e.hours, MockSource, e.category, e.difficulty)
  }

  /** The answer when no keyword matches: one hour, under the caller's own description. */
  function Default(jobDescription: string): LaborTimeResult {
    LaborTimeResult(jobDescription, 1.0, MockSource, "General", "Unknown")
  }

  /** Entry `k` is the first entry whose keyword occurs in `text`. */
  predicate IsFirstEntry(table: seq<LaborEntry>, text: string, k: int) {
    0 <= k < |table| && Contains(text, table[k].keyword) &&
    forall j :: 0 <= j < k ==> !Contains(text, table[j].keyword)
  }

  /** `get_labor_time` over a given table. */
  function LaborTimeIn(table: seq<LaborEntry>, jobDescription: string): LaborTimeResult {
    match FirstIn(Column(table, (e: LaborEntry) => e.keyword), Lower(jobDescription))
    case Some(k) => FromEntry(table[k])
    case None => Default(jobDescription)
  }

  /** `get_labor_time(vin, job_description)`; the VIN is not used by the mock. */
  function GetLaborTime(jobDescription: string): LaborTimeResult {
    LaborTimeIn(LaborDatabase, jobDescription)
  }

  /**
   * The first keyword in table order found in the lowercased description decides the answer;
   * with none found the answer is the one-hour default under the original description.
   * Either way the result is never absent and its source is "mock".
   */
  lemma LaborTimeInCorrect(table: seq<LaborEntry>, jobDescription: string)
    ensures var r := LaborTimeIn(table, jobDescription);
      var text := Lower(jobDescription);
      && r.source == "mock"
      && (forall k :: IsFirstEntry(table, text, k) ==> r == FromEntry(table[k]))
      && ((forall k :: 0 <= k < |table| ==> !Contains(text, table[k].keyword)) ==> r == Default(jobDescription))
      && ((exists k :: 0 <= k < |table| && Contains(text, table[k].keyword)) ==> exists k :: IsFirstEntry(table, text, k))
  {
    var text := Lower(jobDescription);
    var keys := Column(table, (e: LaborEntry) => e.keyword);
    match FirstIn(keys, text)
    case Some(m) =>
      assert IsFirstEntry(table, text, m);
      forall k | IsFirstEntry(table, text, k)
        ensures k == m
      {
        assert keys[k] == table[k].keyword;
      }
    case None =>
      forall k | 0 <= k < |table|
        ensures !Contains(text, table[k].keyword)
      {
        assert keys[k] == table[k].keyword;
      }
  }

  predicate HoursPositive(table: seq<LaborEntry>) {
    forall i :: 0 <= i < |table| ==> table[i].hours > 0.0
  }

  /** A table of positive times, and the positive default, give a positive answer. */
  lemma LaborTimeInPositive(table: seq<LaborEntry>, jobDescription: string)
    requires HoursPositive(table)
    ensures LaborTimeIn(table, jobDescription).laborHours > 0.0
  {
    match FirstIn(Column(table, (e: LaborEntry) => e.keyword), Lower(jobDescription))
    case Some(k) =>
      assert table[k].hours > 0.0;
    case None =>
  }

  lemma LaborDatabaseHoursPositive()
    ensures HoursPositive(LaborDatabase)
  {
  }

  /** Every labor time the mock returns is positive. */
  lemma GetLaborTimePositive(jobDescription: string)
    ensures GetLaborTime(jobDescription).laborHours > 0.0
  {
    LaborDatabaseHoursPositive();
    LaborTimeInPositive(LaborDatabase, jobDescription);
  }

  /** Table order decides: a request naming both pads and rotors gets the brake-pad time. */
  lemma BrakePadAndRotorExample()
    ensures GetLaborTime("Brake pad and rotor") ==
      LaborTimeResult("Brake Pad Replacement", 1.5, "mock", "Brakes", "Medium")
  {
    var text := Lower("Brake pad and rotor");
    assert text[..9] == "brake pad";
    assert OccursAt(text, Column(LaborDatabase, (e: LaborEntry) => e.keyword)[0], 0);
  }
}
