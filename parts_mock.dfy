// The mock parts adapter: every keyword of a parts table found in the lowercased job
// description contributes all of its parts, in table order; with nothing found, one generic part.
module PartsMock {
  import opened Wrappers
  import opened Text
  import opened Adapters

  /** One entry of `PARTS_DATABASE`: the keyword and the parts filed under it. */
  datatype PartsEntry = PartsEntry(keyword: string, parts: seq<PartResult>)

  const BrakePadOem := PartResult("BRK-PAD-001", "Brake Pad Set - Front (OEM)", Some("OEM"), Some(85.00), true, Some("Brakes"))
  const BrakePadAftermarket := PartResult("BRK-PAD-002", "Brake Pad Set - Front (Aftermarket)", Some("Wagner"), Some(45.00), false, Some("Brakes"))
  const BrakeRotor := PartResult("BRK-ROT-001", "Brake Rotor - Front (Pair)", Some("OEM"), Some(120.00), true, Some("Brakes"))
  const BrakeCaliper := PartResult("BRK-CAL-001", "Brake Caliper - Front Left", Some("OEM"), Some(150.00), true, Some("Brakes"))
  const EngineOil := PartResult("OIL-001", "Engine Oil 5W-30 (5 Quarts)", Some("Mobil 1"), Some(28.00), false, Some("Fluids"))
  const OilFilter := PartResult("OIL-FLT-001", "Oil Filter", Some("OEM"), Some(8.00), true, Some("Filters"))
  const AirFilter := PartResult("AIR-FLT-001", "Engine Air Filter", Some("OEM"), Some(18.00), true, Some("Filters"))
  const CabinFilter := PartResult("CAB-FLT-001", "Cabin Air Filter", Some("OEM"), Some(15.00), true, Some("Filters"))
  const TimingBeltKit := PartResult("TIM-BLT-001", "Timing Belt Kit (Belt + Tensioner)", Some("OEM"), Some(180.00), true, Some("Engine"))
  const Shock := PartResult("SUS-SHK-001", "Shock Absorber - Front (Each)", Some("Monroe"), Some(75.00), false, Some("Suspension"))
  const Strut := PartResult("SUS-STR-001", "Strut Assembly - Front (Each)", Some("OEM"), Some(220.00), true, Some("Suspension"))
  const Battery := PartResult("BAT-001", "Battery - Group 24F", Some("Interstate"), Some(120.00), false, Some("Electrical"))
  const Alternator := PartResult("ALT-001", "Alternator - Remanufactured", Some("OEM"), Some(280.00), true, Some("Electrical"))
  const Starter := PartResult("STR-001", "Starter Motor - Remanufactured", Some("OEM"), Some(180.00), true, Some("Electrical"))
  const Coolant := PartResult("CLT-001", "Engine Coolant (1 Gallon)", Some("OEM"), Some(22.00), true, Some("Fluids"))

  /** `PARTS_DATABASE`, in its insertion order. */
  const PartsDatabase: seq<PartsEntry> := [
    PartsEntry("brake pad", [BrakePadOem, BrakePadAftermarket]),
    PartsEntry("brake rotor", [BrakeRotor]),
    PartsEntry("brake caliper", [BrakeCaliper]),
    PartsEntry("oil", [EngineOil]),
    PartsEntry("oil filter", [OilFilter]),
    PartsEntry("air filter", [AirFilter]),
    PartsEntry("cabin filter", [CabinFilter]),
    PartsEntry("timing belt", [TimingBeltKit]),
    PartsEntry("shock", [Shock]),
    PartsEntry("strut", [Strut]),
    PartsEntry("battery", [Battery]),
    PartsEntry("alternator", [Alternator]),
    PartsEntry("starter", [Starter]),
    PartsEntry("coolant", [Coolant])]

  const GenericPrefix := "Generic Part for: "

  /** The single part returned when no keyword matches. */
  function GenericPart(jobDescription: string): PartResult {
    PartResult("GEN-001", GenericPrefix + jobDescription, Some("Generic"), Some(50.00), false, Some("General"))
  }

  /** The parts the entries of `table` whose keyword occurs in `text` contribute, in table order. */
  function Matched(table: seq<PartsEntry>, text: string): seq<PartResult> {
    if table == [] then []
    else
      var last := table[|table| - 1];
      Matched(table[..|table| - 1], text) + (if Contains(text, last.keyword) then last.parts else [])
  }

  /** What `search_parts` returns for a description. */
  function PartsFor(table: seq<PartsEntry>, jobDescription: string): seq<PartResult> {
    var found := Matched(table, Lower(jobDescription));
    if found == [] then [GenericPart(jobDescription)] else found
  }

  /** `search_parts` over a given table. */
  method SearchPartsIn(table: seq<PartsEntry>, jobDescription: string) returns (results: seq<PartResult>)
    ensures results == PartsFor(table, jobDescription)
  {
    var searchTerm := Lower(jobDescription);
    results := [];
    for i := 0 to |table|
      invariant results == Matched(table[..i], searchTerm)
    {
      assert table[..i + 1][..i] == table[..i];
      ghost var before := results;
      if Contains(searchTerm, table[i].keyword) {
        var parts := table[i].parts;
        for j := 0 to |parts|
          invariant results == before + parts[..j]
        {
          results := results + [parts[j]];
          assert parts[..j + 1] == parts[..j] + [parts[j]];
        }
        assert parts[..|parts|] == parts;
      }
    }
    assert table[..|table|] == table;
    if results == [] {
      results := [GenericPart(jobDescription)];
    }
  }

  /** `search_parts(vin, job_description)`; the VIN is not used by the mock. */
  method SearchParts(jobDescription: string) returns (results: seq<PartResult>)
    ensures results == PartsFor(PartsDatabase, jobDescription)
  {
    results := SearchPartsIn(PartsDatabase, jobDescription);
  }

  /** `Matched` grows one entry at a time. */
  lemma MatchedSnoc(table: seq<PartsEntry>, text: string, k: nat)
    requires k < |table|
    ensures Matched(table[..k + 1], text) ==
      Matched(table[..k], text) + (if Contains(text, table[k].keyword) then table[k].parts else [])
  {
    assert table[..k + 1][..k] == table[..k];
  }

  lemma MatchedMiss(table: seq<PartsEntry>, text: string, k: nat)
    requires k < |table| && !Contains(text, table[k].keyword)
    ensures Matched(table[..k + 1], text) == Matched(table[..k], text)
  {
    MatchedSnoc(table, text, k);
  }

  lemma MatchedHit(table: seq<PartsEntry>, text: string, k: nat)
    requires k < |table| && Contains(text, table[k].keyword)
    ensures Matched(table[..k + 1], text) == Matched(table[..k], text) + table[k].parts
  {
    MatchedSnoc(table, text, k);
  }

  /** Entry `i` of `table` fires on `text` and files part `p`. */
  predicate Contributes(table: seq<PartsEntry>, text: string, i: int, p: PartResult) {
    0 <= i < |table| && Contains(text, table[i].keyword) && p in table[i].parts
  }

  /** A part is found exactly when some firing entry files it. */
  lemma {:induction false} MatchedMembership(table: seq<PartsEntry>, text: string, p: PartResult)
    ensures p in Matched(table, text) <==> exists i :: Contributes(table, text, i, p)
    decreases |table|
  {
    if table != [] {
      var init := table[..|table| - 1];
      MatchedMembership(init, text, p);
      var last := table[|table| - 1];
      var tail := if Contains(text, last.keyword) then last.parts else [];
      assert Matched(table, text) == Matched(init, text) + tail;
      if p in tail {
        assert Contributes(table, text, |init|, p);
      }
      if exists i :: Contributes(init, text, i, p) {
        var i :| Contributes(init, text, i, p);
        assert init[i] == table[i];
        assert Contributes(table, text, i, p);
      }
      if exists i :: Contributes(table, text, i, p) {
        var i :| Contributes(table, text, i, p);
        if i < |init| {
          assert init[i] == table[i];
          assert Contributes(init, text, i, p);
        } else {
          assert table[i] == last;
        }
      }
    }
  }

  /** Every entry of the table files at least one part. */
  predicate EntriesNonEmpty(table: seq<PartsEntry>) {
    forall i :: 0 <= i < |table| ==> table[i].parts != []
  }

  /** With no empty entries, nothing is found exactly when no keyword occurs. */
  lemma {:induction false} MatchedEmpty(table: seq<PartsEntry>, text: string)
    requires EntriesNonEmpty(table)
    ensures Matched(table, text) == [] <==> forall i :: 0 <= i < |table| ==> !Contains(text, table[i].keyword)
    decreases |table|
  {
    if table != [] {
      var init := table[..|table| - 1];
      MatchedEmpty(init, text);
      assert forall i :: 0 <= i < |init| ==> init[i] == table[i];
    }
  }

  /**
   * The answer is never empty: the found parts when some keyword occurs in the lowercased
   * description, and otherwise exactly the generic part naming the description.
   */
  lemma PartsForCorrect(table: seq<PartsEntry>, jobDescription: string)
    requires EntriesNonEmpty(table)
    ensures var r := PartsFor(table, jobDescription);
      var text := Lower(jobDescription);
      && r != []
      && ((forall i :: 0 <= i < |table| ==> !Contains(text, table[i].keyword)) ==> r == [GenericPart(jobDescription)])
      && ((exists i :: 0 <= i < |table| && Contains(text, table[i].keyword)) ==> r == Matched(table, text))
      && (forall p :: p in r && p != GenericPart(jobDescription) ==> exists i :: Contributes(table, text, i, p))
  {
    var text := Lower(jobDescription);
    MatchedEmpty(table, text);
    forall p | p in PartsFor(table, jobDescription) && p != GenericPart(jobDescription)
      ensures exists i :: Contributes(table, text, i, p)
    {
      MatchedMembership(table, text, p);
    }
  }

  predicate PricesPositive(table: seq<PartsEntry>) {
    forall i, j :: 0 <= i < |table| && 0 <= j < |table[i].parts| ==> table[i].parts[j].price.Some? && table[i].parts[j].price.value > 0.0
  }

  /** With a table of positive prices, every returned price is positive (the generic one is 50.00). */
  lemma PartsForPricesPositive(table: seq<PartsEntry>, jobDescription: string)
    requires PricesPositive(table)
    ensures forall p :: p in PartsFor(table, jobDescription) ==> p.price.Some? && p.price.value > 0.0
  {
    var text := Lower(jobDescription);
    forall p | p in Matched(table, text)
      ensures p.price.Some? && p.price.value > 0.0
    {
      MatchedMembership(table, text, p);
      var i :| Contributes(table, text, i, p);
      var j :| 0 <= j < |table[i].parts| && table[i].parts[j] == p;
    }
  }

  lemma PartsDatabaseFacts()
    ensures EntriesNonEmpty(PartsDatabase)
    ensures PricesPositive(PartsDatabase)
  {
  }

  /** Every part the mock returns has a positive price, and it always returns some part. */
  lemma SearchPartsFacts(jobDescription: string)
    ensures PartsFor(PartsDatabase, jobDescription) != []
    ensures forall p :: p in PartsFor(PartsDatabase, jobDescription) ==> p.price.Some? && p.price.value > 0.0
  {
    PartsDatabaseFacts();
    PartsForCorrect(PartsDatabase, jobDescription);
    PartsForPricesPositive(PartsDatabase, jobDescription);
  }

  /** Which keywords of the table occur in "oil filter". */
  lemma OilFilterKeywords()
    ensures Lower("oil filter") == "oil filter"
    ensures !Contains("oil filter", "brake pad")
    ensures !Contains("oil filter", "brake rotor")
    ensures !Contains("oil filter", "brake caliper")
    ensures Contains("oil filter", "oil")
    ensures Contains("oil filter", "oil filter")
    ensures !Contains("oil filter", "air filter")
    ensures !Contains("oil filter", "cabin filter")
    ensures !Contains("oil filter", "timing belt")
    ensures !Contains("oil filter", "shock")
    ensures !Contains("oil filter", "strut")
    ensures !Contains("oil filter", "battery")
    ensures !Contains("oil filter", "alternator")
    ensures !Contains("oil filter", "starter")
    ensures !Contains("oil filter", "coolant")
  {
    var text := "oil filter";
    assert OccursAt(text, "oil", 0);
    assert OccursAt(text, "oil filter", 0);
    MissingChar(text, "brake pad", 0);
    MissingChar(text, "brake rotor", 0);
    MissingChar(text, "brake caliper", 0);
    MissingChar(text, "air filter", 0);
    MissingChar(text, "cabin filter", 0);
    MissingChar(text, "timing belt", 2);
    MissingChar(text, "shock", 0);
    MissingChar(text, "strut", 0);
    MissingChar(text, "battery", 0);
    MissingChar(text, "alternator", 0);
    MissingChar(text, "starter", 0);
    MissingChar(text, "coolant", 0);
  }

  /** Overlapping keywords both fire: "oil filter" finds the engine oil and then the oil filter. */
  lemma OilFilterExample()
    ensures PartsFor(PartsDatabase, "oil filter") == [EngineOil, OilFilter]
  {
    var text := "oil filter";
    var t := PartsDatabase;
    OilFilterKeywords();
    assert t[..0] == [];
    MatchedMiss(t, text, 0);
    MatchedMiss(t, text, 1);
    MatchedMiss(t, text, 2);
    assert Matched(t[..3], text) == [];
    MatchedHit(t, text, 3);
    MatchedHit(t, text, 4);
    MatchedMiss(t, text, 5);
    MatchedMiss(t, text, 6);
    MatchedMiss(t, text, 7);
    MatchedMiss(t, text, 8);
    MatchedMiss(t, text, 9);
    MatchedMiss(t, text, 10);
    MatchedMiss(t, text, 11);
    MatchedMiss(t, text, 12);
    MatchedMiss(t, text, 13);
    assert Matched(t[..14], text) == [EngineOil, OilFilter];
    assert t[..14] == t;
  }
}
