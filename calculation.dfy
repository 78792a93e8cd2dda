/**
 * The calculation engine: labor and parts totals, tax, the job-type cleaning kit and the
 * grand total of an estimate, in exact decimal arithmetic rounded half-up to cents.
 */
module Calculation {

  import opened Wrappers

  /** One labor line of an estimate. */
  datatype LaborLine = LaborLine(description: string, hours: real, rate: real, total: real)

  /** One part line of an estimate; `partNumber`, `vendor` and `reasonBadge` are "" when absent. */
  datatype PartLine = PartLine(
    description: string,
    partNumber: string,
    quantity: real,
    cost: real,
    markup: real,
    total: real,
    vendor: string,
    reasonBadge: string)

  /**
   * The field limits `LaborItemSchema` checks when a labor line is built: a description of 1 to
   * 500 characters and no negative hours, rate or total.
   */
  predicate ValidLaborLine(l: LaborLine) {
    1 <= |l.description| <= 500 && l.hours >= 0.0 && l.rate >= 0.0 && l.total >= 0.0
  }

  /**
   * The field limits `PartItemSchema` checks when a part line is built: a description of 1 to
   * 500 characters, a part number and a vendor of at most 100, no negative quantity, cost or
   * total, and a markup between 0 and 100.
   */
  predicate ValidPartLine(p: PartLine) {
    && 1 <= |p.description| <= 500 && |p.partNumber| <= 100 && |p.vendor| <= 100
    && p.quantity >= 0.0 && p.cost >= 0.0 && p.total >= 0.0
    && 0.0 <= p.markup <= 100.0
  }

  /** A service cleaning kit, charged in place of a shop fee. */
  datatype CleaningKit = CleaningKit(name: string, includes: seq<string>, price: real)

  datatype Breakdown = Breakdown(
    laborTotal: real,
    partsTotal: real,
    subtotal: real,
    taxAmount: real,
    cleaningKit: Option<CleaningKit>,
    total: real)

  const CleaningKits: map<string, CleaningKit> := map[
    "brake_service" := CleaningKit("Brake Service Cleaning Kit",
      ["Brake cleaner", "Caliper grease", "Disposable gloves"], 15.00),
    "engine_repair" := CleaningKit("Engine Service Cleaning Kit",
      ["Degreaser", "Shop towels", "Oil absorbent"], 20.00),
    "ac_service" := CleaningKit("AC Service Cleaning Kit",
      ["UV dye", "Leak sealant", "O-ring lubricant"], 18.00),
    "transmission" := CleaningKit("Transmission Service Cleaning Kit",
      ["Fluid funnel", "Shop towels", "Spill mat"], 16.00),
    "suspension" := CleaningKit("Suspension Service Cleaning Kit",
      ["Penetrating oil", "Shop towels", "Grease"], 14.00),
    "general" := CleaningKit("General Service Cleaning Kit",
      ["All-purpose cleaner", "Shop towels"], 12.00)
  ]

  /** The configured default tax rate the shared calculation service is built with. */
  const DefaultTaxRate: real := 0.08

  // ---------------------------------------------------------------------------
  // Fixed-point rounding
  // ---------------------------------------------------------------------------

  /** `x` is a whole number of cents. */
  predicate IsCents(x: real) {
    (100.0 * x).Floor as real == 100.0 * x
  }

  /**
   * `x.quantize(Decimal("0.01"), rounding=ROUND_HALF_UP)`: the nearest cent, ties away from zero.
   */
  function RoundHalfUpCents(x: real): (r: real)
    ensures IsCents(r)
    ensures x >= 0.0 ==> r - 0.005 <= x < r + 0.005
    ensures x < 0.0 ==> r - 0.005 < x <= r + 0.005
  {
    if x >= 0.0 then RoundMagnitude(x)
    else var c := RoundMagnitude(-x); CentsNegate(c); -c
  }

  /** Half-up rounding of a non-negative amount: the floor of 100x + 1/2, in cents. */
  function RoundMagnitude(x: real): (r: real)
    requires x >= 0.0
    ensures IsCents(r)
    ensures r - 0.005 <= x < r + 0.005
  {
    var f := (100.0 * x + 0.5).Floor;
    assert f as real <= 100.0 * x + 0.5 < f as real + 1.0;
    var r := f as real / 100.0;
    assert 100.0 * r == f as real;
    r
  }

  lemma CentsNegate(c: real)
    requires IsCents(c)
    ensures IsCents(-c)
  {
    var f := (100.0 * c).Floor;
    assert 100.0 * -c == (-f) as real;
  }

  lemma CentsAdd(a: real, b: real)
    requires IsCents(a) && IsCents(b)
    ensures IsCents(a + b)
  {
    var fa, fb := (100.0 * a).Floor, (100.0 * b).Floor;
    assert 100.0 * (a + b) == (fa + fb) as real;
  }

  /** For a non-negative amount the rounded value is THE cent of the half-open window around it. */
  lemma {:induction false} RoundHalfUpCentsUnique(x: real, c: real)
    requires x >= 0.0 && IsCents(c) && c - 0.005 <= x < c + 0.005
    ensures RoundHalfUpCents(x) == c
  {
    var r := RoundHalfUpCents(x);
    var fr, fc := (100.0 * r).Floor, (100.0 * c).Floor;
    assert -1 < fr - fc < 1;
    assert fr == fc;
  }

  /** Rounding an amount that is already whole cents leaves it unchanged. */
  lemma RoundHalfUpCentsOfCents(x: real)
    requires IsCents(x)
    ensures RoundHalfUpCents(x) == x
  {
    if x >= 0.0 {
      RoundHalfUpCentsUnique(x, x);
    } else {
      CentsNegate(x);
      RoundHalfUpCentsUnique(-x, -x);
    }
  }

  lemma RoundHalfUpCentsNonNegative(x: real)
    requires x >= 0.0
    ensures RoundHalfUpCents(x) >= 0.0
  {
    var r := RoundHalfUpCents(x);
    assert (100.0 * r).Floor as real == 100.0 * r;
    assert 100.0 * r > -0.5;
  }

  // ---------------------------------------------------------------------------
  // Line amounts and sums
  // ---------------------------------------------------------------------------

  /** hours x rate. */
  function LaborAmount(line: LaborLine): real {
    line.hours * line.rate
  }

  /** (cost x quantity) x (1 + markup / 100). */
  function PartAmount(line: PartLine): real {
    line.cost * line.quantity * (1.0 + line.markup / 100.0)
  }

  /** The unrounded sum of the labor amounts, accumulated left to right. */
  function LaborSum(lines: seq<LaborLine>): real
    decreases |lines|
  {
    if lines == [] then 0.0 else LaborSum(lines[..|lines| - 1]) + LaborAmount(lines[|lines| - 1])
  }

  /** The unrounded sum of the part amounts, accumulated left to right. */
  function PartsSum(lines: seq<PartLine>): real
    decreases |lines|
  {
    if lines == [] then 0.0 else PartsSum(lines[..|lines| - 1]) + PartAmount(lines[|lines| - 1])
  }

  lemma {:induction false} LaborSumAppend(a: seq<LaborLine>, b: seq<LaborLine>)
    ensures LaborSum(a + b) == LaborSum(a) + LaborSum(b)
    decreases |b|
  {
    if b == [] {
      assert a + b == a;
    } else {
      var last := b[|b| - 1];
      assert (a + b)[..|a + b| - 1] == a + b[..|b| - 1];
      LaborSumAppend(a, b[..|b| - 1]);
    }
  }

  lemma {:induction false} PartsSumAppend(a: seq<PartLine>, b: seq<PartLine>)
    ensures PartsSum(a + b) == PartsSum(a) + PartsSum(b)
    decreases |b|
  {
    if b == [] {
      assert a + b == a;
    } else {
      assert (a + b)[..|a + b| - 1] == a + b[..|b| - 1];
      PartsSumAppend(a, b[..|b| - 1]);
    }
  }

  predicate LaborInputsNonNegative(lines: seq<LaborLine>) {
    forall i :: 0 <= i < |lines| ==> lines[i].hours >= 0.0 && lines[i].rate >= 0.0
  }

  predicate PartInputsNonNegative(lines: seq<PartLine>) {
    forall i :: 0 <= i < |lines| ==>
      lines[i].cost >= 0.0 && lines[i].quantity >= 0.0 && lines[i].markup >= 0.0
  }

  lemma PartAmountNonNegative(line: PartLine)
    requires line.cost >= 0.0 && line.quantity >= 0.0 && line.markup >= 0.0
    ensures PartAmount(line) >= 0.0
  {
    assert line.cost * line.quantity >= 0.0;
    assert 1.0 + line.markup / 100.0 > 0.0;
  }

  lemma {:induction false} LaborSumNonNegative(lines: seq<LaborLine>)
    requires LaborInputsNonNegative(lines)
    ensures LaborSum(lines) >= 0.0
    decreases |lines|
  {
    if lines != [] {
      LaborSumNonNegative(lines[..|lines| - 1]);
      var last := lines[|lines| - 1];
      assert last.hours >= 0.0 && last.rate >= 0.0;
      assert LaborAmount(last) >= 0.0;
    }
  }

  lemma {:induction false} PartsSumNonNegative(lines: seq<PartLine>)
    requires PartInputsNonNegative(lines)
    ensures PartsSum(lines) >= 0.0
    decreases |lines|
  {
    if lines != [] {
      PartsSumNonNegative(lines[..|lines| - 1]);
      PartAmountNonNegative(lines[|lines| - 1]);
    }
  }

  /** `calculate_labor_total`: the sum of hours x rate, rounded to cents once, after summation. */
  method CalculateLaborTotal(lines: seq<LaborLine>) returns (total: real)
    ensures total == RoundHalfUpCents(LaborSum(lines))
  {
    var acc := 0.0;
    for i := 0 to |lines|
      invariant acc == LaborSum(lines[..i])
    {
      assert lines[..i + 1][..i] == lines[..i];
      acc := acc + LaborAmount(lines[i]);
    }
    assert lines[..|lines|] == lines;
    total := RoundHalfUpCents(acc);
  }

  /** `calculate_parts_total`: the sum of the marked-up line amounts, rounded to cents once. */
  method CalculatePartsTotal(lines: seq<PartLine>) returns (total: real)
    ensures total == RoundHalfUpCents(PartsSum(lines))
  {
    var acc := 0.0;
    for i := 0 to |lines|
      invariant acc == PartsSum(lines[..i])
    {
      assert lines[..i + 1][..i] == lines[..i];
      var cost, quantity, markup := lines[i].cost, lines[i].quantity, lines[i].markup;
      var baseCost := cost * quantity;
      var multiplier := 1.0 + markup / 100.0;
      acc := acc + baseCost * multiplier;
    }
    assert lines[..|lines|] == lines;
    total := RoundHalfUpCents(acc);
  }

  /**
   * Rounding happens once on the sum, not per line: two labor lines of 0.004 each total 0.01,
   * where rounding each line first would give 0.00.
   */
  lemma LaborRoundedAfterSummation()
    ensures var lines := [LaborLine("a", 0.001, 4.0, 0.0), LaborLine("b", 0.001, 4.0, 0.0)];
      RoundHalfUpCents(LaborSum(lines)) == 0.01 &&
      RoundHalfUpCents(LaborAmount(lines[0])) + RoundHalfUpCents(LaborAmount(lines[1])) == 0.0
  {
    var lines := [LaborLine("a", 0.001, 4.0, 0.0), LaborLine("b", 0.001, 4.0, 0.0)];
    assert lines[..1][..0] == [];
    assert LaborSum(lines) == 0.008;
    RoundHalfUpCentsUnique(0.008, 0.01);
    RoundHalfUpCentsUnique(0.004, 0.0);
  }

  // ---------------------------------------------------------------------------
  // Cleaning kit, tax and the breakdown
  // ---------------------------------------------------------------------------

  /** `CLEANING_KITS.get(job_type, CLEANING_KITS['general'])`. */
  function GetCleaningKit(jobType: string): CleaningKit {
    if jobType in CleaningKits then CleaningKits[jobType] else CleaningKits["general"]
  }

  /** A listed job type gets its own kit; any other string gets the general kit at 12.00. */
  lemma CleaningKitLookup(jobType: string)
    ensures jobType in CleaningKits ==> GetCleaningKit(jobType) == CleaningKits[jobType]
    ensures jobType !in CleaningKits ==>
      GetCleaningKit(jobType).name == "General Service Cleaning Kit" &&
      GetCleaningKit(jobType).price == 12.00
    ensures GetCleaningKit(jobType).price > 0.0 && IsCents(GetCleaningKit(jobType).price)
  {
  }

  /** `tax_rate or default`: a missing or zero rate falls back to the default. */
  function EffectiveTaxRate(requested: Option<real>, fallback: real): real {
    if requested.Some? && requested.value != 0.0 then requested.value else fallback
  }

  /** The rate a calculation service instance is constructed with. */
  function InstanceTaxRate(configured: Option<real>): real {
    EffectiveTaxRate(configured, DefaultTaxRate)
  }

  /** The tax on a subtotal: subtotal x rate, rounded half-up to cents. */
  function TaxOn(subtotal: real, rate: real): real {
    RoundHalfUpCents(subtotal * rate)
  }

  function KitPrice(kit: Option<CleaningKit>): real {
    if kit.Some? then kit.value.price else 0.0
  }

  /** The breakdown `calculate_estimate` returns. */
  function EstimateOf(
    labor: seq<LaborLine>,
    parts: seq<PartLine>,
    jobType: string,
    taxRate: Option<real>,
    instanceRate: real,
    includeCleaningKit: bool): Breakdown
  {
    var laborTotal := RoundHalfUpCents(LaborSum(labor));
    var partsTotal := RoundHalfUpCents(PartsSum(parts));
    var subtotal := laborTotal + partsTotal;
    var taxAmount := TaxOn(subtotal, EffectiveTaxRate(taxRate, instanceRate));
    var kit := if includeCleaningKit then Some(GetCleaningKit(jobType)) else None;
    Breakdown(laborTotal, partsTotal, subtotal, taxAmount, kit, subtotal + taxAmount + KitPrice(kit))
  }

  /** `calculate_estimate`. */
  method CalculateEstimate(
    labor: seq<LaborLine>,
    parts: seq<PartLine>,
    jobType: string,
    taxRate: Option<real>,
    instanceRate: real,
    includeCleaningKit: bool) returns (b: Breakdown)
    ensures b == EstimateOf(labor, parts, jobType, taxRate, instanceRate, includeCleaningKit)
  {
    var rate := if taxRate.Some? && taxRate.value != 0.0 then taxRate.value else instanceRate;
    var laborTotal := CalculateLaborTotal(labor);
    var partsTotal := CalculatePartsTotal(parts);
    var subtotal := laborTotal + partsTotal;
    var taxAmount := TaxOn(subtotal, rate);
    var kit: Option<CleaningKit> := None;
    var kitPrice := 0.0;
    if includeCleaningKit {
      var k := GetCleaningKit(jobType);
      kitPrice := k.price;
      kit := Some(k);
    }
    b := Breakdown(laborTotal, partsTotal, subtotal, taxAmount, kit, subtotal + taxAmount + kitPrice);
  }

  /**
   * The breakdown adds up: subtotal = labor + parts, total = subtotal + tax + kit price,
   * tax is the subtotal times the effective rate rounded to cents, and the kit is present
   * exactly when it was asked for.
   */
  lemma EstimateAddsUp(
    labor: seq<LaborLine>, parts: seq<PartLine>, jobType: string,
    taxRate: Option<real>, instanceRate: real, includeCleaningKit: bool)
    ensures var b := EstimateOf(labor, parts, jobType, taxRate, instanceRate, includeCleaningKit);
      && b.subtotal == b.laborTotal + b.partsTotal
      && b.total == b.subtotal + b.taxAmount + KitPrice(b.cleaningKit)
      && b.taxAmount == TaxOn(b.subtotal, EffectiveTaxRate(taxRate, instanceRate))
      && (b.cleaningKit.None? <==> !includeCleaningKit)
      && (includeCleaningKit ==> b.cleaningKit == Some(GetCleaningKit(jobType)))
  {
  }

  /** Every amount of the breakdown is a whole number of cents. */
  lemma EstimateInCents(
    labor: seq<LaborLine>, parts: seq<PartLine>, jobType: string,
    taxRate: Option<real>, instanceRate: real, includeCleaningKit: bool)
    ensures var b := EstimateOf(labor, parts, jobType, taxRate, instanceRate, includeCleaningKit);
      IsCents(b.laborTotal) && IsCents(b.partsTotal) && IsCents(b.subtotal) &&
      IsCents(b.taxAmount) && IsCents(b.total)
  {
    var b := EstimateOf(labor, parts, jobType, taxRate, instanceRate, includeCleaningKit);
    CentsAdd(b.laborTotal, b.partsTotal);
    CentsAdd(b.subtotal, b.taxAmount);
    CleaningKitLookup(jobType);
    assert IsCents(KitPrice(b.cleaningKit));
    CentsAdd(b.subtotal + b.taxAmount, KitPrice(b.cleaningKit));
  }

  /** A zero tax rate is not "no tax": it falls back to the instance rate, as a missing one does. */
  lemma ZeroTaxRateFallsBack(
    labor: seq<LaborLine>, parts: seq<PartLine>, jobType: string,
    instanceRate: real, includeCleaningKit: bool)
    ensures EstimateOf(labor, parts, jobType, Some(0.0), instanceRate, includeCleaningKit)
         == EstimateOf(labor, parts, jobType, None, instanceRate, includeCleaningKit)
    ensures var b := EstimateOf(labor, parts, jobType, Some(0.0), instanceRate, includeCleaningKit);
      b.taxAmount == TaxOn(b.subtotal, instanceRate)
  {
  }

  /** With non-negative hours, rates, costs, quantities, markups and tax rate, no amount is negative. */
  lemma EstimateNonNegative(
    labor: seq<LaborLine>, parts: seq<PartLine>, jobType: string,
    taxRate: Option<real>, instanceRate: real, includeCleaningKit: bool)
    requires LaborInputsNonNegative(labor) && PartInputsNonNegative(parts)
    requires EffectiveTaxRate(taxRate, instanceRate) >= 0.0
    ensures var b := EstimateOf(labor, parts, jobType, taxRate, instanceRate, includeCleaningKit);
      b.laborTotal >= 0.0 && b.partsTotal >= 0.0 && b.subtotal >= 0.0 &&
      b.taxAmount >= 0.0 && KitPrice(b.cleaningKit) >= 0.0 && b.total >= 0.0
  {
    var b := EstimateOf(labor, parts, jobType, taxRate, instanceRate, includeCleaningKit);
    LaborSumNonNegative(labor);
    PartsSumNonNegative(parts);
    RoundHalfUpCentsNonNegative(LaborSum(labor));
    RoundHalfUpCentsNonNegative(PartsSum(parts));
    var rate := EffectiveTaxRate(taxRate, instanceRate);
    assert b.subtotal * rate >= 0.0;
    RoundHalfUpCentsNonNegative(b.subtotal * rate);
    CleaningKitLookup(jobType);
  }

  /**
   * The worked example: 1.5 h at 120, one part at 85 with 30% markup, tax 0.08 gives
   * 180.00 / 110.50 / 290.50 / 23.24 / 313.74 without a kit, and 328.74 with the brake kit.
   */
  lemma WorkedExample()
    ensures var labor := [LaborLine("Brake Pad Replacement", 1.5, 120.0, 180.0)];
      var parts := [PartLine("Brake Pad Set - Front", "BRK-12345", 1.0, 85.0, 30.0, 110.5, "", "")];
      var b := EstimateOf(labor, parts, "general", Some(0.08), DefaultTaxRate, false);
      var k := EstimateOf(labor, parts, "brake_service", Some(0.08), DefaultTaxRate, true);
      b.laborTotal == 180.00 && b.partsTotal == 110.50 && b.subtotal == 290.50 &&
      b.taxAmount == 23.24 && b.cleaningKit.None? && b.total == 313.74 &&
      k.cleaningKit == Some(CleaningKits["brake_service"]) && k.total == 328.74
  {
    var labor := [LaborLine("Brake Pad Replacement", 1.5, 120.0, 180.0)];
    var parts := [PartLine("Brake Pad Set - Front", "BRK-12345", 1.0, 85.0, 30.0, 110.5, "", "")];
    assert labor[..0] == [] && parts[..0] == [];
    assert LaborSum(labor) == 180.0;
    assert PartsSum(parts) == 110.5;
    RoundHalfUpCentsUnique(180.0, 180.0);
    RoundHalfUpCentsUnique(110.5, 110.5);
    RoundHalfUpCentsUnique(290.5 * 0.08, 23.24);
  }

  // ---------------------------------------------------------------------------
  // Per-line recomputation
  // ---------------------------------------------------------------------------

  function RecalculatedLabor(lines: seq<LaborLine>): seq<LaborLine> {
    seq(|lines|, i requires 0 <= i < |lines| =>
      lines[i].(total := RoundHalfUpCents(LaborAmount(lines[i]))))
  }

  function RecalculatedParts(lines: seq<PartLine>): seq<PartLine> {
    seq(|lines|, i requires 0 <= i < |lines| =>
      lines[i].(total := RoundHalfUpCents(PartAmount(lines[i]))))
  }

  /**
   * `recalculate_item_totals`: each line's total becomes its formula rounded to cents,
   * in the same order, every other field kept.
   */
  method RecalculateItemTotals(labor: seq<LaborLine>, parts: seq<PartLine>)
    returns (updatedLabor: seq<LaborLine>, updatedParts: seq<PartLine>)
    ensures updatedLabor == RecalculatedLabor(labor)
    ensures updatedParts == RecalculatedParts(parts)
  {
    updatedLabor := [];
    for i := 0 to |labor|
      invariant updatedLabor == RecalculatedLabor(labor[..i])
    {
      var amount := labor[i].hours * labor[i].rate;
      assert amount == LaborAmount(labor[i]);
      var itemTotal := RoundHalfUpCents(amount);
      updatedLabor := updatedLabor + [labor[i].(total := itemTotal)];
    }
    assert labor[..|labor|] == labor;
    updatedParts := [];
    for i := 0 to |parts|
      invariant updatedParts == RecalculatedParts(parts[..i])
    {
      var baseCost := parts[i].cost * parts[i].quantity;
      var multiplier := 1.0 + parts[i].markup / 100.0;
      var amount := baseCost * multiplier;
      assert amount == PartAmount(parts[i]);
      var itemTotal := RoundHalfUpCents(amount);
      updatedParts := updatedParts + [parts[i].(total := itemTotal)];
    }
    assert parts[..|parts|] == parts;
  }

  /** Recomputed lines keep length, order and every field but `total`, which is the rounded formula. */
  lemma RecalculatedLinesKeepFields(labor: seq<LaborLine>, parts: seq<PartLine>)
    ensures |RecalculatedLabor(labor)| == |labor| && |RecalculatedParts(parts)| == |parts|
    ensures forall i :: 0 <= i < |labor| ==>
      var l := RecalculatedLabor(labor)[i];
      l.description == labor[i].description && l.hours == labor[i].hours &&
      l.rate == labor[i].rate && l.total == RoundHalfUpCents(labor[i].hours * labor[i].rate)
    ensures forall i :: 0 <= i < |parts| ==>
      var p := RecalculatedParts(parts)[i];
      p == parts[i].(total := p.total) &&
      p.total == RoundHalfUpCents(parts[i].cost * parts[i].quantity * (1.0 + parts[i].markup / 100.0))
  {
  }

  /** Recomputing twice is recomputing once. */
  lemma RecalculateIdempotent(labor: seq<LaborLine>, parts: seq<PartLine>)
    ensures RecalculatedLabor(RecalculatedLabor(labor)) == RecalculatedLabor(labor)
    ensures RecalculatedParts(RecalculatedParts(parts)) == RecalculatedParts(parts)
  {
    var l := RecalculatedLabor(labor);
    forall i | 0 <= i < |labor|
      ensures LaborAmount(l[i]) == LaborAmount(labor[i])
    {
      assert l[i].hours == labor[i].hours && l[i].rate == labor[i].rate;
    }
    assert RecalculatedLabor(l) == l;
    var p := RecalculatedParts(parts);
    forall i | 0 <= i < |parts|
      ensures PartAmount(p[i]) == PartAmount(parts[i])
    {
      assert p[i] == parts[i].(total := p[i].total);
    }
    assert RecalculatedParts(p) == p;
  }

  lemma {:induction false} LaborSumIgnoresTotals(lines: seq<LaborLine>)
    ensures LaborSum(RecalculatedLabor(lines)) == LaborSum(lines)
    decreases |lines|
  {
    if lines != [] {
      var init := lines[..|lines| - 1];
      assert RecalculatedLabor(lines)[..|lines| - 1] == RecalculatedLabor(init);
      LaborSumIgnoresTotals(init);
    }
  }

  lemma {:induction false} PartsSumIgnoresTotals(lines: seq<PartLine>)
    ensures PartsSum(RecalculatedParts(lines)) == PartsSum(lines)
    decreases |lines|
  {
    if lines != [] {
      var init := lines[..|lines| - 1];
      assert RecalculatedParts(lines)[..|lines| - 1] == RecalculatedParts(init);
      PartsSumIgnoresTotals(init);
    }
  }

  /**
   * The breakdown never reads the stored line totals, so recomputing them first changes nothing;
   * recomputing and then calculating is therefore idempotent.
   */
  lemma EstimateIgnoresStoredTotals(
    labor: seq<LaborLine>, parts: seq<PartLine>, jobType: string,
    taxRate: Option<real>, instanceRate: real, includeCleaningKit: bool)
    ensures EstimateOf(RecalculatedLabor(labor), RecalculatedParts(parts), jobType, taxRate,
                       instanceRate, includeCleaningKit)
         == EstimateOf(labor, parts, jobType, taxRate, instanceRate, includeCleaningKit)
  {
    LaborSumIgnoresTotals(labor);
    PartsSumIgnoresTotals(parts);
  }
}
