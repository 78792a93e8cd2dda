// Auto add-on detection: a rule table whose keywords, found as substrings of the lowercased
// request and procedure text, add gaskets, fluids and consumables to an estimate.
module AddOns {
  import opened Text

  /** One entry of a rule's `add_items`. */
  datatype AddOnTemplate = AddOnTemplate(partName: string, partNumber: string, category: string, price: real, reason: string)

  /** One rule of `ADD_ON_RULES`: its name, its trigger keywords and the items it adds. */
  datatype Rule = Rule(name: string, keywords: seq<string>, items: seq<AddOnTemplate>)

  /** `AddOnItem`: a detected add-on as returned to the caller. */
  datatype AddOnItem = AddOnItem(
    partName: string,
    partNumber: string,
    category: string,
    price: real,
    quantity: nat,
    reason: string,
    reasonBadge: string)

  /** The result of `detect_addons` (the constant `success` and `note` entries are omitted). */
  datatype AddOnReport = AddOnReport(matchedRules: seq<string>, addonCount: nat, addons: seq<AddOnItem>, totalPrice: real)

  const PlenumRemoval := Rule("plenum_removal",
    ["plenum removal", "intake manifold removal", "remove plenum", "remove intake manifold"],
    [
      AddOnTemplate("Intake Plenum Gasket", "PLN-GSK-001", "gaskets", 24.99, "Plenum must be resealed after removal"),
      AddOnTemplate("Intake Manifold Gasket Set", "INT-GSK-SET", "gaskets", 34.99, "Required for manifold reassembly")
    ])

  const ValveCover := Rule("valve_cover",
    ["valve cover", "remove valve cover", "valve cover gasket"],
    [
      AddOnTemplate("Valve Cover Gasket", "VC-GSK-001", "gaskets", 28.99, "Always replace when removing valve cover"),
      AddOnTemplate("Spark Plug Tube Seals", "SP-SEAL-SET", "seals", 18.99, "Prevents oil leaks into spark plug wells")
    ])

  const BrakeService := Rule("brake_service",
    ["brake pad", "brake service", "brake rotor", "brake caliper", "replace pads"],
    [
      AddOnTemplate("Brake Cleaner", "BC-CLN-001", "consumables", 8.99, "Required for proper brake pad installation"),
      AddOnTemplate("Anti-Seize Compound", "AS-CMP-001", "consumables", 12.99, "Prevents caliper slide pin seizure"),
      AddOnTemplate("Brake Hardware Kit", "BRK-HW-KIT", "hardware", 15.99, "Includes clips and springs for proper operation")
    ])

  const CoolantSystem := Rule("coolant_system",
    ["coolant flush", "radiator flush", "thermostat", "water pump", "coolant leak"],
    [
      AddOnTemplate("Coolant/Antifreeze (1 gal)", "CLT-AF-001", "fluids", 24.99, "System refill after service"),
      AddOnTemplate("Radiator Cap", "RAD-CAP-001", "parts", 12.99, "Inspect/replace when servicing cooling system"),
      AddOnTemplate("Thermostat Gasket", "THM-GSK-001", "gaskets", 8.99, "Required when replacing thermostat")
    ])

  const OilChange := Rule("oil_change",
    ["oil change", "engine oil", "oil filter"],
    [
      AddOnTemplate("Drain Plug Gasket", "DRN-GSK-001", "gaskets", 2.99, "Replace every oil change to prevent leaks")
    ])

  const TimingBelt := Rule("timing_belt",
    ["timing belt", "timing chain", "timing tensioner"],
    [
      AddOnTemplate("Timing Belt Tensioner", "TM-TNS-001", "parts", 89.99, "Always replace with timing belt"),
      AddOnTemplate("Timing Belt Idler Pulley", "TM-IDL-001", "parts", 34.99, "Wear item - replace with belt"),
      AddOnTemplate("Water Pump", "WP-001", "parts", 79.99, "Recommended replacement - already accessible")
    ])

  const TransmissionService := Rule("transmission_service",
    ["transmission fluid", "trans flush", "transmission service", "atf"],
    [
      AddOnTemplate("Transmission Filter Kit", "TRS-FLT-KIT", "filters", 45.99, "Replace filter when servicing transmission"),
      AddOnTemplate("Transmission Pan Gasket", "TRS-PAN-GSK", "gaskets", 18.99, "Replace when removing pan")
    ])

  const ExhaustWork := Rule("exhaust_work",
    ["exhaust", "catalytic converter", "muffler", "exhaust manifold"],
    [
      AddOnTemplate("Exhaust Gasket", "EXH-GSK-001", "gaskets", 14.99, "Required for exhaust connections"),
      AddOnTemplate("Exhaust Bolts/Studs Kit", "EXH-HW-KIT", "hardware", 22.99, "Often corroded and break during removal")
    ])

  const Suspension := Rule("suspension",
    ["strut", "shock", "control arm", "ball joint", "tie rod"],
    [
      AddOnTemplate("Alignment Service", "SVC-ALIGN", "labor", 89.99, "Required after suspension work")
    ])

  const AcService := Rule("ac_service",
    ["ac", "a/c", "air conditioning", "compressor", "condenser", "evaporator"],
    [
      AddOnTemplate("R-134a Refrigerant", "AC-R134A", "fluids", 45.99, "System recharge after repair"),
      AddOnTemplate("AC O-Ring Kit", "AC-ORING-KIT", "seals", 18.99, "Replace seals to prevent leaks"),
      AddOnTemplate("PAG Oil", "AC-PAG-OIL", "fluids", 22.99, "Required for compressor lubrication")
    ])

  /** `ADD_ON_RULES`, in its insertion order. */
  const AddOnRules: seq<Rule> := [
    PlenumRemoval, ValveCover, BrakeService, CoolantSystem, OilChange, TimingBelt, TransmissionService, ExhaustWork, Suspension, AcService
  ]



  /** The lowercased request, then a space and the lowercased procedures joined by spaces, if any. */
  function SearchText(request: string, procedures: seq<string>): (r: string)
    ensures |Lower(request)| <= |r| && r[..|request|] == Lower(request)
  {
    if procedures == [] then Lower(request) else Lower(request) + " " + Lower(Join(" ", procedures))
  }

  /** `f"{rule_name.replace('_', ' ').title()} → {part_name}"` */
  function Badge(ruleName: string, partName: string): string {
    Title(ReplaceChar(ruleName, '_', ' ')) + " \U{2192} " + partName
  }

  /** A rule's item as added: quantity 1 and the rule's badge. */
  function MakeItem(rule: Rule, t: AddOnTemplate): AddOnItem {
    AddOnItem(t.partName, t.partNumber, t.category, t.price, 1, t.reason, Badge(rule.name, t.partName))
  }

  function RuleItems(rule: Rule): seq<AddOnItem> {
    seq(|rule.items|, j requires 0 <= j < |rule.items| => MakeItem(rule, rule.items[j]))
  }

  /** A rule fires when one of its lowercased keywords occurs in the search text. */
  predicate Fires(rule: Rule, text: string) {
    exists k :: 0 <= k < |rule.keywords| && Contains(text, Lower(rule.keywords[k]))
  }

  /** The names of the rules that fire, in table order. */
  function FiredNames(rules: seq<Rule>, text: string): seq<string>
    decreases |rules|
  {
    if rules == [] then []
    else
      var last := rules[|rules| - 1];
      FiredNames(rules[..|rules| - 1], text) + (if Fires(last, text) then [last.name] else [])
  }

  /** Every item of every firing rule, in table and item order, before de-duplication. */
  function Candidates(rules: seq<Rule>, text: string): seq<AddOnItem>
    decreases |rules|
  {
    if rules == [] then []
    else
      var last := rules[|rules| - 1];
      Candidates(rules[..|rules| - 1], text) + (if Fires(last, text) then RuleItems(last) else [])
  }

  /** `any(a.part_number == pn for a in items)` */
  predicate HasPartNumber(items: seq<AddOnItem>, pn: string) {
    exists a :: a in items && a.partNumber == pn
  }

  /** `a` occurs in `items`, and no earlier item has its part number. */
  predicate FirstWithItsPartNumber(items: seq<AddOnItem>, a: AddOnItem) {
    exists i :: 0 <= i < |items| && items[i] == a && NoEarlierPartNumber(items, i, a.partNumber)
  }

  predicate NoEarlierPartNumber(items: seq<AddOnItem>, i: int, pn: string)
    requires 0 <= i <= |items|
  {
    forall j :: 0 <= j < i ==> items[j].partNumber != pn
  }

  /** Append `item` unless an item with its part number is already present. */
  function AddUnique(acc: seq<AddOnItem>, item: AddOnItem): seq<AddOnItem> {
    if HasPartNumber(acc, item.partNumber) then acc else acc + [item]
  }

  /** The items kept when each is added in turn through `AddUnique`. */
  function Dedup(items: seq<AddOnItem>): seq<AddOnItem>
    decreases |items|
  {
    if items == [] then [] else AddUnique(Dedup(items[..|items| - 1]), items[|items| - 1])
  }

  /** `sum(item.price * item.quantity for item in items)` */
  function PriceTotal(items: seq<AddOnItem>): real
    decreases |items|
  {
    if items == [] then 0.0
    else PriceTotal(items[..|items| - 1]) + items[|items| - 1].price * (items[|items| - 1].quantity as real)
  }

  /** What `detect_addons` returns for a given rule table. */
  function AddOnsOf(rules: seq<Rule>, request: string, procedures: seq<string>): AddOnReport {
    var text := SearchText(request, procedures);
    var addons := Dedup(Candidates(rules, text));
    AddOnReport(FiredNames(rules, text), |addons|, addons, PriceTotal(addons))
  }

  lemma RulesStep(rules: seq<Rule>, i: nat, text: string)
    requires i < |rules|
    ensures Candidates(rules[..i + 1], text) ==
      Candidates(rules[..i], text) + (if Fires(rules[i], text) then RuleItems(rules[i]) else [])
    ensures FiredNames(rules[..i + 1], text) ==
      FiredNames(rules[..i], text) + (if Fires(rules[i], text) then [rules[i].name] else [])
  {
    assert rules[..i + 1][..i] == rules[..i];
  }

  lemma DedupStep(items: seq<AddOnItem>, item: AddOnItem)
    ensures Dedup(items + [item]) == AddUnique(Dedup(items), item)
  {
    assert (items + [item])[..|items|] == items;
  }

  /** The inner loop of `detect_addons`: add each item of a firing rule whose part number is not yet present. */
  method AddItems(detected: seq<AddOnItem>, ghost before: seq<AddOnItem>, items: seq<AddOnItem>) returns (detected': seq<AddOnItem>)
    requires detected == Dedup(before)
    ensures detected' == Dedup(before + items)
  {
    detected' := detected;
    assert before + items[..0] == before;
    for j := 0 to |items|
      invariant detected' == Dedup(before + items[..j])
    {
      var addon := items[j];
      assert before + items[..j + 1] == (before + items[..j]) + [addon];
      DedupStep(before + items[..j], addon);
      if !HasPartNumber(detected', addon.partNumber) {
        detected' := detected' + [addon];
      }
    }
    assert items[..|items|] == items;
  }

  /**
   * The loops of `detect_addons` over a given rule table: each rule in turn, its first matching
   * keyword records the rule and adds each of its items whose part number is not yet present.
   */
  method DetectAddonsIn(rules: seq<Rule>, request: string, procedures: seq<string>) returns (report: AddOnReport)
    ensures report == AddOnsOf(rules, request, procedures)
  {
    var detected: seq<AddOnItem> := [];
    var matched: seq<string> := [];
    var searchText := Lower(request);
    if procedures != [] {
      searchText := searchText + " " + Lower(Join(" ", procedures));
    }
    assert searchText == SearchText(request, procedures);
    for i := 0 to |rules|
      invariant detected == Dedup(Candidates(rules[..i], searchText))
      invariant matched == FiredNames(rules[..i], searchText)
    {
      var rule := rules[i];
      RulesStep(rules, i, searchText);
      ghost var before := Candidates(rules[..i], searchText);
      var k := 0;
      while k < |rule.keywords|
        invariant 0 <= k <= |rule.keywords|
        invariant forall j :: 0 <= j < k ==> !Contains(searchText, Lower(rule.keywords[j]))
        invariant detected == Dedup(before) && matched == FiredNames(rules[..i], searchText)
      {
        if Contains(searchText, Lower(rule.keywords[k])) {
          matched := matched + [rule.name];
          detected := AddItems(detected, before, RuleItems(rule));
          break;
        }
        k := k + 1;
      }
      if k == |rule.keywords| {
        assert before + [] == before;
      }
    }
    assert rules[..|rules|] == rules;
    report := AddOnReport(matched, |detected|, detected, PriceTotal(detected));
  }

  /** `detect_addons` over `ADD_ON_RULES`. */
  method DetectAddons(request: string, procedures: seq<string>) returns (report: AddOnReport)
    ensures report == AddOnsOf(AddOnRules, request, procedures)
  {
    report := DetectAddonsIn(AddOnRules, request, procedures);
  }

  // ---- properties of the de-duplication ----

  /** No two kept items share a part number. */
  lemma {:induction false} DedupDistinct(items: seq<AddOnItem>)
    ensures forall i, j :: 0 <= i < j < |Dedup(items)| ==> Dedup(items)[i].partNumber != Dedup(items)[j].partNumber
    decreases |items|
  {
    if items != [] {
      var prefix := Dedup(items[..|items| - 1]);
      DedupDistinct(items[..|items| - 1]);
      var x := items[|items| - 1];
      if !HasPartNumber(prefix, x.partNumber) {
        forall i | 0 <= i < |prefix|
          ensures prefix[i].partNumber != x.partNumber
        {
          assert prefix[i] in prefix;
        }
      }
    }
  }

  /**
   * A part number is kept exactly when some candidate carries it, and every kept item is the
   * first candidate with its part number.
   */
  lemma {:induction false} DedupFirstWins(items: seq<AddOnItem>)
    ensures forall pn :: HasPartNumber(Dedup(items), pn) <==> HasPartNumber(items, pn)
    ensures forall a :: a in Dedup(items) ==> FirstWithItsPartNumber(items, a)
    decreases |items|
  {
    if items != [] {
      var init := items[..|items| - 1];
      var x := items[|items| - 1];
      DedupFirstWins(init);
      assert items == init + [x];
      forall pn
        ensures HasPartNumber(Dedup(items), pn) <==> HasPartNumber(items, pn)
      {
        if HasPartNumber(items, pn) {
          var a :| a in items && a.partNumber == pn;
          if a in init {
            assert HasPartNumber(init, pn);
          } else {
            assert a == x;
          }
        }
        if HasPartNumber(Dedup(items), pn) {
          var a :| a in Dedup(items) && a.partNumber == pn;
          if a in Dedup(init) {
            assert HasPartNumber(init, pn);
            var b :| b in init && b.partNumber == pn;
            assert b in items;
          } else {
            assert a == x;
          }
        }
      }
      forall a | a in Dedup(items)
        ensures FirstWithItsPartNumber(items, a)
      {
        if a in Dedup(init) {
          var i :| 0 <= i < |init| && init[i] == a && NoEarlierPartNumber(init, i, a.partNumber);
          assert items[i] == a && NoEarlierPartNumber(items, i, a.partNumber);
        } else {
          assert a == x && !HasPartNumber(Dedup(init), x.partNumber);
          forall j | 0 <= j < |init|
            ensures items[j].partNumber != a.partNumber
          {
            assert init[j] in init;
          }
          assert items[|items| - 1] == a && NoEarlierPartNumber(items, |items| - 1, a.partNumber);
        }
      }
    }
  }

  /** `detect_addons` never returns two add-ons with one part number; the first candidate wins. */
  lemma AddOnsDistinct(rules: seq<Rule>, request: string, procedures: seq<string>)
    ensures var text := SearchText(request, procedures);
      var r := AddOnsOf(rules, request, procedures);
      && (forall i, j :: 0 <= i < j < |r.addons| ==> r.addons[i].partNumber != r.addons[j].partNumber)
      && (forall pn :: HasPartNumber(r.addons, pn) <==> HasPartNumber(Candidates(rules, text), pn))
      && (forall a :: a in r.addons ==> FirstWithItsPartNumber(Candidates(rules, text), a))
  {
    var text := SearchText(request, procedures);
    DedupDistinct(Candidates(rules, text));
    DedupFirstWins(Candidates(rules, text));
  }

  // ---- which rules fire ----

  /** A name is recorded exactly when a rule of that name fires. */
  lemma {:induction false} FiredNamesIff(rules: seq<Rule>, text: string)
    ensures forall name :: name in FiredNames(rules, text) <==>
      exists r :: 0 <= r < |rules| && rules[r].name == name && Fires(rules[r], text)
    decreases |rules|
  {
    if rules != [] {
      var init := rules[..|rules| - 1];
      FiredNamesIff(init, text);
      forall name | exists r :: 0 <= r < |rules| && rules[r].name == name && Fires(rules[r], text)
        ensures name in FiredNames(rules, text)
      {
        var r :| 0 <= r < |rules| && rules[r].name == name && Fires(rules[r], text);
        if r < |init| {
          assert init[r] == rules[r];
        }
      }
      forall name | name in FiredNames(init, text)
        ensures exists r :: 0 <= r < |rules| && rules[r].name == name && Fires(rules[r], text)
      {
        var r :| 0 <= r < |init| && init[r].name == name && Fires(init[r], text);
        assert rules[r] == init[r];
      }
    }
  }

  /** With distinct rule names, each name is recorded at most once. */
  lemma {:induction false} FiredNamesDistinct(rules: seq<Rule>, text: string)
    requires forall i, j :: 0 <= i < j < |rules| ==> rules[i].name != rules[j].name
    ensures forall i, j :: 0 <= i < j < |FiredNames(rules, text)| ==> FiredNames(rules, text)[i] != FiredNames(rules, text)[j]
    decreases |rules|
  {
    if rules != [] {
      var init := rules[..|rules| - 1];
      var last := rules[|rules| - 1];
      FiredNamesDistinct(init, text);
      FiredNamesIff(init, text);
      if Fires(last, text) {
        var prefix := FiredNames(init, text);
        forall i | 0 <= i < |prefix|
          ensures prefix[i] != last.name
        {
          assert prefix[i] in prefix;
          var r :| 0 <= r < |init| && init[r].name == prefix[i] && Fires(init[r], text);
          assert rules[r] == init[r];
        }
      }
    }
  }

  /**
   * `detect_addons` records a rule exactly when one of its keywords occurs in the search text,
   * and records no rule twice.
   */
  lemma MatchedRulesCorrect(request: string, procedures: seq<string>)
    ensures var text := SearchText(request, procedures);
      var r := AddOnsOf(AddOnRules, request, procedures);
      && (forall name :: name in r.matchedRules <==>
          exists k :: 0 <= k < |AddOnRules| && AddOnRules[k].name == name && Fires(AddOnRules[k], text))
      && (forall i, j :: 0 <= i < j < |r.matchedRules| ==> r.matchedRules[i] != r.matchedRules[j])
  {
    var text := SearchText(request, procedures);
    FiredNamesIff(AddOnRules, text);
    FiredNamesDistinct(AddOnRules, text);
  }

  // ---- quantities and totals ----

  /** Every candidate comes from a table item, with quantity 1. */
  lemma {:induction false} CandidatesFromTable(rules: seq<Rule>, text: string)
    ensures forall a :: a in Candidates(rules, text) ==>
      a.quantity == 1 && exists r, t :: 0 <= r < |rules| && t in rules[r].items && a == MakeItem(rules[r], t)
    decreases |rules|
  {
    if rules != [] {
      var init := rules[..|rules| - 1];
      var last := rules[|rules| - 1];
      CandidatesFromTable(init, text);
      forall a | a in Candidates(rules, text)
        ensures a.quantity == 1 && exists r, t :: 0 <= r < |rules| && t in rules[r].items && a == MakeItem(rules[r], t)
      {
        if a in Candidates(init, text) {
          var r, t :| 0 <= r < |init| && t in init[r].items && a == MakeItem(init[r], t);
          assert rules[r] == init[r];
        } else {
          var j :| 0 <= j < |RuleItems(last)| && RuleItems(last)[j] == a;
          assert last.items[j] in last.items;
        }
      }
    }
  }

  lemma {:induction false} DedupSubset(items: seq<AddOnItem>)
    ensures forall a :: a in Dedup(items) ==> a in items
    decreases |items|
  {
    if items != [] {
      DedupSubset(items[..|items| - 1]);
      assert forall a :: a in items[..|items| - 1] ==> a in items;
    }
  }

  /** With all prices positive, the total is positive exactly when something was added. */
  lemma {:induction false} PriceTotalPositive(items: seq<AddOnItem>)
    requires forall a :: a in items ==> a.price > 0.0 && a.quantity == 1
    ensures PriceTotal(items) >= 0.0
    ensures PriceTotal(items) > 0.0 <==> items != []
    decreases |items|
  {
    if items != [] {
      PriceTotalPositive(items[..|items| - 1]);
      assert items[|items| - 1] in items;
    }
  }

  predicate PricesPositive(rules: seq<Rule>) {
    forall r :: 0 <= r < |rules| ==> RulePricesPositive(rules[r])
  }

  predicate RulePricesPositive(rule: Rule) {
    forall j :: 0 <= j < |rule.items| ==> rule.items[j].price > 0.0
  }

  /**
   * Every returned add-on has quantity 1 and comes from a firing rule of the table; the count is
   * the list length; with positive table prices the total is positive exactly when the list is not empty.
   */
  lemma AddOnsTotals(rules: seq<Rule>, request: string, procedures: seq<string>)
    requires PricesPositive(rules)
    ensures var r := AddOnsOf(rules, request, procedures);
      && r.addonCount == |r.addons|
      && (forall a :: a in r.addons ==> a.quantity == 1 && a.price > 0.0)
      && r.totalPrice >= 0.0
      && (r.totalPrice > 0.0 <==> r.addons != [])
  {
    var text := SearchText(request, procedures);
    var addons := Dedup(Candidates(rules, text));
    CandidatesFromTable(rules, text);
    DedupSubset(Candidates(rules, text));
    forall a | a in addons
      ensures a.quantity == 1 && a.price > 0.0
    {
      var r, t :| 0 <= r < |rules| && t in rules[r].items && a == MakeItem(rules[r], t);
      assert RulePricesPositive(rules[r]);
      var j :| 0 <= j < |rules[r].items| && rules[r].items[j] == t;
    }
    PriceTotalPositive(addons);
  }

  /** Every price in `ADD_ON_RULES` is positive. */
  lemma AddOnRulesPricesPositive()
    ensures PricesPositive(AddOnRules)
  {
    FirstRulesPricesPositive();
    LastRulesPricesPositive();
  }

  lemma FirstRulesPricesPositive()
    ensures RulePricesPositive(PlenumRemoval) && RulePricesPositive(ValveCover)
    ensures RulePricesPositive(BrakeService) && RulePricesPositive(CoolantSystem)
    ensures RulePricesPositive(OilChange)
  {
    assert RulePricesPositive(PlenumRemoval);
    assert RulePricesPositive(ValveCover);
    assert RulePricesPositive(BrakeService);
    assert RulePricesPositive(CoolantSystem);
  }

  lemma LastRulesPricesPositive()
    ensures RulePricesPositive(TimingBelt) && RulePricesPositive(TransmissionService)
    ensures RulePricesPositive(ExhaustWork) && RulePricesPositive(Suspension)
    ensures RulePricesPositive(AcService)
  {
    assert RulePricesPositive(TimingBelt);
    assert RulePricesPositive(TransmissionService);
    assert RulePricesPositive(ExhaustWork);
    assert RulePricesPositive(AcService);
  }

  /** Every item of the rule has a name of 1 to 500 characters and a part number of at most 100. */
  predicate RuleNamesFit(rule: Rule) {
    forall j :: 0 <= j < |rule.items| ==> 1 <= |rule.items[j].partName| <= 500 && |rule.items[j].partNumber| <= 100
  }

  predicate NamesFit(rules: seq<Rule>) {
    forall r :: 0 <= r < |rules| ==> RuleNamesFit(rules[r])
  }

  /** Every returned add-on keeps its table item's name and part number, so they fit when the table's do. */
  lemma AddOnsNamesFit(rules: seq<Rule>, request: string, procedures: seq<string>)
    requires NamesFit(rules)
    ensures forall a :: a in AddOnsOf(rules, request, procedures).addons ==>
      1 <= |a.partName| <= 500 && |a.partNumber| <= 100
  {
    var text := SearchText(request, procedures);
    CandidatesFromTable(rules, text);
    DedupSubset(Candidates(rules, text));
    forall a | a in Dedup(Candidates(rules, text))
      ensures 1 <= |a.partName| <= 500 && |a.partNumber| <= 100
    {
      var r, t :| 0 <= r < |rules| && t in rules[r].items && a == MakeItem(rules[r], t);
      assert RuleNamesFit(rules[r]);
      var j :| 0 <= j < |rules[r].items| && rules[r].items[j] == t;
    }
  }

  /** Every name in `ADD_ON_RULES` is between 1 and 500 characters, every part number at most 100. */
  lemma AddOnRulesNamesFit()
    ensures NamesFit(AddOnRules)
  {
    FirstRulesNamesFit();
    LastRulesNamesFit();
  }

  lemma FirstRulesNamesFit()
    ensures RuleNamesFit(PlenumRemoval) && RuleNamesFit(ValveCover)
    ensures RuleNamesFit(BrakeService) && RuleNamesFit(CoolantSystem)
    ensures RuleNamesFit(OilChange)
  {
    assert RuleNamesFit(PlenumRemoval);
    assert RuleNamesFit(ValveCover);
    assert RuleNamesFit(BrakeService);
    assert RuleNamesFit(CoolantSystem);
  }

  lemma LastRulesNamesFit()
    ensures RuleNamesFit(TimingBelt) && RuleNamesFit(TransmissionService)
    ensures RuleNamesFit(ExhaustWork) && RuleNamesFit(Suspension)
    ensures RuleNamesFit(AcService)
  {
    assert RuleNamesFit(TimingBelt);
    assert RuleNamesFit(TransmissionService);
    assert RuleNamesFit(ExhaustWork);
    assert RuleNamesFit(AcService);
  }

  /** Text that matches no keyword adds nothing and records no rule. */
  lemma {:induction false} NothingFiresNothingAdded(rules: seq<Rule>, text: string)
    requires forall r :: 0 <= r < |rules| ==> !Fires(rules[r], text)
    ensures Candidates(rules, text) == [] && FiredNames(rules, text) == []
    decreases |rules|
  {
    if rules != [] {
      var init := rules[..|rules| - 1];
      assert forall r :: 0 <= r < |init| ==> init[r] == rules[r];
      NothingFiresNothingAdded(init, text);
    }
  }

  lemma NoKeywordNoAddOns(rules: seq<Rule>, request: string, procedures: seq<string>)
    requires forall r :: 0 <= r < |rules| ==> !Fires(rules[r], SearchText(request, procedures))
    ensures var r := AddOnsOf(rules, request, procedures);
      r.matchedRules == [] && r.addons == [] && r.addonCount == 0 && r.totalPrice == 0.0
  {
    NothingFiresNothingAdded(rules, SearchText(request, procedures));
  }

  // ---- the search text ----

  /** Keywords of the request and of the procedures are both found in the search text. */
  lemma SearchTextCovers(request: string, procedures: seq<string>, keyword: string)
    ensures Contains(Lower(request), keyword) ==> Contains(SearchText(request, procedures), keyword)
    ensures procedures != [] && Contains(Lower(Join(" ", procedures)), keyword) ==>
      Contains(SearchText(request, procedures), keyword)
    ensures procedures == [] ==> SearchText(request, procedures) == Lower(request)
  {
    if procedures != [] {
      ContainsConcat(Lower(request), " " + Lower(Join(" ", procedures)), keyword);
      ContainsConcat(" ", Lower(Join(" ", procedures)), keyword);
      assert Lower(request) + " " + Lower(Join(" ", procedures)) ==
        Lower(request) + (" " + Lower(Join(" ", procedures)));
    }
  }

  // ---- literal matching ----

  /**
   * "replace pads" fires `brake_service` through its own keyword and also `ac_service`, whose
   * keyword "ac" occurs inside "replace"; the refrigerant is among the add-ons.
   */
  lemma ReplacePadsAddsAcService()
    ensures var r := AddOnsOf(AddOnRules, "replace pads", []);
      && "brake_service" in r.matchedRules
      && "ac_service" in r.matchedRules
      && HasPartNumber(r.addons, "AC-R134A")
  {
    var text := SearchText("replace pads", []);
    assert text == "replace pads";
    var brake := BrakeService;
    var ac := AcService;
    assert AddOnRules[2] == brake && AddOnRules[9] == ac;
    assert Lower(brake.keywords[4]) == "replace pads";
    assert OccursAt(text, Lower(brake.keywords[4]), 0);
    assert Fires(brake, text);
    assert Lower(ac.keywords[0]) == "ac";
    assert OccursAt(text, Lower(ac.keywords[0]), 4);
    assert Fires(ac, text);
    FiredNamesIff(AddOnRules, text);
    CandidatesFireIn(AddOnRules, text, 9);
    assert RuleItems(ac)[0].partNumber == "AC-R134A";
    assert RuleItems(ac)[0] in Candidates(AddOnRules, text);
    DedupFirstWins(Candidates(AddOnRules, text));
  }

  /** The items of a firing rule are among the candidates. */
  lemma {:induction false} CandidatesFireIn(rules: seq<Rule>, text: string, r: nat)
    requires r < |rules| && Fires(rules[r], text)
    ensures forall a :: a in RuleItems(rules[r]) ==> a in Candidates(rules, text)
    decreases |rules|
  {
    var init := rules[..|rules| - 1];
    if r < |init| {
      assert init[r] == rules[r];
      CandidatesFireIn(init, text, r);
    }
  }

  /** The badge spells the rule name with spaces in title case, then an arrow and the part name. */
  lemma BadgeExample()
    ensures Badge("ac_service", "PAG Oil") == "Ac Service \U{2192} PAG Oil"
  {
    var spaced := ReplaceChar("ac_service", '_', ' ');
    assert spaced == "ac service";
    var title := Title(spaced);
    assert |title| == 10;
    assert title[0] == 'A' && title[1] == 'c' && title[2] == ' ' && title[3] == 'S' && title[4] == 'e';
    assert title[5] == 'r' && title[6] == 'v' && title[7] == 'i' && title[8] == 'c' && title[9] == 'e';
    assert title == "Ac Service";
  }
}
