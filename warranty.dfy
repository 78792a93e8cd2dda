// Warranty check by the "math method": from the model year, make and mileage, decide whether
// the vehicle is probably still inside its bumper-to-bumper or powertrain warranty window.
module Warranty {
  import opened Wrappers
  import opened Text
  import Flags

  /** A warranty window: strictly younger than `years` and strictly under `miles`. */
  datatype Window = Window(years: int, miles: int)

  datatype WarrantyTerms = WarrantyTerms(bumperToBumper: Window, powertrain: Window)

  datatype AlertLevel = Info | Warning | Caution

  datatype WarrantyType = BumperToBumper | Powertrain | ExtendedPowertrain

  datatype WarrantyAlert = WarrantyAlert(
    level: AlertLevel,
    kind: WarrantyType,
    message: string,
    action: string,
    coverage: string)

  /** The result of `check_warranty_status` (terms as their display strings). */
  datatype WarrantyCheck = WarrantyCheck(
    success: bool,
    vehicleAgeYears: int,
    mileage: int,
    make: string,
    bumperToBumperTerms: string,
    powertrainTerms: string,
    alerts: seq<WarrantyAlert>,
    likelyUnderWarranty: bool,
    flag: Option<Flags.Flag>)

  /** `STANDARD_WARRANTIES`: 3 years / 36,000 miles and 5 years / 60,000 miles. */
  const StandardWarranties := WarrantyTerms(Window(3, 36000), Window(5, 60000))

  const TenYear := WarrantyTerms(Window(5, 60000), Window(10, 100000))
  const FourYear := WarrantyTerms(Window(4, 50000), Window(4, 50000))

  /** `MANUFACTURER_WARRANTIES`, keyed by upper-case make. */
  const ManufacturerWarranties: map<string, WarrantyTerms> := map[
    "HYUNDAI" := TenYear,
    "KIA" := TenYear,
    "GENESIS" := TenYear,
    "MITSUBISHI" := TenYear,
    "BMW" := FourYear,
    "MERCEDES-BENZ" := FourYear,
    "MERCEDES" := FourYear
  ]

  /** `POWERTRAIN_COMPONENTS` */
  const PowertrainComponents: seq<string> := [
    "engine", "motor", "transmission", "transaxle", "transfer case",
    "drive shaft", "differential", "axle", "turbo", "supercharger"
  ]

  /** The makes that get the extra 10-year / 100,000-mile powertrain alert. */
  const ExtendedMakes: seq<string> := ["HYUNDAI", "KIA", "GENESIS"]

  /** `get_warranty_terms`: the entry for the upper-cased, stripped make, else the standard terms. */
  function GetWarrantyTerms(make: string): WarrantyTerms {
    var key := Strip(Upper(make));
    if key in ManufacturerWarranties then ManufacturerWarranties[key] else StandardWarranties
  }

  /** `calculate_vehicle_age`, with the current year as a parameter. */
  function VehicleAge(currentYear: int, modelYear: int): int {
    currentYear - modelYear
  }

  /** `is_powertrain_related`: false for an empty request, else some component word occurs. */
  function IsPowertrainRelated(serviceRequest: string): (r: bool)
    ensures r <==> serviceRequest != [] && AnyIn(PowertrainComponents, Lower(serviceRequest))
  {
    serviceRequest != [] && FirstIn(PowertrainComponents, Lower(serviceRequest)).Some?
  }

  predicate Within(w: Window, age: int, mileage: int) {
    age < w.years && mileage < w.miles
  }

  /** `f"{years} years / {miles:,} miles"` */
  function Coverage(w: Window): string {
    IntToString(w.years) + " years / " + GroupedInt(w.miles) + " miles"
  }

  const BumperMessage := "Vehicle likely under BUMPER-TO-BUMPER warranty"
  const BumperAction := "Verify with customer before proceeding"
  const PowertrainMessage := "Vehicle may have POWERTRAIN warranty coverage"
  const PowertrainCoveredAction := "Powertrain repair - likely covered!"
  const PowertrainCheckAction := "Check if repair is powertrain-related"
  const ExtendedMessageTail := " 10-year/100k powertrain warranty may apply"
  const ExtendedAction := "Verify coverage before proceeding"
  const ExtendedCoverage := "10 years / 100,000 miles"

  function BumperToBumperAlert(w: Window): WarrantyAlert {
    WarrantyAlert(Warning, BumperToBumper, BumperMessage, BumperAction, Coverage(w))
  }

  function PowertrainAlert(w: Window, isPowertrain: bool): WarrantyAlert {
    WarrantyAlert(if isPowertrain then Warning else Info, Powertrain, PowertrainMessage,
      if isPowertrain then PowertrainCoveredAction else PowertrainCheckAction,
      Coverage(w))
  }

  function ExtendedAlert(make: string): WarrantyAlert {
    WarrantyAlert(Warning, ExtendedPowertrain, make + ExtendedMessageTail, ExtendedAction, ExtendedCoverage)
  }

  function WarrantyFlag(year: int, make: string, mileage: int): Flags.Flag {
    Flags.Flag(Flags.Warning,
      Flags.WarningSign + " WARRANTY ALERT",
      "This " + IntToString(year) + " " + make + " with " + GroupedInt(mileage) +
        " miles is likely still under factory warranty",
      "Consider referring customer to dealer for warranty repair",
      "",
      ["Proceed Anyway", "Refer to Dealer"])
  }

  /** The extended alert applies: an extended make (upper-cased, not stripped), under 10 years and 100,000 miles. */
  predicate ExtendedApplies(make: string, age: int, mileage: int) {
    Upper(make) in ExtendedMakes && age < 10 && mileage < 100000
  }

  /** The alerts, in the order the checks append them. */
  function AlertsFor(terms: WarrantyTerms, age: int, make: string, mileage: int, isPowertrain: bool): seq<WarrantyAlert> {
    (if Within(terms.bumperToBumper, age, mileage) then [BumperToBumperAlert(terms.bumperToBumper)] else []) +
    (if Within(terms.powertrain, age, mileage) then [PowertrainAlert(terms.powertrain, isPowertrain)] else []) +
    (if ExtendedApplies(make, age, mileage) then [ExtendedAlert(make)] else [])
  }

  /** What `check_warranty_status` returns once the make's terms are known. */
  function WarrantyWith(terms: WarrantyTerms, currentYear: int, year: int, make: string, mileage: int, serviceRequest: string): WarrantyCheck {
    var age := VehicleAge(currentYear, year);
    var isPowertrain := IsPowertrainRelated(serviceRequest);
    var inBumper := Within(terms.bumperToBumper, age, mileage);
    var inPowertrain := Within(terms.powertrain, age, mileage);
    var likely := inBumper || (inPowertrain && isPowertrain);
    WarrantyCheck(true, age, mileage, make, Coverage(terms.bumperToBumper), Coverage(terms.powertrain),
      AlertsFor(terms, age, make, mileage, isPowertrain),
      likely,
      if likely then Some(WarrantyFlag(year, make, mileage)) else None)
  }

  /** What `check_warranty_status` returns. */
  function WarrantyOf(currentYear: int, year: int, make: string, mileage: int, serviceRequest: string): WarrantyCheck {
    WarrantyWith(GetWarrantyTerms(make), currentYear, year, make, mileage, serviceRequest)
  }

  /**
   * `check_warranty_status` once the make's terms are known, with the current year as a
   * parameter: fill in the age and terms, then append the bumper-to-bumper, powertrain and
   * extended alerts in turn, then the flag.
   */
  method CheckWarrantyStatusWith(terms: WarrantyTerms, currentYear: int, year: int, make: string, mileage: int,
                                 serviceRequest: string) returns (result: WarrantyCheck)
    ensures result == WarrantyWith(terms, currentYear, year, make, mileage, serviceRequest)
  {
    result := WarrantyCheck(true, 0, mileage, make, "", "", [], false, None);
    var vehicleAge := VehicleAge(currentYear, year);
    result := result.(vehicleAgeYears := vehicleAge);
    result := result.(bumperToBumperTerms := Coverage(terms.bumperToBumper), powertrainTerms := Coverage(terms.powertrain));
    ghost var inBumper := Within(terms.bumperToBumper, vehicleAge, mileage);
    ghost var inPowertrain := Within(terms.powertrain, vehicleAge, mileage);
    ghost var extended := ExtendedApplies(make, vehicleAge, mileage);
    var alerts: seq<WarrantyAlert> := [];
    var btb := terms.bumperToBumper;
    if vehicleAge < btb.years && mileage < btb.miles {
      alerts := alerts + [BumperToBumperAlert(btb)];
      result := result.(likelyUnderWarranty := true);
    }
    ghost var afterBumper := alerts;
    assert afterBumper == (if inBumper then [BumperToBumperAlert(terms.bumperToBumper)] else []);
    assert result.likelyUnderWarranty == inBumper;
    var pwr := terms.powertrain;
    var isPowertrain := IsPowertrainRelated(serviceRequest);
    if vehicleAge < pwr.years && mileage < pwr.miles {
      alerts := alerts + [PowertrainAlert(pwr, isPowertrain)];
      if isPowertrain {
        result := result.(likelyUnderWarranty := true);
      }
    }
    ghost var afterPowertrain := alerts;
    assert afterPowertrain == afterBumper + (if inPowertrain then [PowertrainAlert(terms.powertrain, isPowertrain)] else []);
    assert result.likelyUnderWarranty == (inBumper || (inPowertrain && isPowertrain));
    var makeUpper := Upper(make);
    if makeUpper in ExtendedMakes {
      if vehicleAge < 10 && mileage < 100000 {
        alerts := alerts + [ExtendedAlert(make)];
      }
    }
    assert alerts == afterPowertrain + (if extended then [ExtendedAlert(make)] else []);
    assert alerts == AlertsFor(terms, vehicleAge, make, mileage, isPowertrain);
    result := result.(alerts := alerts);
    if result.likelyUnderWarranty {
      result := result.(flag := Some(WarrantyFlag(year, make, mileage)));
    }
  }

  /** `check_warranty_status`: look up the make's terms, then check against them. */
  method CheckWarrantyStatus(currentYear: int, year: int, make: string, mileage: int, serviceRequest: string)
    returns (result: WarrantyCheck)
    ensures result == WarrantyOf(currentYear, year, make, mileage, serviceRequest)
  {
    var terms := GetWarrantyTerms(make);
    result := CheckWarrantyStatusWith(terms, currentYear, year, make, mileage, serviceRequest);
  }

  // ---- properties ----

  /** Alerts come in the order bumper-to-bumper, powertrain, extended. */
  function Rank(kind: WarrantyType): nat {
    match kind
    case BumperToBumper => 0
    case Powertrain => 1
    case ExtendedPowertrain => 2
  }

  predicate HasAlert(alerts: seq<WarrantyAlert>, kind: WarrantyType) {
    exists i :: 0 <= i < |alerts| && alerts[i].kind == kind
  }

  /**
   * Each alert is present exactly when its strict window holds; the powertrain alert is a
   * WARNING exactly for a powertrain request; the vehicle is likely covered exactly when inside
   * the bumper-to-bumper window or inside the powertrain window with a powertrain request (the
   * extended alert never counts); the flag is present exactly when likely covered; alerts come
   * in a fixed order, each kind at most once.
   */
  lemma WarrantyCorrect(terms: WarrantyTerms, currentYear: int, year: int, make: string, mileage: int, serviceRequest: string)
    ensures var r := WarrantyWith(terms, currentYear, year, make, mileage, serviceRequest);
      var age := currentYear - year;
      var isPowertrain := IsPowertrainRelated(serviceRequest);
      && r.vehicleAgeYears == age
      && r.alerts == AlertsFor(terms, age, make, mileage, isPowertrain)
      && (r.likelyUnderWarranty <==>
          (age < terms.bumperToBumper.years && mileage < terms.bumperToBumper.miles) ||
          (age < terms.powertrain.years && mileage < terms.powertrain.miles && isPowertrain))
      && (r.flag.Some? <==> r.likelyUnderWarranty)
      && (r.flag.Some? ==> r.flag.value.kind == Flags.Warning && r.flag.value.options == ["Proceed Anyway", "Refer to Dealer"])
  {
  }

  /**
   * Each alert is present exactly when its strict window holds, and the powertrain alert is a
   * WARNING exactly for a powertrain request.
   */
  lemma AlertsCorrect(terms: WarrantyTerms, age: int, make: string, mileage: int, isPowertrain: bool)
    ensures var alerts := AlertsFor(terms, age, make, mileage, isPowertrain);
      && (HasAlert(alerts, BumperToBumper) <==> age < terms.bumperToBumper.years && mileage < terms.bumperToBumper.miles)
      && (HasAlert(alerts, Powertrain) <==> age < terms.powertrain.years && mileage < terms.powertrain.miles)
      && (HasAlert(alerts, ExtendedPowertrain) <==> Upper(make) in ExtendedMakes && age < 10 && mileage < 100000)
      && (forall i :: 0 <= i < |alerts| && alerts[i].kind == Powertrain ==> (alerts[i].level == Warning <==> isPowertrain))
  {
    var b := if Within(terms.bumperToBumper, age, mileage) then [BumperToBumperAlert(terms.bumperToBumper)] else [];
    var p := if Within(terms.powertrain, age, mileage) then [PowertrainAlert(terms.powertrain, isPowertrain)] else [];
    var e := if ExtendedApplies(make, age, mileage) then [ExtendedAlert(make)] else [];
    AlertParts(b, p, e, isPowertrain);
    assert AlertsFor(terms, age, make, mileage, isPowertrain) == b + p + e;
  }

  /** Alerts come in a fixed order, so each kind appears at most once. */
  lemma AlertsOrdered(terms: WarrantyTerms, age: int, make: string, mileage: int, isPowertrain: bool)
    ensures var alerts := AlertsFor(terms, age, make, mileage, isPowertrain);
      forall i, j :: 0 <= i < j < |alerts| ==> Rank(alerts[i].kind) < Rank(alerts[j].kind)
  {
    var b := if Within(terms.bumperToBumper, age, mileage) then [BumperToBumperAlert(terms.bumperToBumper)] else [];
    var p := if Within(terms.powertrain, age, mileage) then [PowertrainAlert(terms.powertrain, isPowertrain)] else [];
    var e := if ExtendedApplies(make, age, mileage) then [ExtendedAlert(make)] else [];
    assert AlertsFor(terms, age, make, mileage, isPowertrain) == b + p + e;
    assert forall i :: 0 <= i < |b| ==> b[i].kind == BumperToBumper;
    assert forall i :: 0 <= i < |p| ==> p[i].kind == Powertrain;
    assert forall i :: 0 <= i < |e| ==> e[i].kind == ExtendedPowertrain;
  }

  /** Three optional alerts of the three kinds, concatenated: a kind is present exactly when its part is. */
  lemma AlertParts(b: seq<WarrantyAlert>, p: seq<WarrantyAlert>, e: seq<WarrantyAlert>, isPowertrain: bool)
    requires |b| <= 1 && |p| <= 1 && |e| <= 1
    requires forall i :: 0 <= i < |b| ==> b[i].kind == BumperToBumper
    requires forall i :: 0 <= i < |p| ==> p[i].kind == Powertrain && (p[i].level == Warning <==> isPowertrain)
    requires forall i :: 0 <= i < |e| ==> e[i].kind == ExtendedPowertrain
    ensures HasAlert(b + p + e, BumperToBumper) <==> b != []
    ensures HasAlert(b + p + e, Powertrain) <==> p != []
    ensures HasAlert(b + p + e, ExtendedPowertrain) <==> e != []
    ensures forall i :: 0 <= i < |b + p + e| && (b + p + e)[i].kind == Powertrain ==>
      ((b + p + e)[i].level == Warning <==> isPowertrain)
  {
    var alerts := b + p + e;
    if b != [] {
      assert alerts[0] == b[0];
    }
    if p != [] {
      assert alerts[|b|] == p[0];
    }
    if e != [] {
      assert alerts[|b| + |p|] == e[0];
    }
  }

  /** The windows are strict: at exactly the limit age, no bumper-to-bumper alert. */
  lemma WindowIsStrict(terms: WarrantyTerms, currentYear: int, make: string, mileage: int, serviceRequest: string)
    ensures !HasAlert(WarrantyWith(terms, currentYear, currentYear - terms.bumperToBumper.years, make, mileage, serviceRequest).alerts, BumperToBumper)
    ensures !HasAlert(WarrantyWith(terms, currentYear, currentYear - terms.powertrain.years, make, mileage, serviceRequest).alerts, Powertrain)
  {
    var isPowertrain := IsPowertrainRelated(serviceRequest);
    AlertsCorrect(terms, terms.bumperToBumper.years, make, mileage, isPowertrain);
    AlertsCorrect(terms, terms.powertrain.years, make, mileage, isPowertrain);
  }

  /** The make is looked up upper-cased and stripped; an unlisted make gets the standard terms. */
  lemma TermsLookupExamples()
    ensures GetWarrantyTerms(" hyundai ") == TenYear
    ensures GetWarrantyTerms("Mercedes-Benz") == FourYear
    ensures GetWarrantyTerms("Toyota") == StandardWarranties
  {
    assert Upper(" hyundai ") == " HYUNDAI ";
    assert StripLeft(" HYUNDAI ") == "HYUNDAI ";
    assert StripRight("HYUNDAI ") == "HYUNDAI";
    assert Upper("Mercedes-Benz") == "MERCEDES-BENZ";
    StripNoSpaces("MERCEDES-BENZ");
    assert Upper("Toyota") == "TOYOTA";
    StripNoSpaces("TOYOTA");
    assert "TOYOTA" !in ManufacturerWarranties;
  }

  /** Mitsubishi has the ten-year powertrain terms but never the extended alert. */
  lemma MitsubishiNeverExtended(currentYear: int, year: int, mileage: int, serviceRequest: string)
    ensures GetWarrantyTerms("Mitsubishi") == TenYear
    ensures !HasAlert(WarrantyOf(currentYear, year, "Mitsubishi", mileage, serviceRequest).alerts, ExtendedPowertrain)
  {
    assert Upper("Mitsubishi") == "MITSUBISHI";
    StripNoSpaces("MITSUBISHI");
    assert "MITSUBISHI" !in ExtendedMakes;
    AlertsCorrect(TenYear, currentYear - year, "Mitsubishi", mileage, IsPowertrainRelated(serviceRequest));
  }

  /**
   * The terms are looked up on the stripped make but the extended check is not stripped:
   * " Kia" gets the ten-year terms and still no extended alert.
   */
  lemma PaddedMakeMissesExtendedAlert(currentYear: int, mileage: int, serviceRequest: string)
    ensures GetWarrantyTerms(" Kia") == TenYear
    ensures !HasAlert(WarrantyOf(currentYear, currentYear, " Kia", mileage, serviceRequest).alerts, ExtendedPowertrain)
  {
    assert Upper(" Kia") == " KIA";
    assert StripLeft(" KIA") == "KIA";
    assert StripRight("KIA") == "KIA";
    assert " KIA" !in ExtendedMakes;
    AlertsCorrect(TenYear, 0, " Kia", mileage, IsPowertrainRelated(serviceRequest));
  }

  /** A 2019 Hyundai at 70,000 miles in 2024 with an engine complaint: likely covered, two alerts. */
  lemma HyundaiEngineExample()
    ensures var r := WarrantyOf(2024, 2019, "Hyundai", 70000, "Engine knocking");
      && r.likelyUnderWarranty
      && |r.alerts| == 2
      && r.alerts[0].kind == Powertrain && r.alerts[0].level == Warning
      && r.alerts[1].kind == ExtendedPowertrain
  {
    HyundaiTerms();
    EngineKnockingIsPowertrain();
  }

  lemma HyundaiTerms()
    ensures GetWarrantyTerms("Hyundai") == TenYear && Upper("Hyundai") in ExtendedMakes
  {
    assert Upper("Hyundai") == "HYUNDAI";
    StripNoSpaces("HYUNDAI");
  }

  lemma EngineKnockingIsPowertrain()
    ensures IsPowertrainRelated("Engine knocking")
  {
    var lower := Lower("Engine knocking");
    assert lower[..6] == "engine";
    assert OccursAt(lower, PowertrainComponents[0], 0);
  }
}
