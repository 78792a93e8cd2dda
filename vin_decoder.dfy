// VIN decoding: the length guard applied before any request, and the parse of the decoder
// service's list of Variable / Value pairs into a vehicle description.
module VinDecoder {
  import opened Wrappers
  import opened Text

  /** One entry of the response's `Results`: a variable name and its value, possibly missing. */
  datatype ResultItem = ResultItem(variable: string, value: Option<string>)

  /** `VehicleDecodeResult` */
  datatype VehicleDecodeResult = VehicleDecodeResult(
    vin: string,
    year: Option<nat>,
    make: Option<string>,
    model: Option<string>,
    trim: Option<string>,
    engine: Option<string>,
    manufacturer: Option<string>,
    vehicleType: Option<string>,
    bodyClass: Option<string>)

  const VinLengthError := "VIN must be exactly 17 characters"

  /** An entry is kept when its value is present, non-empty and not "Not Applicable". */
  predicate Kept(item: ResultItem) {
    item.value.Some? && item.value.value != "" && item.value.value != "Not Applicable"
  }

  /** The dict comprehension `{item["Variable"]: item["Value"] for item in results if ...}`. */
  function VehicleData(results: seq<ResultItem>): map<string, string>
    decreases |results|
  {
    if results == [] then map[]
    else
      var last := results[|results| - 1];
      var m := VehicleData(results[..|results| - 1]);
      if Kept(last) then m[last.variable := last.value.value] else m
  }

  /** `vehicle_data.get(key)` */
  function Get(m: map<string, string>, key: string): Option<string> {
    if key in m then Some(m[key]) else None
  }

  /** `int(year_str) if year_str and year_str.isdigit() else None` */
  function ParseYear(yearStr: Option<string>): Option<nat> {
    if yearStr.Some? && IsDigits(yearStr.value) then Some(DigitsValue(yearStr.value)) else None
  }

  /** `a or b` on two optional strings whose values are never empty. */
  function OrElse(a: Option<string>, b: Option<string>): Option<string> {
    if a.Some? && a.value != "" then a else b
  }

  /** `_parse_nhtsa_response`: the input VIN and the named variables of the kept entries. */
  function ParseNhtsaResponse(vin: string, results: seq<ResultItem>): VehicleDecodeResult {
    var m := VehicleData(results);
    VehicleDecodeResult(
      vin,
      ParseYear(Get(m, "Model Year")),
      Get(m, "Make"),
      Get(m, "Model"),
      Get(m, "Trim"),
      OrElse(Get(m, "Engine Model"), Get(m, "Engine Configuration")),
      Get(m, "Manufacturer Name"),
      Get(m, "Vehicle Type"),
      Get(m, "Body Class"))
  }

  /** `decode_vin` with the fetched results as input: the length guard, then the parse. */
  function DecodeVin(vin: string, results: seq<ResultItem>): (r: Result<VehicleDecodeResult>)
    ensures r.Err? <==> |vin| != 17
    ensures r.Err? ==> r.error == VinLengthError
    ensures r.Ok? ==> r.value.vin == vin
  {
    if vin == "" || |vin| != 17 then Err(VinLengthError) else Ok(ParseNhtsaResponse(vin, results))
  }

  /** The latest kept entry for `key` is at position `i`. */
  predicate LastKeptAt(results: seq<ResultItem>, key: string, i: int) {
    0 <= i < |results| && Kept(results[i]) && results[i].variable == key &&
    forall j :: i < j < |results| ==> !(Kept(results[j]) && results[j].variable == key)
  }

  /**
   * A variable is in the map exactly when some kept entry names it, and its value is the one of
   * the latest such entry; no stored value is empty or "Not Applicable".
   */
  lemma VehicleDataCorrect(results: seq<ResultItem>)
    ensures forall key :: key in VehicleData(results) <==>
      exists i :: 0 <= i < |results| && Kept(results[i]) && results[i].variable == key
    ensures forall key :: key in VehicleData(results) ==>
      exists i :: LastKeptAt(results, key, i) && VehicleData(results)[key] == results[i].value.value
    ensures forall key :: key in VehicleData(results) ==>
      VehicleData(results)[key] != "" && VehicleData(results)[key] != "Not Applicable"
  {
    VehicleDataKeys(results);
    VehicleDataLatest(results);
  }

  /** The map's keys are exactly the variables of the kept entries. */
  lemma {:induction false} VehicleDataKeys(results: seq<ResultItem>)
    ensures forall key :: key in VehicleData(results) <==>
      exists i :: 0 <= i < |results| && Kept(results[i]) && results[i].variable == key
    decreases |results|
  {
    if results != [] {
      var n := |results| - 1;
      var init := results[..n];
      VehicleDataKeys(init);
      var m := VehicleData(results);
      forall key | exists i :: 0 <= i < |results| && Kept(results[i]) && results[i].variable == key
        ensures key in m
      {
        var i :| 0 <= i < |results| && Kept(results[i]) && results[i].variable == key;
        if i < n {
          assert init[i] == results[i];
          assert key in VehicleData(init);
        } else {
          assert Kept(results[n]) && results[n].variable == key;
        }
      }
      forall key | key in m
        ensures exists i :: 0 <= i < |results| && Kept(results[i]) && results[i].variable == key
      {
        if !(Kept(results[n]) && results[n].variable == key) {
          assert key in VehicleData(init);
          var i :| 0 <= i < n && Kept(init[i]) && init[i].variable == key;
          assert results[i] == init[i];
        }
      }
    }
  }

  /** Each stored value is the one of the latest kept entry for its variable. */
  lemma {:induction false} VehicleDataLatest(results: seq<ResultItem>)
    ensures forall key :: key in VehicleData(results) ==>
      exists i :: LastKeptAt(results, key, i) && VehicleData(results)[key] == results[i].value.value
    decreases |results|
  {
    if results != [] {
      var n := |results| - 1;
      var init := results[..n];
      VehicleDataLatest(init);
      var m := VehicleData(results);
      forall key | key in m
        ensures exists i :: LastKeptAt(results, key, i) && m[key] == results[i].value.value
      {
        if Kept(results[n]) && results[n].variable == key {
          assert LastKeptAt(results, key, n);
        } else {
          assert key in VehicleData(init) && m[key] == VehicleData(init)[key];
          var i :| LastKeptAt(init, key, i) && VehicleData(init)[key] == init[i].value.value;
          assert results[i] == init[i];
          assert LastKeptAt(results, key, i);
        }
      }
    }
  }

  /** A "Model Year" written as `str(n)` is read back as `n`; one with a non-digit gives no year. */
  lemma YearRoundTrip(vin: string, before: seq<ResultItem>, n: nat, s: string)
    ensures ParseNhtsaResponse(vin, before + [ResultItem("Model Year", Some(NatToString(n)))]).year == Some(n)
    ensures s != "" && s != "Not Applicable" && !IsDigits(s) ==>
      ParseNhtsaResponse(vin, before + [ResultItem("Model Year", Some(s))]).year == None
  {
    var other := before + [ResultItem("Model Year", Some(s))];
    assert other[..|other| - 1] == before;
    var results := before + [ResultItem("Model Year", Some(NatToString(n)))];
    assert results[..|results| - 1] == before;
    var s := NatToString(n);
    assert s != "Not Applicable" by {
      assert IsDigit(s[0]) && !IsDigit("Not Applicable"[0]);
    }
    NatToStringRoundTrip(n);
  }

  /** The engine is the "Engine Model" when present, else the "Engine Configuration". */
  lemma EngineFallback(vin: string, results: seq<ResultItem>)
    ensures var m := VehicleData(results);
      var r := ParseNhtsaResponse(vin, results);
      && ("Engine Model" in m ==> r.engine == Some(m["Engine Model"]))
      && ("Engine Model" !in m ==> r.engine == Get(m, "Engine Configuration"))
      && r.vin == vin
  {
    VehicleDataCorrect(results);
  }

  /** "Not Applicable" entries are dropped: a make reported only that way is absent. */
  lemma NotApplicableDropped(vin: string)
    ensures ParseNhtsaResponse(vin, [ResultItem("Make", Some("HONDA")), ResultItem("Make", Some("Not Applicable"))]).make == Some("HONDA")
    ensures ParseNhtsaResponse(vin, [ResultItem("Make", Some("Not Applicable"))]).make == None
  {
    var r := [ResultItem("Make", Some("HONDA")), ResultItem("Make", Some("Not Applicable"))];
    assert r[..1] == [ResultItem("Make", Some("HONDA"))];
    assert [ResultItem("Make", Some("HONDA"))][..0] == [];
    assert [ResultItem("Make", Some("Not Applicable"))][..0] == [];
  }
}
