/**
 * Vendor comparison: brand tiers, the price / distance / brand sub-scores, the weighted
 * composite score, the stable descending ranking with Primary and Backup tags, and the
 * per-part grouping of fetched offers.
 */
module Vendor {

  import opened Wrappers
  import opened Text

  datatype BrandTier = Oem | Premium | OeEquivalent | Standard | Economy | Unknown {
    /** The tier's enum value, used directly as the brand score. */
    function Score(): real {
      match this
      case Oem => 10.0
      case Premium => 9.0
      case OeEquivalent => 8.0
      case Standard => 6.0
      case Economy => 4.0
      case Unknown => 5.0
    }
  }

  /** One vendor's offer for a part, after mapping the adapter's price result. */
  datatype VendorOffer = VendorOffer(
    vendorId: string,
    vendorName: string,
    brand: string,
    brandTier: BrandTier,
    partNumber: string,
    price: real,
    stockStatus: string,
    stockQuantity: int,
    warehouseLocation: string,
    distanceMiles: real,
    deliveryOption: string,
    warranty: string)

  /** A price result as a vendor adapter returns it, before the brand tier is assigned. */
  datatype VendorPriceResult = VendorPriceResult(
    vendorId: string,
    vendorName: string,
    brand: string,
    partNumber: string,
    price: real,
    stockStatus: string,
    stockQuantity: int,
    warehouseLocation: string,
    distanceMiles: real,
    deliveryOption: string,
    warranty: string)

  /** An offer with its (display-rounded) scores and its selection tag: "Primary", "Backup" or "". */
  datatype ScoredOffer = ScoredOffer(
    offer: VendorOffer,
    brandScore: real,
    priceScore: real,
    distanceScore: real,
    compositeScore: real,
    selection: string)

  /** Shop-configurable integer weights. */
  datatype VendorWeights = VendorWeights(brand: int, price: int, distance: int)

  /** Weights rescaled to percentages. */
  datatype NormalWeights = NormalWeights(brand: real, price: real, distance: real)

  const DefaultWeights := VendorWeights(40, 35, 25)

  /** Distance at and beyond which the distance score is 0. */
  const MaxDistanceMiles: real := 50.0

  /** The error Python raises when the three weights add up to zero. */
  const DivisionByZero := "division by zero"

  // ---------------------------------------------------------------------------
  // Brand tier
  // ---------------------------------------------------------------------------

  const OemIndicators: seq<string> := ["OEM", "GENUINE", "ORIGINAL"]

  const PremiumBrands: seq<string> := [
    "BREMBO", "AKEBONO", "BOSCH", "DENSO", "NGK", "BILSTEIN",
    "LEMFORDER", "SACHS", "CONTINENTAL", "HELLA", "VALEO"]

  /** The OE-equivalent list as the service spells it: one entry is not upper case. */
  const OeEquivalentBrandsAsWritten: seq<string> := [
    "ATE", "MOOG", "CENTRIC", "WAGNER", "BENDIX", "RAYBESTOS",
    "MOTORCRAFT", "ACDelco", "MANN", "MAHLE"]

  /** The OE-equivalent list with every entry upper case, so that each can match. */
  const OeEquivalentBrands: seq<string> := [
    "ATE", "MOOG", "CENTRIC", "WAGNER", "BENDIX", "RAYBESTOS",
    "MOTORCRAFT", "ACDELCO", "MANN", "MAHLE"]

  const EconomyBrands: seq<string> := ["ECONOMY", "VALUE", "BUDGET", "GENERIC"]

  /**
   * The keyword cascade of `get_brand_tier` over a given OE-equivalent list: OEM indicators in
   * the brand or the description, then premium, OE-equivalent and economy names in the brand
   * only, else Standard.
   */
  function TierBy(oeEquivalent: seq<string>, brand: string, description: string): BrandTier {
    var brandUpper := Upper(brand);
    var descUpper := Upper(description);
    if AnyIn(OemIndicators, brandUpper) || AnyIn(OemIndicators, descUpper) then Oem
    else if AnyIn(PremiumBrands, brandUpper) then Premium
    else if AnyIn(oeEquivalent, brandUpper) then OeEquivalent
    else if AnyIn(EconomyBrands, brandUpper) then Economy
    else Standard
  }

  /** `get_brand_tier` as written, with the mixed-case "ACDelco" entry. */
  function GetBrandTierAsWritten(brand: string, description: string): BrandTier {
    TierBy(OeEquivalentBrandsAsWritten, brand, description)
  }

  /** `get_brand_tier` with the OE-equivalent list upper-cased. */
  function GetBrandTier(brand: string, description: string): BrandTier {
    TierBy(OeEquivalentBrands, brand, description)
  }

  /** The "ACDelco" entry can never occur in an upper-cased brand, so as written it never fires. */
  lemma AcDelcoNeverMatchesAsWritten(brand: string)
    ensures !Contains(Upper(brand), OeEquivalentBrandsAsWritten[7])
  {
    UpperMissesLowerCase(brand, OeEquivalentBrandsAsWritten[7], 3);
  }

  /** On the brand "ACDelco" itself: Standard as written, OE-equivalent once the entry is upper case. */
  lemma AcDelcoTier()
    ensures GetBrandTierAsWritten("ACDelco", "") == Standard
    ensures GetBrandTier("ACDelco", "") == OeEquivalent
  {
    assert Upper("ACDelco") == "ACDELCO";
    assert Upper("") == "";
    NoOemIndicator("");
    AcDelcoNotOemOrPremium();
    AcDelcoNotEconomy();
    AcDelcoMissesListAsWritten();
    assert OccursAt("ACDELCO", OeEquivalentBrands[7], 0);
  }

  lemma AcDelcoNotOemOrPremium()
    ensures !AnyIn(OemIndicators, "ACDELCO") && !AnyIn(PremiumBrands, "ACDELCO")
  {
    var b := "ACDELCO";
    MissingChar(b, OemIndicators[0], 2);
    MissingChar(b, OemIndicators[1], 0);
    MissingChar(b, OemIndicators[2], 1);
    MissingChar(b, PremiumBrands[0], 0);
    MissingChar(b, PremiumBrands[1], 1);
    MissingChar(b, PremiumBrands[2], 0);
    MissingChar(b, PremiumBrands[3], 2);
    MissingChar(b, PremiumBrands[4], 0);
    MissingChar(b, PremiumBrands[5], 0);
    MissingChar(b, PremiumBrands[6], 2);
    MissingChar(b, PremiumBrands[7], 0);
    MissingChar(b, PremiumBrands[8], 2);
    MissingChar(b, PremiumBrands[9], 0);
    MissingChar(b, PremiumBrands[10], 0);
  }

  lemma AcDelcoNotEconomy()
    ensures !AnyIn(EconomyBrands, "ACDELCO")
  {
    var b := "ACDELCO";
    MissingChar(b, EconomyBrands[0], 3);
    MissingChar(b, EconomyBrands[1], 0);
    MissingChar(b, EconomyBrands[2], 0);
    MissingChar(b, EconomyBrands[3], 0);
  }

  lemma AcDelcoMissesListAsWritten()
    ensures !AnyIn(OeEquivalentBrandsAsWritten, "ACDELCO")
  {
    var b := "ACDELCO";
    MissingChar(b, OeEquivalentBrandsAsWritten[0], 1);
    MissingChar(b, OeEquivalentBrandsAsWritten[1], 0);
    MissingChar(b, OeEquivalentBrandsAsWritten[2], 2);
    MissingChar(b, OeEquivalentBrandsAsWritten[3], 0);
    MissingChar(b, OeEquivalentBrandsAsWritten[4], 0);
    MissingChar(b, OeEquivalentBrandsAsWritten[5], 0);
    MissingChar(b, OeEquivalentBrandsAsWritten[6], 0);
    MissingChar(b, OeEquivalentBrandsAsWritten[7], 3);
    MissingChar(b, OeEquivalentBrandsAsWritten[8], 0);
    MissingChar(b, OeEquivalentBrandsAsWritten[9], 0);
  }

  /** An empty text holds no OEM indicator. */
  lemma NoOemIndicator(s: string)
    requires s == ""
    ensures !AnyIn(OemIndicators, s)
  {
    MissingChar(s, OemIndicators[0], 0);
    MissingChar(s, OemIndicators[1], 0);
    MissingChar(s, OemIndicators[2], 0);
  }

  /** Upper-casing after lower-casing is upper-casing. */
  lemma UpperOfLower(s: string)
    ensures Upper(Lower(s)) == Upper(s)
  {
  }

  /** Tiering is case-insensitive in both the brand and the description. */
  lemma BrandTierIgnoresCase(brand: string, description: string)
    ensures GetBrandTier(Lower(brand), Lower(description)) == GetBrandTier(brand, description)
  {
    UpperOfLower(brand);
    UpperOfLower(description);
  }

  /**
   * The description only matters for the OEM test: the tier is OEM when an indicator is in the
   * description, and otherwise whatever the brand alone gives. The result is never Unknown.
   */
  lemma DescriptionOnlyDecidesOem(brand: string, description: string)
    ensures GetBrandTier(brand, description) ==
      (if AnyIn(OemIndicators, Upper(description)) then Oem else GetBrandTier(brand, ""))
    ensures GetBrandTier(brand, description) != Unknown
  {
    assert Upper("") == "";
    NoOemIndicator("");
  }

  /** Priority of the keyword lists, on concrete brands: an OEM indicator beats a premium name. */
  lemma BrandTierExamples()
    ensures GetBrandTier("Bosch", "") == Premium
    ensures GetBrandTier("Genuine Bosch", "") == Oem
    ensures GetBrandTier("Wagner", "OEM replacement") == Oem
  {
    assert Upper("") == "";
    NoOemIndicator("");
    var b := Upper("Bosch");
    assert b == "BOSCH";
    MissingChar(b, OemIndicators[0], 1);
    MissingChar(b, OemIndicators[1], 0);
    MissingChar(b, OemIndicators[2], 1);
    assert OccursAt(b, PremiumBrands[2], 0);
    assert OccursAt(Upper("Genuine Bosch"), OemIndicators[1], 0);
    assert OccursAt(Upper("OEM replacement"), OemIndicators[0], 0);
  }

  /**
   * Every as-written OE-equivalent match is also a match of the upper-cased list, so fixing the
   * list can only promote a Standard or Economy brand to OE-equivalent ("ACDELCO VALUE" is
   * Economy as written) and leaves every other tier alone.
   */
  lemma TierFixOnlyPromotes(brand: string, description: string)
    ensures GetBrandTier(brand, description) == GetBrandTierAsWritten(brand, description) ||
      (GetBrandTierAsWritten(brand, description) in {Standard, Economy} && GetBrandTier(brand, description) == OeEquivalent)
  {
    var b := Upper(brand);
    if AnyIn(OeEquivalentBrandsAsWritten, b) {
      var k :| 0 <= k < |OeEquivalentBrandsAsWritten| && Contains(b, OeEquivalentBrandsAsWritten[k]);
      AcDelcoNeverMatchesAsWritten(brand);
      assert k != 7;
      assert OeEquivalentBrands[k] == OeEquivalentBrandsAsWritten[k];
      assert Contains(b, OeEquivalentBrands[k]);
      assert AnyIn(OeEquivalentBrands, b);
    }
  }

  /**
   * `_fetch_vendor_offers` maps each adapter result to an offer with the same fields, tiered by
   * its brand alone; the tier is the as-written one, except that an ACDelco brand the misspelt
   * entry misses is OE-equivalent rather than Standard or Economy.
   */
  function OfferOf(res: VendorPriceResult): (o: VendorOffer)
    ensures o.brandTier != Unknown
    ensures o.brandTier == GetBrandTierAsWritten(res.brand, "") ||
      (GetBrandTierAsWritten(res.brand, "") in {Standard, Economy} && o.brandTier == OeEquivalent)
    ensures o.vendorId == res.vendorId && o.vendorName == res.vendorName && o.brand == res.brand
    ensures o.partNumber == res.partNumber && o.price == res.price
    ensures o.stockStatus == res.stockStatus && o.stockQuantity == res.stockQuantity
    ensures o.warehouseLocation == res.warehouseLocation && o.distanceMiles == res.distanceMiles
    ensures o.deliveryOption == res.deliveryOption && o.warranty == res.warranty
  {
    TierFixOnlyPromotes(res.brand, "");
    VendorOffer(res.vendorId, res.vendorName, res.brand, GetBrandTier(res.brand, ""),
      res.partNumber, res.price, res.stockStatus, res.stockQuantity, res.warehouseLocation,
      res.distanceMiles, res.deliveryOption, res.warranty)
  }

  // ---------------------------------------------------------------------------
  // Weights and sub-scores
  // ---------------------------------------------------------------------------

  lemma SharesSumTo100(a: real, b: real, c: real, t: real)
    requires t != 0.0 && a + b + c == t
    ensures (a / t) * 100.0 + (b / t) * 100.0 + (c / t) * 100.0 == 100.0
  {
    assert a / t + b / t + c / t == (a + b + c) / t;
  }

  lemma ShareBounds(a: real, t: real)
    requires t > 0.0 && 0.0 <= a <= t
    ensures 0.0 <= (a / t) * 100.0 <= 100.0
  {
  }

  lemma UnitFraction(n: real, d: real)
    requires d > 0.0 && 0.0 <= n <= d
    ensures 0.0 <= n / d <= 1.0
  {
  }

  lemma NegativeFraction(n: real, d: real)
    requires d > 0.0 && n < 0.0
    ensures n / d < 0.0
  {
  }

  /** Weights rescaled to sum to 100; None where Python divides by a zero total. */
  /** The sum the shares are taken of. */
  function TotalWeight(w: VendorWeights): int {
    w.brand + w.price + w.distance
  }

  function NormalizeWeights(w: VendorWeights): Option<NormalWeights> {
    var total := TotalWeight(w);
    if total == 0 then None
    else Some(NormalWeights(
      (w.brand as real / total as real) * 100.0,
      (w.price as real / total as real) * 100.0,
      (w.distance as real / total as real) * 100.0))
  }

  /** Normalised weights add up to 100, and are each in [0, 100] when the raw weights are non-negative. */
  lemma NormalizedWeightsSumTo100(w: VendorWeights)
    ensures NormalizeWeights(w).None? <==> TotalWeight(w) == 0
    ensures NormalizeWeights(w).Some? ==>
      var n := NormalizeWeights(w).value;
      n.brand + n.price + n.distance == 100.0
    ensures NormalizeWeights(w).Some? && w.brand >= 0 && w.price >= 0 && w.distance >= 0 ==>
      var n := NormalizeWeights(w).value;
      0.0 <= n.brand <= 100.0 && 0.0 <= n.price <= 100.0 && 0.0 <= n.distance <= 100.0
  {
    var total := w.brand + w.price + w.distance;
    if total != 0 {
      var t := total as real;
      var a, b, c := w.brand as real, w.price as real, w.distance as real;
      SharesSumTo100(a, b, c, t);
      if w.brand >= 0 && w.price >= 0 && w.distance >= 0 {
        ShareBounds(a, t);
        ShareBounds(b, t);
        ShareBounds(c, t);
      }
    }
  }

  /** The default 40/35/25 weights already sum to 100 and normalise to themselves. */
  lemma DefaultWeightsNormalized()
    ensures NormalizeWeights(DefaultWeights) == Some(NormalWeights(40.0, 35.0, 25.0))
  {
  }

  /** The positive prices among the offers, in offer order. */
  function PositivePrices(offers: seq<VendorOffer>): (r: seq<real>)
    ensures forall x :: x in r ==> x > 0.0
    ensures r == [] <==> forall i :: 0 <= i < |offers| ==> offers[i].price <= 0.0
    ensures forall i :: 0 <= i < |offers| && offers[i].price > 0.0 ==> offers[i].price in r
    ensures forall x :: x in r ==> exists i :: 0 <= i < |offers| && offers[i].price == x
    decreases |offers|
  {
    if offers == [] then []
    else
      var init := offers[..|offers| - 1];
      var last := offers[|offers| - 1];
      var r := PositivePrices(init) + (if last.price > 0.0 then [last.price] else []);
      assert forall i :: 0 <= i < |init| ==> init[i] == offers[i];
      r
  }

  function MaxOf(s: seq<real>): (m: real)
    requires |s| > 0
    ensures m in s && forall x :: x in s ==> x <= m
    decreases |s|
  {
    if |s| == 1 then s[0]
    else
      var m := MaxOf(s[..|s| - 1]);
      assert forall x :: x in s ==> x in s[..|s| - 1] || x == s[|s| - 1];
      if s[|s| - 1] > m then s[|s| - 1] else m
  }

  function MinOf(s: seq<real>): (m: real)
    requires |s| > 0
    ensures m in s && forall x :: x in s ==> m <= x
    decreases |s|
  {
    if |s| == 1 then s[0]
    else
      var m := MinOf(s[..|s| - 1]);
      assert forall x :: x in s ==> x in s[..|s| - 1] || x == s[|s| - 1];
      if s[|s| - 1] < m then s[|s| - 1] else m
  }

  /**
   * Inverse min-max price score: 5 when no offer has a positive price, 10 when all positive
   * prices are equal, else 10 - (price - min) / (max - min) x 10.
   */
  function PriceScore(price: real, allOffers: seq<VendorOffer>): real {
    var prices := PositivePrices(allOffers);
    if prices == [] then 5.0
    else
      var maxPrice := MaxOf(prices);
      var minPrice := MinOf(prices);
      if maxPrice != minPrice then PriceScale(price, minPrice, maxPrice)
      else 10.0
  }

  /** The inverse min-max scale: 10 at the minimum price, 0 at the maximum. */
  function PriceScale(price: real, minPrice: real, maxPrice: real): real
    requires minPrice != maxPrice
  {
    10.0 - ((price - minPrice) / (maxPrice - minPrice)) * 10.0
  }

  lemma PriceScaleFacts(price: real, minPrice: real, maxPrice: real)
    requires minPrice < maxPrice
    ensures minPrice <= price <= maxPrice ==> 0.0 <= PriceScale(price, minPrice, maxPrice) <= 10.0
    ensures PriceScale(minPrice, minPrice, maxPrice) == 10.0
    ensures PriceScale(maxPrice, minPrice, maxPrice) == 0.0
    ensures price < minPrice ==> PriceScale(price, minPrice, maxPrice) > 10.0
  {
    if minPrice <= price <= maxPrice {
      UnitFraction(price - minPrice, maxPrice - minPrice);
    }
    if price < minPrice {
      NegativeFraction(price - minPrice, maxPrice - minPrice);
    }
  }

  /** Every two positive prices among the offers are equal. */
  predicate SamePositivePrice(offers: seq<VendorOffer>) {
    forall i, j :: (0 <= i < |offers| && 0 <= j < |offers| &&
                    offers[i].price > 0.0 && offers[j].price > 0.0) ==> offers[i].price == offers[j].price
  }

  /** With no positive price the score is the neutral 5; with all positive prices equal it is 10. */
  lemma PriceScoreDegenerateCases(price: real, allOffers: seq<VendorOffer>)
    ensures (forall i :: 0 <= i < |allOffers| ==> allOffers[i].price <= 0.0) ==>
      PriceScore(price, allOffers) == 5.0
    ensures ((exists i :: 0 <= i < |allOffers| && allOffers[i].price > 0.0) &&
             SamePositivePrice(allOffers)) ==>
      PriceScore(price, allOffers) == 10.0
  {
    var prices := PositivePrices(allOffers);
    if prices != [] {
      var mx, mn := MaxOf(prices), MinOf(prices);
      if SamePositivePrice(allOffers) {
        var i :| 0 <= i < |allOffers| && allOffers[i].price == mx;
        var j :| 0 <= j < |allOffers| && allOffers[j].price == mn;
        assert mx == mn;
      }
    }
  }

  /**
   * An offer with a positive price scores in [0, 10]; the cheapest positive price scores 10 and,
   * when prices differ, the dearest scores 0.
   */
  lemma PriceScoreBounds(offer: VendorOffer, allOffers: seq<VendorOffer>)
    requires offer in allOffers && offer.price > 0.0
    ensures 0.0 <= PriceScore(offer.price, allOffers) <= 10.0
    ensures offer.price == MinOf(PositivePrices(allOffers)) ==> PriceScore(offer.price, allOffers) == 10.0
    ensures (offer.price == MaxOf(PositivePrices(allOffers)) &&
             MaxOf(PositivePrices(allOffers)) != MinOf(PositivePrices(allOffers))) ==>
      PriceScore(offer.price, allOffers) == 0.0
  {
    var k :| 0 <= k < |allOffers| && allOffers[k] == offer;
    var prices := PositivePrices(allOffers);
    assert offer.price in prices;
    var mx, mn := MaxOf(prices), MinOf(prices);
    if mx != mn {
      PriceScaleFacts(offer.price, mn, mx);
    }
  }

  /**
   * A zero-priced offer among differently priced ones scores above 10: it lies below the
   * minimum the scale is built from.
   */
  lemma ZeroPriceScoresAboveTen(allOffers: seq<VendorOffer>)
    requires PositivePrices(allOffers) != []
    requires MaxOf(PositivePrices(allOffers)) != MinOf(PositivePrices(allOffers))
    ensures PriceScore(0.0, allOffers) > 10.0
  {
    var prices := PositivePrices(allOffers);
    var mx, mn := MaxOf(prices), MinOf(prices);
    assert mn > 0.0 && mn < mx;
    PriceScaleFacts(0.0, mn, mx);
  }

  /** Linear decay from 10 at the warehouse to 0 at 50 miles, never below 0. */
  function DistanceScore(distanceMiles: real): real {
    var s := 10.0 - (distanceMiles / MaxDistanceMiles) * 10.0;
    if 0.0 >= s then 0.0 else s
  }

  /** The distance score is 10 at distance 0, 0 from 50 miles on, in [0, 10] and non-increasing. */
  lemma DistanceScoreFacts(d: real, e: real)
    ensures DistanceScore(0.0) == 10.0
    ensures d >= MaxDistanceMiles ==> DistanceScore(d) == 0.0
    ensures d >= 0.0 ==> 0.0 <= DistanceScore(d) <= 10.0
    ensures d <= e ==> DistanceScore(e) <= DistanceScore(d)
  {
  }

  /** The weighted composite of the unrounded sub-scores, on a 0-100 scale. */
  function CompositeScore(offer: VendorOffer, allOffers: seq<VendorOffer>, n: NormalWeights): real {
    Weighted(offer.brandTier.Score(), PriceScore(offer.price, allOffers),
             DistanceScore(offer.distanceMiles), n)
  }

  /** (brand x wB + price x wP + distance x wD) / 10. */
  function Weighted(brandScore: real, priceScore: real, distanceScore: real, n: NormalWeights): real {
    (brandScore * n.brand + priceScore * n.price + distanceScore * n.distance) / 10.0
  }

  /** A score in [0, 10] times a non-negative weight lies in [0, 10 x weight]; `x` names the product. */
  lemma ScaledBound(s: real, w: real) returns (x: real)
    requires 0.0 <= s <= 10.0 && w >= 0.0
    ensures x == s * w
    ensures 0.0 <= x <= 10.0 * w
  {
    assert (10.0 - s) * w >= 0.0;
    assert 0.0 <= s * w <= 10.0 * w;
    x := s * w;
  }

  lemma SumBound(x: real, y: real, z: real, wb: real, wp: real, wd: real)
    requires 0.0 <= x <= 10.0 * wb && 0.0 <= y <= 10.0 * wp && 0.0 <= z <= 10.0 * wd
    requires wb + wp + wd == 100.0
    ensures 0.0 <= (x + y + z) / 10.0 <= 100.0
  {
  }

  /** Sub-scores in [0, 10] under non-negative weights summing to 100 give a composite in [0, 100]. */
  lemma WeightedBounds(b: real, p: real, d: real, n: NormalWeights)
    requires 0.0 <= b <= 10.0 && 0.0 <= p <= 10.0 && 0.0 <= d <= 10.0
    requires n.brand >= 0.0 && n.price >= 0.0 && n.distance >= 0.0
    requires n.brand + n.price + n.distance == 100.0
    ensures 0.0 <= Weighted(b, p, d, n) <= 100.0
  {
    var x := ScaledBound(b, n.brand);
    var y := ScaledBound(p, n.price);
    var z := ScaledBound(d, n.distance);
    SumBound(x, y, z, n.brand, n.price, n.distance);
  }

  /**
   * For an offer with a positive price and a non-negative distance, under non-negative weights,
   * the composite lies in [0, 100].
   */
  lemma CompositeScoreBounds(offer: VendorOffer, allOffers: seq<VendorOffer>, w: VendorWeights)
    requires offer in allOffers && offer.price > 0.0 && offer.distanceMiles >= 0.0
    requires w.brand >= 0 && w.price >= 0 && w.distance >= 0
    requires NormalizeWeights(w).Some?
    ensures 0.0 <= CompositeScore(offer, allOffers, NormalizeWeights(w).value) <= 100.0
  {
    var n := NormalizeWeights(w).value;
    NormalizedWeightsSumTo100(w);
    PriceScoreBounds(offer, allOffers);
    DistanceScoreFacts(offer.distanceMiles, offer.distanceMiles);
    WeightedBounds(offer.brandTier.Score(), PriceScore(offer.price, allOffers),
                   DistanceScore(offer.distanceMiles), n);
  }

  /**
   * `calculate_vendor_score`: the four scores passed through the display rounding `roundTenth`
   * (Python's `round(x, 1)`), with no selection yet.
   */
  function ScoreOffer(offer: VendorOffer, allOffers: seq<VendorOffer>, w: VendorWeights,
                      roundTenth: real -> real): ScoredOffer
    requires TotalWeight(w) != 0
  {
    var n := NormalizeWeights(w).value;
    ScoredOffer(
      offer,
      roundTenth(offer.brandTier.Score()),
      roundTenth(PriceScore(offer.price, allOffers)),
      roundTenth(DistanceScore(offer.distanceMiles)),
      roundTenth(CompositeScore(offer, allOffers, n)),
      "")
  }

  // ---------------------------------------------------------------------------
  // Stable descending sort on the composite score
  // ---------------------------------------------------------------------------

  function Key(o: ScoredOffer): real { o.compositeScore }

  predicate SortedDesc(s: seq<ScoredOffer>) {
    forall i, j :: 0 <= i < j < |s| ==> Key(s[i]) >= Key(s[j])
  }

  /** The offers whose key is `k`, in their order in `s`. */
  function WithKey(s: seq<ScoredOffer>, k: real): seq<ScoredOffer>
    decreases |s|
  {
    if s == [] then []
    else WithKey(s[..|s| - 1], k) + (if Key(s[|s| - 1]) == k then [s[|s| - 1]] else [])
  }

  /** Insert `x` after every element whose key is at least `x`'s. */
  function Insert(x: ScoredOffer, s: seq<ScoredOffer>): seq<ScoredOffer>
    decreases |s|
  {
    if s == [] then [x]
    else if Key(s[|s| - 1]) >= Key(x) then s + [x]
    else Insert(x, s[..|s| - 1]) + [s[|s| - 1]]
  }

  /** `list.sort(key=composite, reverse=True)`: stable, descending. */
  function SortDesc(s: seq<ScoredOffer>): seq<ScoredOffer>
    decreases |s|
  {
    if s == [] then [] else Insert(s[|s| - 1], SortDesc(s[..|s| - 1]))
  }

  lemma {:induction false} InsertPermutation(x: ScoredOffer, s: seq<ScoredOffer>)
    ensures multiset(Insert(x, s)) == multiset(s) + multiset{x}
    decreases |s|
  {
    if s != [] && Key(s[|s| - 1]) < Key(x) {
      var init, last := s[..|s| - 1], s[|s| - 1];
      assert s == init + [last];
      InsertPermutation(x, init);
    }
  }

  lemma {:induction false} SortDescPermutation(s: seq<ScoredOffer>)
    ensures multiset(SortDesc(s)) == multiset(s)
    decreases |s|
  {
    if s != [] {
      var init, last := s[..|s| - 1], s[|s| - 1];
      assert s == init + [last];
      SortDescPermutation(init);
      InsertPermutation(last, SortDesc(init));
    }
  }

  lemma {:induction false} InsertSorted(x: ScoredOffer, s: seq<ScoredOffer>)
    requires SortedDesc(s)
    ensures SortedDesc(Insert(x, s))
    decreases |s|
  {
    if s != [] && Key(s[|s| - 1]) < Key(x) {
      var init, last := s[..|s| - 1], s[|s| - 1];
      InsertSorted(x, init);
      var front := Insert(x, init);
      InsertPermutation(x, init);
      forall y | y in front
        ensures Key(y) >= Key(last)
      {
        assert y in multiset(front);
        if y != x {
          assert y in multiset(init);
          var i :| 0 <= i < |init| && init[i] == y;
          assert s[i] == y;
        }
      }
      assert forall i :: 0 <= i < |front| ==> front[i] in front;
    }
  }

  lemma {:induction false} SortDescSorted(s: seq<ScoredOffer>)
    ensures SortedDesc(SortDesc(s))
    decreases |s|
  {
    if s != [] {
      SortDescSorted(s[..|s| - 1]);
      InsertSorted(s[|s| - 1], SortDesc(s[..|s| - 1]));
    }
  }

  lemma {:induction false} WithKeyAppend(a: seq<ScoredOffer>, b: seq<ScoredOffer>, k: real)
    ensures WithKey(a + b, k) == WithKey(a, k) + WithKey(b, k)
    decreases |b|
  {
    if b == [] {
      assert a + b == a;
    } else {
      assert (a + b)[..|a + b| - 1] == a + b[..|b| - 1];
      WithKeyAppend(a, b[..|b| - 1], k);
    }
  }

  lemma {:induction false} InsertStable(x: ScoredOffer, s: seq<ScoredOffer>, k: real)
    ensures WithKey(Insert(x, s), k) == WithKey(s, k) + (if Key(x) == k then [x] else [])
    decreases |s|
  {
    if s == [] {
      assert [x][..0] == [];
    } else if Key(s[|s| - 1]) >= Key(x) {
      assert (s + [x])[..|s|] == s;
    } else {
      var init, last := s[..|s| - 1], s[|s| - 1];
      InsertStable(x, init, k);
      WithKeyAppend(Insert(x, init), [last], k);
      assert [last][..0] == [];
    }
  }

  /** Equal keys keep their input order: the sort preserves each key's subsequence. */
  lemma {:induction false} SortDescStable(s: seq<ScoredOffer>, k: real)
    ensures WithKey(SortDesc(s), k) == WithKey(s, k)
    decreases |s|
  {
    if s != [] {
      SortDescStable(s[..|s| - 1], k);
      InsertStable(s[|s| - 1], SortDesc(s[..|s| - 1]), k);
    }
  }

  // ---------------------------------------------------------------------------
  // Ranking
  // ---------------------------------------------------------------------------

  /** The scored offers, in input order, each normalised against `allOffers`. */
  function Scored(offers: seq<VendorOffer>, allOffers: seq<VendorOffer>, w: VendorWeights,
                  roundTenth: real -> real): seq<ScoredOffer>
    requires TotalWeight(w) != 0
  {
    seq(|offers|, i requires 0 <= i < |offers| => ScoreOffer(offers[i], allOffers, w, roundTenth))
  }

  /** The tag a ranked position gets. */
  function SelectionAt(i: nat): string {
    if i == 0 then "Primary" else if i == 1 then "Backup" else ""
  }

  function Tagged(s: seq<ScoredOffer>): seq<ScoredOffer> {
    seq(|s|, i requires 0 <= i < |s| => s[i].(selection := SelectionAt(i)))
  }

  function Untagged(s: seq<ScoredOffer>): seq<ScoredOffer> {
    seq(|s|, i requires 0 <= i < |s| => s[i].(selection := ""))
  }

  predicate AllUntagged(s: seq<ScoredOffer>) {
    forall i :: 0 <= i < |s| ==> s[i].selection == ""
  }

  lemma ScoredUntagged(offers: seq<VendorOffer>, allOffers: seq<VendorOffer>, w: VendorWeights,
                       roundTenth: real -> real)
    requires TotalWeight(w) != 0
    ensures |Scored(offers, allOffers, w, roundTenth)| == |offers|
    ensures AllUntagged(Scored(offers, allOffers, w, roundTenth))
  {
  }

  /**
   * Sorting then tagging untagged offers: the same offers once the tags are removed, in
   * non-increasing key order, ties in input order, position 0 "Primary", position 1 "Backup",
   * the rest "".
   */
  lemma RankFacts(s: seq<ScoredOffer>)
    requires AllUntagged(s)
    ensures |Tagged(SortDesc(s))| == |s|
    ensures SortedDesc(Tagged(SortDesc(s)))
    ensures AllUntagged(SortDesc(s))
    ensures Untagged(Tagged(SortDesc(s))) == SortDesc(s)
    ensures multiset(Untagged(Tagged(SortDesc(s)))) == multiset(s)
    ensures forall k :: WithKey(Untagged(Tagged(SortDesc(s))), k) == WithKey(s, k)
    ensures forall i :: 0 <= i < |s| ==> Tagged(SortDesc(s))[i].selection == SelectionAt(i)
  {
    var sorted := SortDesc(s);
    SortDescPermutation(s);
    SortDescSorted(s);
    assert |sorted| == |s| by {
      assert |multiset(sorted)| == |multiset(s)|;
    }
    forall i | 0 <= i < |sorted|
      ensures sorted[i].selection == ""
    {
      assert sorted[i] in multiset(s);
    }
    var r := Tagged(sorted);
    assert Untagged(r) == sorted;
    assert forall i :: 0 <= i < |r| ==> Key(r[i]) == Key(sorted[i]);
    forall k
      ensures WithKey(Untagged(r), k) == WithKey(s, k)
    {
      SortDescStable(s, k);
    }
  }

  /** Tagging untagged offers marks the first "Primary" and the second "Backup", nothing else. */
  lemma TaggedMarksFirstTwo(s: seq<ScoredOffer>)
    requires AllUntagged(s)
    ensures |s| == 0 ==> Tagged(s) == s
    ensures |s| == 1 ==> Tagged(s) == s[0 := s[0].(selection := "Primary")]
    ensures |s| >= 2 ==>
      Tagged(s) == s[0 := s[0].(selection := "Primary")][1 := s[1].(selection := "Backup")]
  {
    var t := Tagged(s);
    if |s| >= 2 {
      var u := s[0 := s[0].(selection := "Primary")][1 := s[1].(selection := "Backup")];
      assert forall i :: 2 <= i < |s| ==> t[i] == s[i] == u[i];
      assert t == u;
    } else if |s| == 1 {
      assert t == s[0 := s[0].(selection := "Primary")];
    }
  }

  /** What `score_and_rank_offers` returns, or the division error of an all-zero weighting. */
  function RankedOffers(offers: seq<VendorOffer>, weights: Option<VendorWeights>,
                        roundTenth: real -> real): Result<seq<ScoredOffer>>
  {
    if offers == [] then Ok([])
    else
      var w := weights.GetOr(DefaultWeights);
      if TotalWeight(w) == 0 then Err(DivisionByZero)
      else Ok(Tagged(SortDesc(Scored(offers, offers, w, roundTenth))))
  }

  /** `score_and_rank_offers`: score each offer, sort in place by composite, then tag. */
  method ScoreAndRankOffers(offers: seq<VendorOffer>, weights: Option<VendorWeights>,
                            roundTenth: real -> real) returns (r: Result<seq<ScoredOffer>>)
    ensures r == RankedOffers(offers, weights, roundTenth)
  {
    if |offers| == 0 {
      return Ok([]);
    }
    var w := if weights.Some? then weights.value else DefaultWeights;
    if w.brand + w.price + w.distance == 0 {
      return Err(DivisionByZero);
    }
    var scored: seq<ScoredOffer> := [];
    for i := 0 to |offers|
      invariant |scored| == i
      invariant forall k :: 0 <= k < i ==> scored[k] == ScoreOffer(offers[k], offers, w, roundTenth)
    {
      scored := scored + [ScoreOffer(offers[i], offers, w, roundTenth)];
    }
    assert scored == Scored(offers, offers, w, roundTenth);
    ScoredUntagged(offers, offers, w, roundTenth);
    RankFacts(scored);
    scored := SortDesc(scored);
    ghost var sorted := scored;
    TaggedMarksFirstTwo(sorted);
    if |scored| >= 1 {
      scored := scored[0 := scored[0].(selection := "Primary")];
    }
    if |scored| >= 2 {
      scored := scored[1 := scored[1].(selection := "Backup")];
    }
    r := Ok(scored);
  }

  /**
   * The ranking promise: the same offers (once tags are removed), in non-increasing composite
   * order, ties in input order, with position 0 "Primary", position 1 "Backup" and the rest "".
   */
  lemma RankedOffersCorrect(offers: seq<VendorOffer>, weights: Option<VendorWeights>,
                            roundTenth: real -> real)
    ensures offers == [] ==> RankedOffers(offers, weights, roundTenth) == Ok([])
    ensures RankedOffers(offers, weights, roundTenth).Err? <==>
      offers != [] && TotalWeight(weights.GetOr(DefaultWeights)) == 0
    ensures RankedOffers(offers, weights, roundTenth).Ok? && offers != [] ==>
      var r := RankedOffers(offers, weights, roundTenth).value;
      var scored := Scored(offers, offers, weights.GetOr(DefaultWeights), roundTenth);
      && |r| == |offers|
      && SortedDesc(r)
      && multiset(Untagged(r)) == multiset(scored)
      && (forall k :: WithKey(Untagged(r), k) == WithKey(scored, k))
      && (forall i :: 0 <= i < |r| ==> r[i].selection == SelectionAt(i))
  {
    var w := weights.GetOr(DefaultWeights);
    if offers != [] && TotalWeight(w) != 0 {
      ScoredUntagged(offers, offers, w, roundTenth);
      RankFacts(Scored(offers, offers, w, roundTenth));
    }
  }

  /** The first scored offer carrying `tag`, as `next(..., None)` finds it. */
  function FirstSelected(s: seq<ScoredOffer>, tag: string): Option<ScoredOffer>
    decreases |s|
  {
    if s == [] then None
    else if s[0].selection == tag then Some(s[0])
    else FirstSelected(s[1..], tag)
  }

  /** In a ranked list the Primary is the top offer and the Backup the second, when they exist. */
  lemma {:induction false} PrimaryAndBackup(r: seq<ScoredOffer>)
    requires forall i :: 0 <= i < |r| ==> r[i].selection == SelectionAt(i)
    ensures FirstSelected(r, "Primary") == (if |r| >= 1 then Some(r[0]) else None)
    ensures FirstSelected(r, "Backup") == (if |r| >= 2 then Some(r[1]) else None)
  {
    if |r| >= 2 {
      assert r[1..][0] == r[1];
    } else if |r| == 1 {
      assert r[1..] == [];
    }
  }

  // ---------------------------------------------------------------------------
  // Comparison across parts
  // ---------------------------------------------------------------------------

  datatype PartComparison = PartComparison(
    partNumber: string,
    description: string,
    offers: seq<ScoredOffer>,
    primary: Option<ScoredOffer>,
    backup: Option<ScoredOffer>)

  datatype Comparison = Comparison(weights: VendorWeights, parts: seq<PartComparison>, totalParts: nat)

  /** The fetched offers for one part number, in fetch order. */
  function OffersFor(all: seq<VendorOffer>, partNumber: string): (r: seq<VendorOffer>)
    ensures |r| <= |all|
    ensures forall o :: o in r <==> o in all && o.partNumber == partNumber
    decreases |all|
  {
    if all == [] then []
    else
      var init := all[..|all| - 1];
      var last := all[|all| - 1];
      assert all == init + [last];
      OffersFor(init, partNumber) + (if last.partNumber == partNumber then [last] else [])
  }

  /** One part's entry of the comparison. */
  function ComparePart(partNumber: string, description: string, all: seq<VendorOffer>,
                       w: VendorWeights, roundTenth: real -> real): Result<PartComparison>
  {
    match RankedOffers(OffersFor(all, partNumber), Some(w), roundTenth)
    case Err(e) => Err(e)
    case Ok(ranked) => Ok(PartComparison(partNumber, description, ranked,
      FirstSelected(ranked, "Primary"), FirstSelected(ranked, "Backup")))
  }

  /** The entry function the comparison applies to each (number, description) pair. */
  function EntryFor(all: seq<VendorOffer>, w: VendorWeights, roundTenth: real -> real): (string, string) -> Result<PartComparison> {
    (partNumber: string, description: string) => ComparePart(partNumber, description, all, w, roundTenth)
  }

  /** The entries of the first `n` (number, description) pairs; the first failure wins. */
  function CompareFirst(entry: (string, string) -> Result<PartComparison>, partNumbers: seq<string>,
                        descriptions: seq<string>, n: nat): Result<seq<PartComparison>>
    requires n <= |partNumbers| && n <= |descriptions|
  {
    if n == 0 then Ok([])
    else match CompareFirst(entry, partNumbers, descriptions, n - 1)
      case Err(e) => Err(e)
      case Ok(ps) =>
        match entry(partNumbers[n - 1], descriptions[n - 1])
        case Err(e) => Err(e)
        case Ok(p) => Ok(ps + [p])
  }

  function DescriptionsOr(partNumbers: seq<string>, descriptions: Option<seq<string>>): seq<string> {
    if descriptions.Some? then descriptions.value else seq(|partNumbers|, _ => "")
  }

  function Min(a: nat, b: nat): nat { if a <= b then a else b }

  /** What `compare_vendors` returns for already-fetched offers. */
  function ComparisonOf(partNumbers: seq<string>, descriptions: Option<seq<string>>,
                        weights: Option<VendorWeights>, all: seq<VendorOffer>,
                        roundTenth: real -> real): Result<Comparison>
  {
    var descs := DescriptionsOr(partNumbers, descriptions);
    var w := weights.GetOr(DefaultWeights);
    match CompareFirst(EntryFor(all, w, roundTenth), partNumbers, descs, Min(|partNumbers|, |descs|))
    case Err(e) => Err(e)
    case Ok(parts) => Ok(Comparison(w, parts, |partNumbers|))
  }

  lemma {:induction false} CompareFirstErrSticks(entry: (string, string) -> Result<PartComparison>,
                                                 partNumbers: seq<string>, descriptions: seq<string>, m: nat, n: nat)
    requires m <= n <= |partNumbers| && n <= |descriptions|
    requires CompareFirst(entry, partNumbers, descriptions, m).Err?
    ensures CompareFirst(entry, partNumbers, descriptions, n) == CompareFirst(entry, partNumbers, descriptions, m)
    decreases n - m
  {
    if m < n {
      CompareFirstErrSticks(entry, partNumbers, descriptions, m, n - 1);
    }
  }

  /** One part of `compare_vendors`: collect that part number's offers in fetch order, then rank them. */
  method ComparePartOffers(partNumber: string, description: string, all: seq<VendorOffer>,
                           w: VendorWeights, roundTenth: real -> real) returns (r: Result<PartComparison>)
    ensures r == ComparePart(partNumber, description, all, w, roundTenth)
  {
    var offers: seq<VendorOffer> := [];
    for j := 0 to |all|
      invariant offers == OffersFor(all[..j], partNumber)
    {
      assert all[..j + 1][..j] == all[..j];
      if all[j].partNumber == partNumber {
        offers := offers + [all[j]];
      }
    }
    assert all[..|all|] == all;
    var ranked := ScoreAndRankOffers(offers, Some(w), roundTenth);
    if ranked.Err? {
      return Err(ranked.error);
    }
    var primary := FirstSelected(ranked.value, "Primary");
    var backup := FirstSelected(ranked.value, "Backup");
    r := Ok(PartComparison(partNumber, description, ranked.value, primary, backup));
  }

  /** `compare_vendors`: walk the zipped part numbers and descriptions, ranking each part's offers. */
  method CompareVendors(partNumbers: seq<string>, descriptions: Option<seq<string>>,
                        weights: Option<VendorWeights>, all: seq<VendorOffer>,
                        roundTenth: real -> real) returns (r: Result<Comparison>)
    ensures r == ComparisonOf(partNumbers, descriptions, weights, all, roundTenth)
  {
    var descs := if descriptions.Some? then descriptions.value else seq(|partNumbers|, _ => "");
    var w := if weights.Some? then weights.value else DefaultWeights;
    var n := if |partNumbers| <= |descs| then |partNumbers| else |descs|;
    assert descs == DescriptionsOr(partNumbers, descriptions) && w == weights.GetOr(DefaultWeights);
    assert n == Min(|partNumbers|, |descs|);
    var entry := EntryFor(all, w, roundTenth);
    var parts: seq<PartComparison> := [];
    for i := 0 to n
      invariant CompareFirst(entry, partNumbers, descs, i) == Ok(parts)
    {
      var part := ComparePartOffers(partNumbers[i], descs[i], all, w, roundTenth);
      assert entry(partNumbers[i], descs[i]) == part;
      if part.Err? {
        assert CompareFirst(entry, partNumbers, descs, i + 1) == Err(part.error);
        CompareFirstErrSticks(entry, partNumbers, descs, i + 1, n);
        return Err(part.error);
      }
      parts := parts + [part.value];
    }
    r := Ok(Comparison(w, parts, |partNumbers|));
  }

  /**
   * One part's entry: its part number and description, exactly that part number's offers,
   * ranked, with primary absent iff it has no offer, backup absent iff it has fewer than two,
   * and the primary the top-ranked offer.
   */
  predicate EntryCorrect(p: PartComparison, partNumber: string, description: string,
                         all: seq<VendorOffer>, w: VendorWeights, roundTenth: real -> real)
  {
    var offers := OffersFor(all, partNumber);
    && p.partNumber == partNumber
    && p.description == description
    && Ok(p.offers) == RankedOffers(offers, Some(w), roundTenth)
    && (p.primary.None? <==> offers == [])
    && (p.backup.None? <==> |offers| < 2)
    && (p.primary.Some? ==> p.primary == Some(p.offers[0]))
  }

  /** A part's entry fails exactly when the weights total zero and the part has an offer. */
  lemma ComparePartCorrect(partNumber: string, description: string, all: seq<VendorOffer>,
                           w: VendorWeights, roundTenth: real -> real)
    ensures ComparePart(partNumber, description, all, w, roundTenth).Err? <==>
      (TotalWeight(w) == 0 && OffersFor(all, partNumber) != [])
    ensures ComparePart(partNumber, description, all, w, roundTenth).Ok? ==>
      EntryCorrect(ComparePart(partNumber, description, all, w, roundTenth).value,
                   partNumber, description, all, w, roundTenth)
  {
    var offers := OffersFor(all, partNumber);
    RankedOffersCorrect(offers, Some(w), roundTenth);
    var ranked := RankedOffers(offers, Some(w), roundTenth);
    if ranked.Ok? {
      PrimaryAndBackup(ranked.value);
    }
  }

  /**
   * The comparison fails exactly when the weights total zero and some compared part has an
   * offer. Otherwise there is one correct entry per zipped pair, and the summary counts every
   * part number.
   */
  lemma ComparisonCorrect(partNumbers: seq<string>, descriptions: Option<seq<string>>,
                          weights: Option<VendorWeights>, all: seq<VendorOffer>,
                          roundTenth: real -> real)
    ensures var descs := DescriptionsOr(partNumbers, descriptions);
      var c := ComparisonOf(partNumbers, descriptions, weights, all, roundTenth);
      var n := Min(|partNumbers|, |descs|);
      && (c.Err? <==> (TotalWeight(weights.GetOr(DefaultWeights)) == 0 &&
                       exists i :: 0 <= i < n && OffersFor(all, partNumbers[i]) != []))
      && (c.Ok? ==>
            && c.value.totalParts == |partNumbers|
            && |c.value.parts| == n
            && forall i :: 0 <= i < n ==>
                 EntryCorrect(c.value.parts[i], partNumbers[i], descs[i], all,
                              weights.GetOr(DefaultWeights), roundTenth))
  {
    var descs := DescriptionsOr(partNumbers, descriptions);
    var w := weights.GetOr(DefaultWeights);
    var n := Min(|partNumbers|, |descs|);
    var entry := EntryFor(all, w, roundTenth);
    CompareFirstFails(entry, partNumbers, descs, n);
    CompareFirstEntries(entry, partNumbers, descs, n);
    forall i | 0 <= i < n
      ensures entry(partNumbers[i], descs[i]) == ComparePart(partNumbers[i], descs[i], all, w, roundTenth)
      ensures entry(partNumbers[i], descs[i]).Err? <==> (TotalWeight(w) == 0 && OffersFor(all, partNumbers[i]) != [])
    {
      ComparePartCorrect(partNumbers[i], descs[i], all, w, roundTenth);
    }
    var c := CompareFirst(entry, partNumbers, descs, n);
    if c.Ok? {
      forall i | 0 <= i < n
        ensures EntryCorrect(c.value[i], partNumbers[i], descs[i], all, w, roundTenth)
      {
        ComparePartCorrect(partNumbers[i], descs[i], all, w, roundTenth);
      }
    }
  }

  /** The walk fails exactly when some pair's entry fails. */
  lemma {:induction false} CompareFirstFails(entry: (string, string) -> Result<PartComparison>,
                                             partNumbers: seq<string>, descs: seq<string>, n: nat)
    requires n <= |partNumbers| && n <= |descs|
    ensures CompareFirst(entry, partNumbers, descs, n).Err? <==>
      exists i :: 0 <= i < n && entry(partNumbers[i], descs[i]).Err?
    decreases n
  {
    if n > 0 {
      CompareFirstFails(entry, partNumbers, descs, n - 1);
      var prev := CompareFirst(entry, partNumbers, descs, n - 1);
      if prev.Err? {
        var i :| 0 <= i < n - 1 && entry(partNumbers[i], descs[i]).Err?;
        assert 0 <= i < n && entry(partNumbers[i], descs[i]).Err?;
      }
    }
  }

  /** When the walk succeeds it holds each pair's entry, in order. */
  lemma {:induction false} CompareFirstEntries(entry: (string, string) -> Result<PartComparison>,
                                               partNumbers: seq<string>, descs: seq<string>, n: nat)
    requires n <= |partNumbers| && n <= |descs|
    ensures var c := CompareFirst(entry, partNumbers, descs, n);
      c.Ok? ==>
        && |c.value| == n
        && forall i :: 0 <= i < n ==> entry(partNumbers[i], descs[i]) == Ok(c.value[i])
    decreases n
  {
    if n > 0 {
      CompareFirstEntries(entry, partNumbers, descs, n - 1);
      var prev := CompareFirst(entry, partNumbers, descs, n - 1);
      var part := entry(partNumbers[n - 1], descs[n - 1]);
      var c := CompareFirst(entry, partNumbers, descs, n);
      if c.Ok? {
        assert c.value == prev.value + [part.value];
      }
    }
  }
}
