# Estimaro estimate pipeline, modelled in Dafny

Estimaro is a back-end that builds auto-repair estimates. From a VIN and a customer's
complaint it does the following:

- decodes the vehicle;
- checks open recalls and the factory warranty;
- looks up labor time and parts;
- compares vendor offers for those parts;
- classifies each part as new or remanufactured, as the California Bureau of Automotive
  Repair requires;
- adds routine add-on items and prices the estimate in fixed-point dollars;
- scores its own confidence;
- sends the customer a time-limited approval link.

This project models that core as Dafny modules, one per source file, and proves what each
step promises.

- `Calculation` (calculation_service.py) holds the money arithmetic, in `real` with explicit
  half-up rounding to cents:
  - labor and parts totals, rounded once after summation;
  - tax at the effective rate;
  - the cleaning kit;
  - the breakdown, and the per-line recomputation.
- `Vendor` (vendor_service.py) holds the vendor comparison:
  - the brand-tier keyword cascade;
  - the weight normalisation, and the price, distance and composite scores;
  - a stable descending sort with the Primary and Backup tags;
  - the per-part grouping of fetched offers.
- `PartCondition` (part_condition_service.py) holds the priority classifier, REMAN words
  before explicit NEW phrases before a bare "NEW", and the list summary with its YELLOW flag.
- `AddOns` (addon_service.py) fires the rule table on substrings. It de-duplicates the items
  by part number and sums their prices.
- `Recalls` (recall_service.py) matches the complaint and each recall through the
  component-category synonym map. It counts recalls, shortens their texts and builds the
  RED flag.
- `Warranty` (warranty_service.py) covers the per-make terms, the vehicle age, the strict
  coverage windows, powertrain detection, and the alerts and flag.
- `VinDecoder` (vin_decoder_service.py) covers the VIN length guard and the parse of the NHTSA
  response.
- `LaborMock`, `PartsMock` and `AlldataFallback` hold the keyword tables of the mock adapters
  and of the scraper's fallback estimate.
- `AutoGenerate` (auto_generate_service.py) is the nine-step orchestrator:
  - each step's outcome;
  - the checks `LaborItemSchema` and `PartItemSchema` make of each labor, part and add-on line
    (estimate.py), which make steps 4, 5 and 8 fail when a line is out of bounds;
  - flags in step order;
  - the vendor-price back-fill into zero-cost part lines;
  - the add-on lines;
  - the job type;
  - the confidence score;
  - the overall success.

  Collaborators are `Result` inputs, and an `Err` carries the message of the exception they
  raise. The services the orchestrator calls form the record `Services`, and
  `StandardServices` binds it to this project's own functions.
- `Approval` (approval_service.py) is the token store, a class `ApprovalService` with a map
  field that its methods update. Its behaviour is given by functions on that map:
  - link creation;
  - lookup with expiry;
  - the action guards (unknown, expired, already processed, invalid action);
  - the statistics;
  - the notification.

  Lemmas over any sequence of requests show that a settled estimate stays settled and that
  a pending one is acted on at most once.
- `Text`, `Wrappers`, `Flags` and `Adapters` are shared helpers. They cover ASCII case
  mapping, substring search, `strip`, `Result` and `Option`, the flag record, and the adapter
  result records.

Inputs that Python reads from the world become parameters:

- the current year and the clock `now`, in integer seconds;
- the generated secret token;
- the HTTP answers;
- Python's display rounding `round(x, 1)`, passed as a function `roundTenth`.

## Model

| member | source | states |
|---|---|---|
| Calculation.RoundHalfUpCents | Backend/app/services/calculation_service.py:100 | The result is whole cents within half a cent of the input, ties going away from zero (ROUND_HALF_UP) on both signs |
| Calculation.RoundMagnitude | Backend/app/services/calculation_service.py:100 | For a non-negative amount, the cent within the half-open half-cent window |
| Calculation.RoundHalfUpCentsUnique | Backend/app/services/calculation_service.py:100 | For a non-negative amount, the rounded value is the only cent of that window |
| Calculation.RoundHalfUpCentsOfCents | Backend/app/services/calculation_service.py:100 | Rounding an amount already in cents changes nothing |
| Calculation.RoundHalfUpCentsNonNegative | Backend/app/services/calculation_service.py:100 | Rounding never makes a non-negative amount negative |
| Calculation.LaborSumAppend | Backend/app/services/calculation_service.py:95-98 | The unrounded labor sum over concatenated lists is the sum of the two sums |
| Calculation.PartsSumAppend | Backend/app/services/calculation_service.py:114-127 | The same for the marked-up parts sum |
| Calculation.LaborSumNonNegative | Backend/app/services/calculation_service.py:95-98 | With non-negative hours and rates the labor sum is non-negative |
| Calculation.PartsSumNonNegative | Backend/app/services/calculation_service.py:114-127 | With non-negative cost, quantity and markup the parts sum is non-negative |
| Calculation.CalculateLaborTotal | Backend/app/services/calculation_service.py:83-100 | The loop returns the sum of hours x rate, rounded to cents once after summation |
| Calculation.CalculatePartsTotal | Backend/app/services/calculation_service.py:102-129 | The loop returns the sum of cost x quantity x (1 + markup/100), rounded to cents once |
| Calculation.LaborRoundedAfterSummation | Backend/app/services/calculation_service.py:95-100 | Two lines of 0.004 give 0.01, where rounding each line would give 0.00 |
| Calculation.CleaningKitLookup | Backend/app/services/calculation_service.py:25-81 | A listed job type gets its own kit, any other string gets the general kit at 12.00, and every kit price is positive whole cents |
| Calculation.CalculateEstimate | Backend/app/services/calculation_service.py:131-201 | Returns the breakdown of `EstimateOf`, whose properties the lemmas below state |
| Calculation.EstimateAddsUp | Backend/app/services/calculation_service.py:161-192 | Subtotal = labor + parts, tax = subtotal x effective rate rounded, total = subtotal + tax + kit price, and a kit is present exactly when it was requested |
| Calculation.EstimateInCents | Backend/app/services/calculation_service.py:170-192 | Every amount of the breakdown is whole cents |
| Calculation.ZeroTaxRateFallsBack | Backend/app/services/calculation_service.py:161 | A zero tax rate gives the same breakdown as a missing one, taxed at the instance rate |
| Calculation.EstimateNonNegative | Backend/app/services/calculation_service.py:95-201 | With non-negative inputs and rate, no amount of the breakdown is negative |
| Calculation.WorkedExample | Backend/app/services/calculation_service.py:131-201 | 1.5 h at 120 plus one part at 85 with 30% markup, at 8%, gives 180.00 / 110.50 / 290.50 / 23.24 / 313.74, or 328.74 with the brake kit |
| Calculation.RecalculateItemTotals | Backend/app/services/calculation_service.py:203-251 | The loops return each line with its total recomputed |
| Calculation.RecalculatedLinesKeepFields | Backend/app/services/calculation_service.py:221-251 | Length, order and every field except `total` are kept, and `total` is the rounded line amount |
| Calculation.RecalculateIdempotent | Backend/app/services/calculation_service.py:221-251 | Recomputing twice gives the same as recomputing once |
| Calculation.LaborSumIgnoresTotals | Backend/app/services/calculation_service.py:95-98 | Stored line totals do not affect the labor sum |
| Calculation.PartsSumIgnoresTotals | Backend/app/services/calculation_service.py:114-127 | Stored line totals do not affect the parts sum |
| Calculation.EstimateIgnoresStoredTotals | Backend/app/services/calculation_service.py:131-251 | The breakdown is the same before and after recomputing the line totals |
| Vendor.AcDelcoNeverMatchesAsWritten | Backend/app/services/vendor_service.py:81-103 | The mixed-case "ACDelco" entry never occurs in an upper-cased brand |
| Vendor.AcDelcoTier | Backend/app/services/vendor_service.py:70-111 | "ACDelco" is Standard as written and OE-equivalent once the entry is upper case |
| Vendor.TierFixOnlyPromotes | Backend/app/services/vendor_service.py:81-111 | Upper-casing the ACDelco entry changes a tier only from Standard or Economy to OE-equivalent, and leaves every other tier as written |
| Vendor.BrandTierIgnoresCase | Backend/app/services/vendor_service.py:81-82 | Lower-casing the brand or the description does not change the tier |
| Vendor.DescriptionOnlyDecidesOem | Backend/app/services/vendor_service.py:84-111 | The tier is OEM when an indicator is in the description, otherwise the brand alone decides it, and it is never Unknown |
| Vendor.BrandTierExamples | Backend/app/services/vendor_service.py:84-96 | An OEM indicator beats a premium name: Bosch is Premium, "Genuine Bosch" is OEM, and Wagner with an "OEM replacement" description is OEM |
| Vendor.OfferOf | Backend/app/services/vendor_service.py:244-257 | A fetched offer copies every field of the vendor result and is tiered by its brand alone: the as-written tier, or OE-equivalent in place of a Standard or Economy tier (the corrected ACDelco entry), never Unknown |
| Vendor.NormalizedWeightsSumTo100 | Backend/app/services/vendor_service.py:138-141 | Normalisation fails exactly on a zero total, the shares sum to 100, and with non-negative weights each share is in [0, 100] |
| Vendor.DefaultWeightsNormalized | Backend/app/services/vendor_service.py:57-61 | The default 40/35/25 weights normalise to themselves |
| Vendor.PositivePrices | Backend/app/services/vendor_service.py:147-148 | Exactly the positive prices of the offers, and empty exactly when no price is positive |
| Vendor.MaxOf | Backend/app/services/vendor_service.py:150-151 | The maximum of the positive prices, an element of them |
| Vendor.MinOf | Backend/app/services/vendor_service.py:150-151 | The minimum of the positive prices, an element of them |
| Vendor.PriceScaleFacts | Backend/app/services/vendor_service.py:152-156 | The inverse min-max scale is 10 at the minimum, 0 at the maximum, in [0, 10] between them, and above 10 below the minimum |
| Vendor.PriceScoreDegenerateCases | Backend/app/services/vendor_service.py:147-154 | With no positive price the score is 5, and with all positive prices equal it is 10 |
| Vendor.PriceScoreBounds | Backend/app/services/vendor_service.py:147-156 | A positively priced offer scores in [0, 10]: the cheapest scores 10 and, when prices differ, the dearest scores 0 |
| Vendor.ZeroPriceScoresAboveTen | Backend/app/services/vendor_service.py:147-156 | A zero-priced offer among differing prices scores above 10 |
| Vendor.DistanceScoreFacts | Backend/app/services/vendor_service.py:159-160 | The distance score is 10 at 0 miles and 0 from 50 miles on, lies in [0, 10], and does not increase with distance |
| Vendor.CompositeScoreBounds | Backend/app/services/vendor_service.py:144-167 | With a positive price, a non-negative distance and non-negative weights, the composite lies in [0, 100] |
| Vendor.SortDescPermutation | Backend/app/services/vendor_service.py:205 | The sort is a permutation |
| Vendor.SortDescSorted | Backend/app/services/vendor_service.py:205 | The sort gives non-increasing composite scores |
| Vendor.SortDescStable | Backend/app/services/vendor_service.py:205 | The sort is stable: offers with equal scores keep their input order |
| Vendor.RankFacts | Backend/app/services/vendor_service.py:205-213 | Sorting then tagging keeps the offers, sorted and stable, with position 0 Primary, position 1 Backup and the rest untagged |
| Vendor.TaggedMarksFirstTwo | Backend/app/services/vendor_service.py:207-211 | Tagging marks only the first two offers |
| Vendor.ScoreAndRankOffers | Backend/app/services/vendor_service.py:178-213 | The method returns `RankedOffers`: each offer scored, sorted in place, then tagged |
| Vendor.RankedOffersCorrect | Backend/app/services/vendor_service.py:193-213 | [] gives []. The ranking fails exactly on zero-total weights with some offer. Otherwise it returns the same offers, ranked, stable and tagged |
| Vendor.PrimaryAndBackup | Backend/app/services/vendor_service.py:328-329 | The first "Primary" is the top offer and the first "Backup" the second, when they exist |
| Vendor.OffersFor | Backend/app/services/vendor_service.py:292 | Exactly the fetched offers for that part number |
| Vendor.ComparePartOffers | Backend/app/services/vendor_service.py:290-344 | One part's entry: its offers collected in fetch order, then ranked |
| Vendor.CompareVendors | Backend/app/services/vendor_service.py:260-354 | The walk over the zipped numbers and descriptions returns `ComparisonOf` |
| Vendor.ComparePartCorrect | Backend/app/services/vendor_service.py:290-344 | A part's entry fails exactly on zero-total weights with an offer. Otherwise it holds that part's offers, ranked, with primary and backup present exactly when there are one and two offers |
| Vendor.ComparisonCorrect | Backend/app/services/vendor_service.py:260-354 | The comparison fails exactly when some compared part's entry fails. Otherwise it has one correct entry per zipped pair, and the summary counts every part number |
| Vendor.CompareFirstFails | Backend/app/services/vendor_service.py:290 | The walk fails exactly when some pair's entry fails |
| Vendor.CompareFirstEntries | Backend/app/services/vendor_service.py:290-346 | A successful walk holds each pair's entry, in order |
| Vendor.CompareFirstErrSticks | Backend/app/services/vendor_service.py:290-296 | Once a pair fails, later pairs do not change the outcome |
| PartCondition.DetectPartCondition | Backend/app/services/part_condition_service.py:55-126 | An empty description is UNKNOWN / LOW and needs a manual choice; review is needed exactly when UNKNOWN |
| PartCondition.DetectPartConditionPriority | Backend/app/services/part_condition_service.py:81-126 | REMANUFACTURED exactly when a REMAN word occurs; NEW / HIGH exactly when a NEW phrase occurs and no REMAN word; NEW / MEDIUM exactly when only a bare "NEW" occurs; the keyword is the first match in list order |
| PartCondition.ShadowedRemanKeywords | Backend/app/services/part_condition_service.py:43-93 | REMANUFACTURED, RECONDITIONED and REFURBISHED are never reported, because each contains an earlier entry |
| PartCondition.RemanBeatsBrandNew | Backend/app/services/part_condition_service.py:84-105 | A REMAN word wins over an explicit NEW phrase in the same description |
| PartCondition.RenewedReadsAsNew | Backend/app/services/part_condition_service.py:108-116 | Matching is on substrings: "renewed caliper" is NEW / MEDIUM |
| PartCondition.ProcessPartsWith | Backend/app/services/part_condition_service.py:128-191 | The loop returns the summary of `SummaryWith` for any per-part classification |
| PartCondition.ProcessPartsList | Backend/app/services/part_condition_service.py:128-191 | `process_parts_list` over the real classifier returns `SummaryOf` |
| PartCondition.CountsAddUp | Backend/app/services/part_condition_service.py:171-174 | Detected plus unresolved parts equal the number of parts |
| PartCondition.NoReviewIffAllDetected | Backend/app/services/part_condition_service.py:171-191 | Nothing needs review exactly when every part was detected |
| PartCondition.SummaryWithCorrect | Backend/app/services/part_condition_service.py:164-191 | One processed part per input, in order; the counts add up; the YELLOW flag is present exactly when some part needs review |
| PartCondition.ProcessPartCorrect | Backend/app/services/part_condition_service.py:143-167 | A processed part keeps its input and its own classification, and needs review exactly when UNKNOWN |
| PartCondition.SummaryCorrect | Backend/app/services/part_condition_service.py:128-191 | Every part is kept in order with its classification, the counts add up, and the flag is present exactly when some part is UNKNOWN |
| PartCondition.FullDescriptionNonEmpty | Backend/app/services/part_condition_service.py:143-149 | The classified text always holds the separating space, so the list never reaches the empty branch |
| AddOns.SearchText | Backend/app/services/addon_service.py:260-262 | The search text starts with the lower-cased request |
| AddOns.SearchTextCovers | Backend/app/services/addon_service.py:260-262 | A keyword found in the lower-cased request or in the procedures is found in the search text |
| AddOns.AddItems | Backend/app/services/addon_service.py:278-287 | The inner loop extends the de-duplicated list by exactly the new items |
| AddOns.DetectAddonsIn | Backend/app/services/addon_service.py:241-310 | The loops over any rule table return `AddOnsOf` for that table |
| AddOns.DetectAddons | Backend/app/services/addon_service.py:241-310 | `detect_addons` over `ADD_ON_RULES` |
| AddOns.DedupDistinct | Backend/app/services/addon_service.py:284-285 | No two kept items share a part number |
| AddOns.DedupFirstWins | Backend/app/services/addon_service.py:272-285 | A part number is kept exactly when some candidate carries it, and the kept item is the first such candidate |
| AddOns.AddOnsDistinct | Backend/app/services/addon_service.py:265-287 | The returned add-ons have distinct part numbers, and the first candidate wins |
| AddOns.FiredNamesIff | Backend/app/services/addon_service.py:265-276 | A rule name is recorded exactly when a rule of that name fires |
| AddOns.FiredNamesDistinct | Backend/app/services/addon_service.py:265-276 | With distinct rule names, each is recorded once |
| AddOns.MatchedRulesCorrect | Backend/app/services/addon_service.py:265-294 | A rule is recorded exactly when one of its keywords is in the search text, and no rule twice |
| AddOns.CandidatesFromTable | Backend/app/services/addon_service.py:278-283 | Every candidate is a table item with quantity 1 |
| AddOns.CandidatesFireIn | Backend/app/services/addon_service.py:265-283 | The items of a firing rule are among the candidates |
| AddOns.DedupSubset | Backend/app/services/addon_service.py:284-285 | Every kept item is a candidate |
| AddOns.PriceTotalPositive | Backend/app/services/addon_service.py:290 | With positive prices, the total is positive exactly when something was added |
| AddOns.AddOnsTotals | Backend/app/services/addon_service.py:278-295 | Every add-on has quantity 1 and comes from a firing rule; the count is the list length; with positive prices the total is positive exactly when the list is non-empty |
| AddOns.AddOnRulesPricesPositive | Backend/app/services/addon_service.py:30-236 | Every price in `ADD_ON_RULES` is positive |
| AddOns.AddOnsNamesFit | Backend/app/services/addon_service.py:278-287 | Every returned add-on has a name of 1 to 500 characters and a part number of at most 100 when every table item does |
| AddOns.AddOnRulesNamesFit | Backend/app/services/addon_service.py:30-236 | Every item of `ADD_ON_RULES` has such a name and part number |
| AddOns.NothingFiresNothingAdded | Backend/app/services/addon_service.py:265-290 | Text matching no keyword adds nothing and records no rule |
| AddOns.NoKeywordNoAddOns | Backend/app/services/addon_service.py:256-310 | In that case the report is empty, with total 0 |
| AddOns.ReplacePadsAddsAcService | Backend/app/services/addon_service.py:265-270 | "replace pads" fires brake_service and also ac_service, because "ac" is inside "replace" |
| AddOns.BadgeExample | Backend/app/services/addon_service.py:280 | The badge is the rule name in title case with spaces, an arrow, then the part name |
| Recalls.MatchComplaintIn | Backend/app/services/recall_service.py:73-130 | The loops over any category map return `MatchingRecalls` |
| Recalls.MatchComplaintToRecalls | Backend/app/services/recall_service.py:73-130 | `match_complaint_to_recalls` over `component_mappings` |
| Recalls.FilterIsSubsequence | Backend/app/services/recall_service.py:118-130 | The matches are the input recalls at strictly increasing positions |
| Recalls.FilterKeepsMatches | Backend/app/services/recall_service.py:120-128 | A position is kept exactly when its recall matches |
| Recalls.CategoryNamesDistinct | Backend/app/services/recall_service.py:99-110 | The category names are distinct |
| Recalls.MatchesSharedCategory | Backend/app/services/recall_service.py:99-128 | A recall matches exactly when one category has a synonym in both the complaint and the recall text |
| Recalls.MatchingRecallsCorrect | Backend/app/services/recall_service.py:73-130 | An empty complaint or list gives nothing. Otherwise the result is the recalls sharing a category with the complaint, in input order, each once |
| Recalls.CheckRecallsIn | Backend/app/services/recall_service.py:132-201 | has_open_recalls holds exactly for a non-empty list; the counts are the list lengths; every recall is shortened; the RED flag is present exactly when something matches, and cites the first match |
| Recalls.CheckRecalls | Backend/app/services/recall_service.py:132-201 | `check_recalls` over `component_mappings` |
| Recalls.ShortenedTexts | Backend/app/services/recall_service.py:170-198 | Long texts are cut to 200 characters plus "...", short ones are kept, and flag details are cut to 150 |
| Recalls.BrakeComplaintMatchesBrakeRecall | Backend/app/services/recall_service.py:99-128 | "Brakes pull to the left" matches a service-brakes recall |
| Warranty.IsPowertrainRelated | Backend/app/services/warranty_service.py:119-133 | False for an empty request; otherwise true exactly when a component word is in the lower-cased request |
| Warranty.CheckWarrantyStatusWith | Backend/app/services/warranty_service.py:135-243 | Returns the check of `WarrantyWith` for the given terms |
| Warranty.CheckWarrantyStatus | Backend/app/services/warranty_service.py:89-243 | Looks up the terms, then checks against them |
| Warranty.WarrantyCorrect | Backend/app/services/warranty_service.py:106-243 | Age = current - model year. Each alert is present exactly when its strict window holds. Likely covered exactly inside the bumper window, or the powertrain window with a powertrain request. The flag is present exactly when likely covered. Alerts are in a fixed order |
| Warranty.AlertsCorrect | Backend/app/services/warranty_service.py:179-218 | Each alert is present exactly when its window holds; the powertrain alert is a WARNING exactly for a powertrain request |
| Warranty.AlertsOrdered | Backend/app/services/warranty_service.py:179-218 | Alerts run bumper-to-bumper, powertrain, extended, each at most once |
| Warranty.WindowIsStrict | Backend/app/services/warranty_service.py:179-180 | At exactly the limit age there is no bumper-to-bumper alert |
| Warranty.TermsLookupExamples | Backend/app/services/warranty_service.py:89-104 | The make is looked up upper-cased and stripped, and an unlisted make gets 3y/36,000 and 5y/60,000 |
| Warranty.MitsubishiNeverExtended | Backend/app/services/warranty_service.py:209-218 | Mitsubishi never gets the extended alert |
| Warranty.PaddedMakeMissesExtendedAlert | Backend/app/services/warranty_service.py:99-211 | " hyundai " gets Hyundai terms, but not the extended alert, which is not stripped |
| Warranty.HyundaiEngineExample | Backend/app/services/warranty_service.py:135-243 | A 2019 Hyundai at 70,000 miles in 2024 with an engine complaint is likely covered and gets two alerts |
| Warranty.EngineKnockingIsPowertrain | Backend/app/services/warranty_service.py:119-133 | "engine knocking" is powertrain-related |
| VinDecoder.DecodeVin | Backend/app/services/vin_decoder_service.py:62-112 | A VIN not of length 17 is an error; otherwise the parse keeps the input VIN |
| VinDecoder.VehicleDataCorrect | Backend/app/services/vin_decoder_service.py:92-96 | A variable is stored exactly when a kept entry names it, with the value of the latest such entry, never empty or "Not Applicable" |
| VinDecoder.VehicleDataKeys | Backend/app/services/vin_decoder_service.py:92-96 | The keys are exactly the variables of the kept entries |
| VinDecoder.VehicleDataLatest | Backend/app/services/vin_decoder_service.py:92-96 | Each value is that of the latest kept entry for its variable |
| VinDecoder.YearRoundTrip | Backend/app/services/vin_decoder_service.py:92-100 | A model year written as digits reads back as the number; a kept value (non-empty, not "Not Applicable") with a non-digit gives no year |
| VinDecoder.EngineFallback | Backend/app/services/vin_decoder_service.py:108 | The engine is "Engine Model" when present, else "Engine Configuration" |
| VinDecoder.NotApplicableDropped | Backend/app/services/vin_decoder_service.py:92-96 | A make reported only as "Not Applicable" is absent |
| LaborMock.LaborTimeInCorrect | Backend/app/adapters/labor_mock_adapter.py:130-166 | The first table keyword found in the lower-cased description decides; with none found, one hour under the original description; never absent, source "mock" |
| LaborMock.LaborTimeInPositive | Backend/app/adapters/labor_mock_adapter.py:130-166 | A table of positive times gives a positive answer |
| LaborMock.LaborDatabaseHoursPositive | Backend/app/adapters/labor_mock_adapter.py:18-128 | Every time in `LABOR_DATABASE` is positive |
| LaborMock.GetLaborTimePositive | Backend/app/adapters/labor_mock_adapter.py:130-166 | Every time the mock returns is positive |
| LaborMock.BrakePadAndRotorExample | Backend/app/adapters/labor_mock_adapter.py:149-157 | Table order decides: "brake pad and rotor" gets the brake-pad time |
| AlldataFallback.EstimateInCorrect | Backend/app/adapters/alldata_scraper_adapter.py:198-227 | The hours of the first table keyword found, else 1.5 |
| AlldataFallback.EstimateInRange | Backend/app/adapters/alldata_scraper_adapter.py:198-227 | The estimate is one of the table's hours or the default |
| AlldataFallback.EstimateLaborTimeBounds | Backend/app/adapters/alldata_scraper_adapter.py:203-227 | Every estimate is between 0.3 and 4.5 hours |
| AlldataFallback.FallbackDataCorrect | Backend/app/adapters/alldata_scraper_adapter.py:229-239 | The fallback keeps the description as a prefix, marks it for verification, carries the estimate and names its source |
| AlldataFallback.BrakePadEstimate | Backend/app/adapters/alldata_scraper_adapter.py:203-220 | This table rates brake pads at 1.2 hours |
| PartsMock.SearchPartsIn | Backend/app/adapters/parts_mock_adapter.py:180-217 | The loop over any table returns `PartsFor` |
| PartsMock.SearchParts | Backend/app/adapters/parts_mock_adapter.py:180-217 | `search_parts` over `PARTS_DATABASE` |
| PartsMock.MatchedMembership | Backend/app/adapters/parts_mock_adapter.py:201-204 | A part is found exactly when some firing entry files it |
| PartsMock.MatchedEmpty | Backend/app/adapters/parts_mock_adapter.py:201-207 | With no empty entries, nothing is found exactly when no keyword occurs |
| PartsMock.PartsForCorrect | Backend/app/adapters/parts_mock_adapter.py:198-217 | Never empty: the found parts, or else exactly the generic part naming the description |
| PartsMock.PartsForPricesPositive | Backend/app/adapters/parts_mock_adapter.py:201-215 | With positive table prices, every returned price is positive |
| PartsMock.PartsDatabaseFacts | Backend/app/adapters/parts_mock_adapter.py:18-178 | Every entry of `PARTS_DATABASE` is non-empty with positive prices |
| PartsMock.SearchPartsFacts | Backend/app/adapters/parts_mock_adapter.py:180-217 | The mock always returns some part, each with a positive price |
| PartsMock.OilFilterExample | Backend/app/adapters/parts_mock_adapter.py:201-204 | Overlapping keywords both fire: "oil filter" finds the engine oil, then the filter |
| AutoGenerate.DetectJobTypeCorrect | Backend/app/services/auto_generate_service.py:466-477 | Buckets are tried brake, engine, AC; each answer is a known kit, and transmission and suspension are never chosen |
| AutoGenerate.ReplaceReadsAsAcService | Backend/app/services/auto_generate_service.py:474 | "Replace horn" reads as AC work, because "ac" is inside "replace" |
| AutoGenerate.CalculateConfidenceScore | Backend/app/services/auto_generate_service.py:479-520 | The loops return `ConfidenceOf` |
| AutoGenerate.StepsPenaltyBounds | Backend/app/services/auto_generate_service.py:484-489 | The step penalty is between 0 and 30 per step, and 0 when every step succeeded |
| AutoGenerate.FlagsPenaltyBounds | Backend/app/services/auto_generate_service.py:492-500 | The flag penalty is between 0 and 20 per flag, and 0 when every flag is INFO |
| AutoGenerate.ConfidenceCorrect | Backend/app/services/auto_generate_service.py:479-520 | The score is in [0, 100], and is 100 / HIGH when nothing failed and every flag is INFO. The thresholds are 90 and 70, each with its advice |
| AutoGenerate.InfoFlagIsFree | Backend/app/services/auto_generate_service.py:492-500 | An INFO flag never changes the score |
| AutoGenerate.MoreNeverHelps | Backend/app/services/auto_generate_service.py:484-502 | One more step or flag never raises the score |
| AutoGenerate.FailedDecodeExample | Backend/app/services/auto_generate_service.py:479-520 | A failed decode alone scores 70, MEDIUM |
| AutoGenerate.CriticalStepsCap | Backend/app/services/auto_generate_service.py:484-513 | A failed decode or labor step caps the score at 70, and both together at 40 |
| AutoGenerate.CriticalFailureConfidence | Backend/app/services/auto_generate_service.py:98-458 | The same caps hold for a whole run, where a labor step fails on no result, a raising lookup or a rejected line |
| AutoGenerate.PartLines | Backend/app/services/auto_generate_service.py:227-235 | One candidate line per part, as the schema is called with it; which lines step 5 keeps is `Accepted` |
| AutoGenerate.FirstRejected | Backend/app/schemas/estimate.py:70-80 | The number of lines built before the schema rejects one is at most the number of lines |
| AutoGenerate.FirstRejectedCorrect | Backend/app/schemas/estimate.py:70-80 | Every line before that point satisfies `PartItemSchema`, and the line at it, if any, does not |
| AutoGenerate.Accepted | Backend/app/services/auto_generate_service.py:225-234 | The parts step 5 turns into lines are at most the found parts |
| AutoGenerate.AcceptedCorrect | Backend/app/services/auto_generate_service.py:225-234 | They are the longest prefix of the found parts whose lines the schema accepts: each is accepted, and the next one, if any, is rejected |
| AutoGenerate.AddOnLines | Backend/app/services/auto_generate_service.py:362-376 | One part line per add-on |
| AutoGenerate.Added | Backend/app/services/auto_generate_service.py:362-376 | The add-ons step 8 adds are at most the detected ones |
| AutoGenerate.AddedCorrect | Backend/app/services/auto_generate_service.py:362-376 | They are the longest prefix of the detected add-ons whose lines the schema accepts: each is accepted, and the next one, if any, is rejected |
| AutoGenerate.AddOnFlags | Backend/app/services/auto_generate_service.py:377-382 | One INFO flag per add-on |
| AutoGenerate.BackFilled | Backend/app/services/auto_generate_service.py:295-308 | The intended back-fill keeps the length of the part list |
| AutoGenerate.BackFill | Backend/app/services/auto_generate_service.py:295-308 | The nested loops update lines in place to `BackFilled` |
| AutoGenerate.FillLineKeeps | Backend/app/services/auto_generate_service.py:295-308 | Back-fill never changes a line's description, part number, quantity, markup or badge |
| AutoGenerate.FillLineUnchanged | Backend/app/services/auto_generate_service.py:300-301 | A line with a cost, or one no vendor part offers, is unchanged |
| AutoGenerate.FillLineFirstOffer | Backend/app/services/auto_generate_service.py:300-308 | A zero-cost line takes the price, marked-up total and vendor of the first offering part, when that price is non-zero |
| AutoGenerate.BackFilledCorrect | Backend/app/services/auto_generate_service.py:295-308 | Only zero-cost lines that some vendor part offers change, and they keep their identity |
| AutoGenerate.FirstFilled | Backend/app/services/auto_generate_service.py:300-305 | The first line a vendor part back-fills: it is a zero-cost line with that part number, no earlier line is, and none means no line is |
| AutoGenerate.BackFillAsWritten | Backend/app/services/auto_generate_service.py:295-308 | The nested loops as written, leaving at the first assignment that raises, return `BackFilledAsWritten` |
| AutoGenerate.BackFillAsWrittenRaises | Backend/app/services/auto_generate_service.py:295-308 | As written, the back-fill raises exactly when some vendor part would fill some line, always with the float-by-Decimal TypeError; it never changes a total or vendor, and without a fill it changes nothing |
| AutoGenerate.FillsLineOffers | Backend/app/services/auto_generate_service.py:300-305 | A fill is exactly a zero-cost line whose part number some vendor part with a primary offer carries |
| AutoGenerate.BackFillRaisesOnUnpricedPart | Backend/app/services/auto_generate_service.py:295-308 | An unpriced pad offered at 50.00: as written the cost becomes 50.00 and the TypeError is raised with total 0 and vendor "Unknown"; the intended back-fill gives cost 50.00, total 65.00, vendor "SSF" |
| AutoGenerate.DecodeStep | Backend/app/services/auto_generate_service.py:98-116 | Step 1 returns `VehicleOutcome`: the length guard, then the response or its failure |
| AutoGenerate.WarrantyStep | Backend/app/services/auto_generate_service.py:141-166 | Step 3 returns `WarrantyOutcome` |
| AutoGenerate.LaborStep | Backend/app/services/auto_generate_service.py:171-214 | Step 4 returns the lines, job type, status and errors of `LaborOutcome`: the lookup's failure, no result, or the line when `LaborItemSchema` accepts it, else the schema's rejection |
| AutoGenerate.LaborOutcomeCorrect | Backend/app/services/auto_generate_service.py:171-214 | Step 4 yields the line exactly when the result's line satisfies `LaborItemSchema`; no result stays no result; a raising lookup keeps its message and a rejected line gets the schema's |
| AutoGenerate.PartsStatusCorrect | Backend/app/services/auto_generate_service.py:219-263 | Step 5 fails with the search's message when it raised, fails with the schema's message exactly when some found part's line is rejected, and otherwise runs |
| AutoGenerate.BuildPartLines | Backend/app/services/auto_generate_service.py:225-234 | Step 5's loop returns the lines of the accepted prefix, and reports a rejection exactly when some found part was not accepted |
| AutoGenerate.VendorStep | Backend/app/services/auto_generate_service.py:268-318 | Step 6 returns `VendorOutcome` |
| AutoGenerate.AddOnStep | Backend/app/services/auto_generate_service.py:358-393 | Step 8 appends the lines and INFO flags of the accepted prefix of the add-ons, and reports a rejection exactly when some add-on was not added |
| AutoGenerate.FrontSteps | Backend/app/services/auto_generate_service.py:98-214 | Steps 1-4: outcomes, errors and flags in step order, with the labor line checked by the schema |
| AutoGenerate.PartsSteps | Backend/app/services/auto_generate_service.py:219-353 | Steps 5-7: the accepted part lines, back-filled with vendor prices, then conditions, with the parts status, errors and flags |
| AutoGenerate.GenerateEstimate | Backend/app/services/auto_generate_service.py:98-462 | The whole pipeline returns `GenerateWith`, whose properties the lemmas below state |
| AutoGenerate.CriticalErrors | Backend/app/services/auto_generate_service.py:116-462 | There is no critical error exactly when the decode succeeded, step 4 built a labor line, and no parts-step message names "VIN" or "Labor" |
| AutoGenerate.GenerateSuccess | Backend/app/services/auto_generate_service.py:461-462 | A run succeeds exactly when the VIN decoded, labor was found and its line accepted by the schema, and no parts failure names "VIN" or "Labor" |
| AutoGenerate.LongLaborDescriptionFails | Backend/app/services/auto_generate_service.py:176-214 | A labor description over 500 characters is rejected by `LaborItemSchema`, and the run fails |
| AutoGenerate.LongLaborDescriptionDropped | Backend/app/services/auto_generate_service.py:176-214 | Then step 4 fails with the schema's message, no labor line is kept and the job type stays "general" |
| AutoGenerate.LongLaborDescriptionReported | Backend/app/services/auto_generate_service.py:209-214 | Then the errors are the decode failure, if any, "Labor lookup failed: " with the schema's message, then any parts failure |
| AutoGenerate.MarkupOutOfRangeRejectsParts | Backend/app/services/auto_generate_service.py:225-263 | A shop markup outside 0 to 100 makes the first part line fail `PartItemSchema`: step 5 fails with the schema's message, which is the errors' last entry, the conditions are skipped, and only add-on lines remain |
| AutoGenerate.PartsErrorNamingVinIsCritical | Backend/app/services/auto_generate_service.py:263-462 | A parts failure whose message mentions "VIN" fails the run |
| AutoGenerate.WarrantySkipped | Backend/app/services/auto_generate_service.py:141-166 | The warranty check is skipped exactly without a vehicle or an odometer reading, and raises exactly on a missing year or make |
| AutoGenerate.VendorSkipped | Backend/app/services/auto_generate_service.py:268-318 | The vendor step is skipped exactly when no parts were found |
| AutoGenerate.ConditionsSkipped | Backend/app/services/auto_generate_service.py:323-353 | The condition check is skipped exactly when no parts were found or the first one's line was rejected |
| AutoGenerate.GenerateSkipsWarranty | Backend/app/services/auto_generate_service.py:141-166 | In a run, the warranty step is skipped exactly without a vehicle or an odometer reading |
| AutoGenerate.GenerateSkipsVendors | Backend/app/services/auto_generate_service.py:309-313 | In a run, the vendor step is skipped exactly when no parts were found |
| AutoGenerate.GenerateSkipsConditions | Backend/app/services/auto_generate_service.py:323-353 | In a run, the condition step is skipped exactly when no parts were found or the first one's line was rejected |
| AutoGenerate.PartsLayout | Backend/app/services/auto_generate_service.py:225-376 | Found parts come first, in order, then add-on lines at their own price with no markup and vendor "Auto-Add" |
| AutoGenerate.GeneratePartsLayout | Backend/app/services/auto_generate_service.py:219-393 | A run's parts list follows that layout, for the found parts the schema accepted and the add-ons it added |
| AutoGenerate.FlagsLayout | Backend/app/services/auto_generate_service.py:129-382 | Flags come in step order: at most three from recall, warranty and conditions (the recall flag first on a match), then one INFO flag per add-on |
| AutoGenerate.StandardRecallFlagsMatch | Backend/app/services/recall_service.py:193-199 | `check_recalls` flags every match |
| AutoGenerate.GenerateFlagsLayout | Backend/app/services/auto_generate_service.py:121-393 | A run's flags follow that layout, with one INFO flag per added add-on |
| AutoGenerate.JobTypeFacts | Backend/app/services/auto_generate_service.py:171-185 | The job type is "general" with no labor line unless step 4 built one; then it is the detected type and the line is the result's job at its hours and the shop rate; it always names a known kit |
| AutoGenerate.GenerateJobType | Backend/app/services/auto_generate_service.py:171-214 | A run's job type and labor lines follow that |
| AutoGenerate.StandardCarriesKit | Backend/app/services/auto_generate_service.py:398-422 | The pipeline's totals always add the listed kit |
| AutoGenerate.GenerateCleaningKit | Backend/app/services/auto_generate_service.py:398-422 | A run's estimate carries its job type's kit |
| AutoGenerate.StandardAddOnsAccepted | Backend/app/services/auto_generate_service.py:362-376 | With `ADD_ON_RULES` every detected add-on's line satisfies the schema, so all are added |
| AutoGenerate.AddOnLineValid | Backend/app/schemas/estimate.py:70-80 | An add-on with a fitting name and part number, quantity 1 and a positive price makes an accepted line |
| AutoGenerate.StandardAddsOnlyAccepted | Backend/app/services/auto_generate_service.py:362-376 | `detect_addons` with `ADD_ON_RULES` only returns add-ons whose lines are accepted |
| AutoGenerate.GenerateAddsEveryAddOn | Backend/app/services/auto_generate_service.py:358-393 | With such a detection, step 8 runs and adds every detected add-on |
| Approval.NewEntry | Backend/app/services/approval_service.py:78-93 | A new entry is pending, with no actions, expiring 7 days after creation; missing customer fields become "" |
| Approval.LinkFor | Backend/app/services/approval_service.py:96-119 | The link carries the token, the URL built on the base URL, the 7-day expiry and the subject |
| Approval.LookupOf | Backend/app/services/approval_service.py:121-155 | Not found exactly for an unknown token; expired exactly past `expires_at`; otherwise the stored entry |
| Approval.StoreAfterLookup | Backend/app/services/approval_service.py:137-144 | Viewing an expired link marks it expired, whatever its status; nothing else changes |
| Approval.StatusForAction | Backend/app/services/approval_service.py:200-211 | An action maps only to approved, declined or callback_requested |
| Approval.ActionsIgnoreCase | Backend/app/services/approval_service.py:200-211 | Actions match case-insensitively, and unknown words are rejected |
| Approval.Decide | Backend/app/services/approval_service.py:157-211 | An action is accepted exactly on a known, unexpired, pending entry with a valid action. The guards run in source order with their messages |
| Approval.StoreAfterProcess | Backend/app/services/approval_service.py:214-219 | A rejected request changes nothing. An accepted one sets the status and appends exactly one action record. No other entry is touched |
| Approval.ProcessResultOf | Backend/app/services/approval_service.py:222-241 | The request fails exactly when rejected, with the guard's message; otherwise the new status, message and next step |
| Approval.RateOf | Backend/app/services/approval_service.py:275 | "N/A" exactly when nothing was approved or declined; otherwise the approved share, as a percentage in [0, 100] |
| Approval.StatusClassesPartition | Backend/app/services/approval_service.py:260-263 | The five status classes together count every token once |
| Approval.StatsCorrect | Backend/app/services/approval_service.py:243-276 | The per-status counts add up to the tokens sent, and the rate is approved over approved plus declined |
| Approval.NotificationOf | Backend/app/services/approval_service.py:278-327 | Fails exactly for an unknown token or channel; SMS goes to the phone and e-mail to the address; expiry is not checked |
| Approval.SettledStaysSettled | Backend/app/services/approval_service.py:137-219 | Over any sequence of views and actions, a settled entry never returns to pending and gains no actions |
| Approval.ActedOnAtMostOnce | Backend/app/services/approval_service.py:191-219 | Over any sequence of requests, a pending entry gains at most one action, and none while it stays pending |
| Approval.SecondActionFails | Backend/app/services/approval_service.py:191-197 | A second action on an accepted link is rejected as already processed |
| Approval.LateViewUnapproves | Backend/app/services/approval_service.py:137-263 | Viewing an approved link after expiry moves it from the approved count to the expired count |
| Approval.ApprovalService.constructor | Backend/app/services/approval_service.py:49-55 | The store starts empty, with the given base URL |
| Approval.ApprovalService.GenerateApprovalLink | Backend/app/services/approval_service.py:57-119 | Stores the new entry under the token and returns its link |
| Approval.ApprovalService.GetEstimateByToken | Backend/app/services/approval_service.py:121-155 | Returns the lookup and leaves the store as `StoreAfterLookup` says |
| Approval.ApprovalService.ProcessApproval | Backend/app/services/approval_service.py:157-241 | Returns the result and leaves the store as `StoreAfterProcess` says |
| Approval.ApprovalService.GetApprovalStats | Backend/app/services/approval_service.py:243-276 | The counting loop returns `StatsOf` of the store |
| Approval.ApprovalService.SendNotification | Backend/app/services/approval_service.py:278-327 | Returns `NotificationOf` of the store |

## Left out

- The network is not modelled:
  - the NHTSA VIN and recall requests;
  - the vendor, parts and labor scrapers and remote adapters;
  - the ALLDATA browser scrape (`_simulate_live_scrape` and the Playwright path).

  Their answers are inputs (`Result` values or plain lists). The recall fetch returns [] on
  error in the source, so it never fails here either.
- Asynchronous calls run in sequence. Logging is left out.
- Clock and randomness:
  - the current year and `now` are parameters, and ISO timestamps are integer seconds;
  - the source reads the clock twice for `created_at` and `expires_at`, which the model
    treats as one instant;
  - the secret token from `secrets.token_urlsafe` is a parameter.
- Arithmetic and text:
  - `Decimal` and `float` are `real`, and Decimal's 28-digit context precision is not
    modelled;
  - Python's display `round(x, 1)` is a function parameter `roundTenth`, not its banker's
    rounding;
  - the approval rate's ".1f%" string formatting is not modelled.
  - case mapping, `strip` and `isdigit` are ASCII-only, where Python's are Unicode.
- Lists and data shapes:
  - `list(set(matched_rules))` in the add-on result has no defined order in Python; the model
    keeps table order;
  - the constant `success` and `note` entries of result dictionaries are omitted;
  - `estimate_data` repackaging (auto_generate_service.py:427-455) is not modelled;
  - nested `estimate_data` dictionaries are string maps;
  - missing flag keys are not modelled;
  - warranty exception messages are the `Err` strings Python would raise.
- Structure and helpers:
  - `ApprovalService._tokens` is a class attribute shared by all instances in Python, and here
    it is one object's field;
  - `base_url` from the settings is a constructor parameter;
  - the approval e-mail body text is a function, not a template.
  - `get_available_rules` and `get_rule_details` in addon_service.py only list the table, so
    they are left out.
- AutoGenerate.GenerateEstimate: the calculation step is recorded as always succeeding, because
  `calculate_estimate` cannot raise on the modelled inputs.
- Vendor.CompareVendors: `zip(part_numbers, part_descriptions)` pairs numbers and descriptions
  by position, and the orchestrator passes only the non-empty part numbers with all
  descriptions (auto_generate_service.py:279-280). The model keeps that pairing as written and
  states nothing about the misalignment it can cause.
- The services the pipeline calls are a `Services` record of functions, and
  `StandardServices` binds it to this project's models.
- The wording of pydantic's `ValidationError` messages is not modelled: the messages the
  schemas raise in steps 4, 5 and 8 are inputs (`laborRejection`, `partRejection`,
  `addonRejection`). The model checks the field bounds of `LaborItemSchema` and
  `PartItemSchema` (`ValidLaborLine`, `ValidPartLine`), and not the float coercion itself.
- AutoGenerate.BackFill: models the intended back-fill (cost, marked-up total and vendor),
  not the loop as written, which raises at auto_generate_service.py:307 (see Findings). The
  as-written loop is `AutoGenerate.BackFillAsWritten`.
- AutoGenerate.BackFilled: states the intended back-fill, for the same reason. The as-written
  outcome is `AutoGenerate.BackFilledAsWritten`.
- AutoGenerate.FillLineFirstOffer: states the intended fill. As written a filled line keeps
  its total and vendor, because the total's division raises first.
- AutoGenerate.VendorStep: returns the comparison. When the as-written back-fill raises, the
  source records step 6 as failed with the TypeError message, and the model does not.
- AutoGenerate.PartsSteps: uses the intended back-fill, so a run with a fill neither keeps the
  cost-only update nor records step 6 as failed.
- AutoGenerate.GenerateEstimate: uses the intended back-fill, as `PartsSteps` does.
- Vendor.OfferOf: tiers with the corrected OE-equivalent list (see Findings). Its contract
  relates that tier to the as-written one.

## Findings

| source | as written | input that shows it | evidently intended | confidence | as-written member | corrected member |
|---|---|---|---|---|---|---|
| Backend/app/services/vendor_service.py:100 | The OE-equivalent list holds "ACDelco" and is compared against the upper-cased brand, so that entry can never match | brand "ACDelco", description "" is tiered Standard (Vendor.AcDelcoTier, Vendor.AcDelcoNeverMatchesAsWritten) | ACDelco is an OE-equivalent brand, like the other upper-case entries; the fix changes no other tier (Vendor.TierFixOnlyPromotes) | not executed | Vendor.GetBrandTierAsWritten | Vendor.GetBrandTier |
| Backend/app/services/auto_generate_service.py:307 | `item.markup` is a float once `PartItemSchema` has validated it, so `item.markup / Decimal("100")` raises TypeError after `item.cost` was set; the step records the vendor comparison as failed and no later line is filled | part "X" found with no price (line cost 0, total 0, vendor "Unknown") and a vendor part "X" whose primary offer is 50.00 from "SSF" (AutoGenerate.BackFillRaisesOnUnpricedPart) | the line takes cost 50.00, total 65.00 at 30% markup, and vendor "SSF" | not executed | AutoGenerate.BackFilledAsWritten | AutoGenerate.BackFilled |
