/**
 * The jurisdiction detector: four rule functions that decide from a client's
 * operational footprint whether GDPR, CCPA/CPRA, TDPSA or VCDPA applies, the
 * master detector that runs all four, and the generic DPIA/PIA risk flag.
 *
 * Each result carries a structured `Reason` recording which branch decided it;
 * `Reason.Text` renders the sentence the interview displays.
 */
module JurisdictionEngine {
  import opened Basics
  import opened Checkbox

  // ---------------- thresholds ----------------

  const CcpaRevenueThreshold: nat := 25_000_000
  const CcpaConsumerThreshold: nat := 100_000
  const TdpsaConsumerThreshold: nat := 100_000
  const VcdpaConsumerThreshold: nat := 100_000
  /** Despite its name, a consumer count, used together with the sale of personal data. */
  const VcdpaRevenueShareThreshold: nat := 25_000

  // ---------------- region labels ----------------

  const EuRegion := "European Union (EU)"
  const UkRegion := "United Kingdom (UK)"
  const CaliforniaRegion := "California (US)"
  const TexasRegion := "Texas (US)"
  const VirginiaRegion := "Virginia (US)"

  /**
   * The source's `x and x >= T`: an unanswered figure (`None`) and a zero
   * figure are falsy, so they meet no threshold.
   */
  function Meets(x: Option<nat>, threshold: nat): (b: bool)
    ensures b ==> x.Some? && x.value >= threshold
    ensures x == None || x == Some(0) ==> !b
    ensures threshold > 0 ==> (b <==> x.Some? && x.value >= threshold)
  {
    x.Some? && x.value != 0 && x.value >= threshold
  }

  /** A state is in scope when it is ticked among the operating regions or among the consumer regions. */
  predicate HasPresence(operating: Checkboxes, consumers: Checkboxes, region: string) {
    region in TrueValues(operating) || region in TrueValues(consumers)
  }

  /** The state detectors' `true_values()` membership test and the GDPR detector's `get` agree on what counts as ticked. */
  lemma HasPresenceTicked(operating: Checkboxes, consumers: Checkboxes, region: string)
    ensures HasPresence(operating, consumers, region) <==> Get(operating, region) || Get(consumers, region)
  {
  }

  /** The EU and UK labels ticked in a set of regions (the source's `eu_uk & set(regions.true_values())`). */
  function EuUkTicked(regions: Checkboxes): (matched: set<string>)
    ensures matched <= {EuRegion, UkRegion}
    ensures forall r :: r in matched <==> (r == EuRegion || r == UkRegion) && Get(regions, r)
  {
    set r | r in {EuRegion, UkRegion} && r in TrueValues(regions)
  }

  // ---------------- results ----------------

  /** One of the CCPA/CPRA thresholds, with the figure that met it. */
  datatype Criterion = RevenueMet(revenue: nat) | VolumeMet(volume: nat) | SellsPersonalInformation {
    /** The position of the criterion among the checks, which run revenue, volume, selling. */
    function Order(): nat {
      match this
      case RevenueMet(_) => 0
      case VolumeMet(_) => 1
      case SellsPersonalInformation => 2
    }

    function Sentence(): string {
      match this
      case RevenueMet(r) =>
        "Annual revenue ($" + Grouped(r) + ") meets or exceeds $" + Grouped(CcpaRevenueThreshold) + " threshold."
      case VolumeMet(v) =>
        "Consumer volume (" + Grouped(v) + ") meets or exceeds " + Grouped(CcpaConsumerThreshold) + " threshold."
      case SellsPersonalInformation =>
        "Client derives revenue from selling personal information."
    }
  }

  /** Why a detector decided as it did: one constructor per return statement of the detectors. */
  datatype Reason =
    | Establishment(regions: set<string>)
    | ResidentsTargeted(regions: set<string>)
    | NoEuUkPresence
    | NoStatePresence(state: string)
    | CriteriaMet(criteria: seq<Criterion>)
    | CcpaThresholdsNotMet
    | SbaExempt
    | VolumeThresholdMet(volume: nat, threshold: nat, state: string)
    | VolumeAndSale(volume: nat)
    | TdpsaVolumeNotMet
    | VcdpaVolumeNotMet
  {
    /** The sentence shown to the attorney. */
    function Text(): string {
      match this
      case Establishment(regions) => "Client has an establishment in " + JoinRegions(regions) + "."
      case ResidentsTargeted(regions) => "Client processes personal data of residents in " + JoinRegions(regions) + "."
      case NoEuUkPresence => "No EU/UK establishment or consumer base detected."
      case NoStatePresence(state) => "No " + state + " operations or consumer base detected."
      case CriteriaMet(criteria) => JoinSentences(criteria)
      case CcpaThresholdsNotMet =>
        "Client operates in California but does not appear to meet revenue or volume thresholds. Verify manually."
      case SbaExempt =>
        "Client qualifies as SBA small business and is exempt from TDPSA. Verify classification."
      case VolumeThresholdMet(volume, threshold, state) =>
        "Client processes data of " + Grouped(volume) + " consumers (threshold: " + Grouped(threshold)
        + ") and operates in or targets " + state + "."
      case VolumeAndSale(volume) =>
        "Client processes data of " + Grouped(volume)
        + " Virginia consumers and derives revenue from sale of personal data."
      case TdpsaVolumeNotMet =>
        "Client operates in Texas but consumer volume does not appear to meet the 100,000 threshold. Verify manually."
      case VcdpaVolumeNotMet =>
        "Client operates in Virginia but does not appear to meet consumer volume thresholds. Verify manually."
    }
  }

  /** The `{name, applies, reason}` record every detector returns. */
  datatype JurisdictionResult = JurisdictionResult(jurisdiction: Jurisdiction, applies: bool, reason: Reason) {
    function Name(): string {
      jurisdiction.Name()
    }
  }

  // ---------------- rendering helpers ----------------

  function DigitChar(d: nat): char
    requires d < 10
  {
    ('0' as int + d) as char
  }

  function Digits(n: nat): string {
    if n < 10 then [DigitChar(n)] else Digits(n / 10) + [DigitChar(n % 10)]
  }

  /** Three digits with leading zeros, for the groups after the first. */
  function Pad3(n: nat): string
    requires n < 1000
  {
    if n < 10 then "00" + Digits(n) else if n < 100 then "0" + Digits(n) else Digits(n)
  }

  /** The `{:,}` format: decimal digits in groups of three separated by commas. */
  function Grouped(n: nat): string {
    if n < 1000 then Digits(n) else Grouped(n / 1000) + "," + Pad3(n % 1000)
  }

  /**
   * `', '.join` of the matched EU/UK labels. Python iterates a set in an
   * unspecified order; the model lists the EU before the UK.
   */
  function JoinRegions(regions: set<string>): string {
    if EuRegion in regions && UkRegion in regions then EuRegion + ", " + UkRegion
    else if EuRegion in regions then EuRegion
    else if UkRegion in regions then UkRegion
    else ""
  }

  /** `' '.join(reasons)`. */
  function JoinSentences(criteria: seq<Criterion>): string {
    if criteria == [] then ""
    else if |criteria| == 1 then criteria[0].Sentence()
    else criteria[0].Sentence() + " " + JoinSentences(criteria[1..])
  }

  // ---------------- detectors ----------------

  /**
   * `detect_gdpr`: GDPR applies when the EU or the UK is ticked among the
   * operating regions (an establishment, checked first) or among the consumer
   * regions (residents targeted).
   */
  function DetectGdpr(operating: Checkboxes, consumers: Checkboxes): (r: JurisdictionResult)
    ensures r.jurisdiction == GDPR
    ensures r.applies <==>
      Get(operating, EuRegion) || Get(operating, UkRegion) || Get(consumers, EuRegion) || Get(consumers, UkRegion)
    ensures (Get(operating, EuRegion) || Get(operating, UkRegion)) ==> r.reason == Establishment(EuUkTicked(operating))
    ensures !(Get(operating, EuRegion) || Get(operating, UkRegion)) && r.applies ==>
      r.reason == ResidentsTargeted(EuUkTicked(consumers))
    ensures !r.applies ==> r.reason == NoEuUkPresence
  {
    var establishment := EuUkTicked(operating);
    var targeted := EuUkTicked(consumers);
    if establishment != {} then
      JurisdictionResult(GDPR, true, Establishment(establishment))
    else if targeted != {} then
      JurisdictionResult(GDPR, true, ResidentsTargeted(targeted))
    else
      JurisdictionResult(GDPR, false, NoEuUkPresence)
  }

  /** The CCPA/CPRA thresholds met, in the order the source checks them. */
  function MatchedCriteria(revenue: Option<nat>, volume: Option<nat>, sellsData: bool): (cs: seq<Criterion>)
    ensures |cs| == (if Meets(revenue, CcpaRevenueThreshold) then 1 else 0)
                  + (if Meets(volume, CcpaConsumerThreshold) then 1 else 0)
                  + (if sellsData then 1 else 0)
    ensures forall i, j :: 0 <= i < j < |cs| ==> cs[i].Order() < cs[j].Order()
    ensures forall c :: c in cs ==>
      match c
      case RevenueMet(r) => Meets(revenue, CcpaRevenueThreshold) && revenue == Some(r)
      case VolumeMet(v) => Meets(volume, CcpaConsumerThreshold) && volume == Some(v)
      case SellsPersonalInformation => sellsData
  {
    (if Meets(revenue, CcpaRevenueThreshold) then [RevenueMet(revenue.value)] else [])
    + (if Meets(volume, CcpaConsumerThreshold) then [VolumeMet(volume.value)] else [])
    + (if sellsData then [SellsPersonalInformation] else [])
  }

  /**
   * The reference decision of `detect_ccpa_cpra`: outside California nothing
   * applies; inside, the act applies when at least one threshold is met, and
   * the reason lists every threshold met.
   */
  function CcpaCpra(operating: Checkboxes, consumers: Checkboxes, revenue: Option<nat>, volume: Option<nat>,
                    sellsData: bool): (r: JurisdictionResult)
    ensures r.jurisdiction == CCPA
    ensures r.applies <==> (HasPresence(operating, consumers, CaliforniaRegion)
      && (Meets(revenue, CcpaRevenueThreshold) || Meets(volume, CcpaConsumerThreshold) || sellsData))
    ensures !HasPresence(operating, consumers, CaliforniaRegion) ==> r.reason == NoStatePresence("California")
    ensures r.applies ==> r.reason == CriteriaMet(MatchedCriteria(revenue, volume, sellsData))
    ensures HasPresence(operating, consumers, CaliforniaRegion) && !r.applies ==> r.reason == CcpaThresholdsNotMet
  {
    if !HasPresence(operating, consumers, CaliforniaRegion) then
      JurisdictionResult(CCPA, false, NoStatePresence("California"))
    else
      var criteria := MatchedCriteria(revenue, volume, sellsData);
      if criteria != [] then JurisdictionResult(CCPA, true, CriteriaMet(criteria))
      else JurisdictionResult(CCPA, false, CcpaThresholdsNotMet)
  }

  /** `detect_ccpa_cpra`: collects one reason per threshold met, then decides on whether any was. */
  method DetectCcpaCpra(operating: Checkboxes, consumers: Checkboxes, revenue: Option<nat>, volume: Option<nat>,
                        sellsData: bool) returns (r: JurisdictionResult)
    ensures r == CcpaCpra(operating, consumers, revenue, volume, sellsData)
  {
    var operatesInCa := CaliforniaRegion in TrueValues(operating);
    var consumersInCa := CaliforniaRegion in TrueValues(consumers);
    if !(operatesInCa || consumersInCa) {
      return JurisdictionResult(CCPA, false, NoStatePresence("California"));
    }
    var reasons: seq<Criterion> := [];
    if Meets(revenue, CcpaRevenueThreshold) {
      reasons := reasons + [RevenueMet(revenue.value)];
    }
    if Meets(volume, CcpaConsumerThreshold) {
      reasons := reasons + [VolumeMet(volume.value)];
    }
    if sellsData {
      reasons := reasons + [SellsPersonalInformation];
    }
    if reasons != [] {
      return JurisdictionResult(CCPA, true, CriteriaMet(reasons));
    }
    return JurisdictionResult(CCPA, false, CcpaThresholdsNotMet);
  }

  /**
   * `detect_tdpsa`: with a Texas presence, an SBA small business is exempt
   * whatever its volume; otherwise the act applies from 100,000 consumers.
   */
  function DetectTdpsa(operating: Checkboxes, consumers: Checkboxes, volume: Option<nat>, isSbaSmallBusiness: bool)
    : (r: JurisdictionResult)
    ensures r.jurisdiction == TDPSA
    ensures r.applies <==> (HasPresence(operating, consumers, TexasRegion) && !isSbaSmallBusiness
      && Meets(volume, TdpsaConsumerThreshold))
    ensures !HasPresence(operating, consumers, TexasRegion) ==> r.reason == NoStatePresence("Texas")
    ensures HasPresence(operating, consumers, TexasRegion) && isSbaSmallBusiness ==> r.reason == SbaExempt
    ensures r.applies ==> r.reason == VolumeThresholdMet(volume.value, TdpsaConsumerThreshold, "Texas")
    ensures HasPresence(operating, consumers, TexasRegion) && !isSbaSmallBusiness && !r.applies ==>
      r.reason == TdpsaVolumeNotMet
  {
    if !HasPresence(operating, consumers, TexasRegion) then
      JurisdictionResult(TDPSA, false, NoStatePresence("Texas"))
    else if isSbaSmallBusiness then
      JurisdictionResult(TDPSA, false, SbaExempt)
    else if Meets(volume, TdpsaConsumerThreshold) then
      JurisdictionResult(TDPSA, true, VolumeThresholdMet(volume.value, TdpsaConsumerThreshold, "Texas"))
    else
      JurisdictionResult(TDPSA, false, TdpsaVolumeNotMet)
  }

  /**
   * `detect_vcdpa`: with a Virginia presence, the act applies from 100,000
   * consumers, or from 25,000 consumers when the client sells personal data.
   */
  function DetectVcdpa(operating: Checkboxes, consumers: Checkboxes, volume: Option<nat>, sellsData: bool)
    : (r: JurisdictionResult)
    ensures r.jurisdiction == VCDPA
    ensures r.applies <==> (HasPresence(operating, consumers, VirginiaRegion)
      && (Meets(volume, VcdpaConsumerThreshold) || (Meets(volume, VcdpaRevenueShareThreshold) && sellsData)))
    ensures !HasPresence(operating, consumers, VirginiaRegion) ==> r.reason == NoStatePresence("Virginia")
    ensures HasPresence(operating, consumers, VirginiaRegion) && Meets(volume, VcdpaConsumerThreshold) ==>
      r.reason == VolumeThresholdMet(volume.value, VcdpaConsumerThreshold, "Virginia")
    ensures r.applies && !Meets(volume, VcdpaConsumerThreshold) ==> r.reason == VolumeAndSale(volume.value)
    ensures HasPresence(operating, consumers, VirginiaRegion) && !r.applies ==> r.reason == VcdpaVolumeNotMet
  {
    if !HasPresence(operating, consumers, VirginiaRegion) then
      JurisdictionResult(VCDPA, false, NoStatePresence("Virginia"))
    else if Meets(volume, VcdpaConsumerThreshold) then
      JurisdictionResult(VCDPA, true, VolumeThresholdMet(volume.value, VcdpaConsumerThreshold, "Virginia"))
    else if Meets(volume, VcdpaRevenueShareThreshold) && sellsData then
      JurisdictionResult(VCDPA, true, VolumeAndSale(volume.value))
    else
      JurisdictionResult(VCDPA, false, VcdpaVolumeNotMet)
  }

  /**
   * `detect_applicable_jurisdictions`: every detector's result, applicable or
   * not, one per statute in the evaluation order.
   */
  function DetectApplicableJurisdictions(operating: Checkboxes, consumers: Checkboxes, revenue: Option<nat>,
                                         volume: Option<nat>, sellsData: bool, isSbaSmallBusiness: bool)
    : (rs: seq<JurisdictionResult>)
    ensures |rs| == StatuteCount
    ensures forall i :: 0 <= i < |rs| ==> rs[i].jurisdiction == StatuteAt(i)
    ensures rs[0].Name() == "GDPR" && rs[1].Name() == "CCPA/CPRA" && rs[2].Name() == "TDPSA" && rs[3].Name() == "VCDPA"
  {
    [ DetectGdpr(operating, consumers),
      CcpaCpra(operating, consumers, revenue, volume, sellsData),
      DetectTdpsa(operating, consumers, volume, isSbaSmallBusiness),
      DetectVcdpa(operating, consumers, volume, sellsData) ]
  }

  // ---------------- properties ----------------

  /** The CCPA/CPRA reason has one sentence per threshold met, in the order revenue, volume, selling. */
  lemma CcpaReasonSentences(operating: Checkboxes, consumers: Checkboxes, revenue: Option<nat>, volume: Option<nat>,
                            sellsData: bool)
    requires CcpaCpra(operating, consumers, revenue, volume, sellsData).applies
    ensures var cs := CcpaCpra(operating, consumers, revenue, volume, sellsData).reason.criteria;
      |cs| == (if Meets(revenue, CcpaRevenueThreshold) then 1 else 0)
            + (if Meets(volume, CcpaConsumerThreshold) then 1 else 0)
            + (if sellsData then 1 else 0)
      && (forall i, j :: 0 <= i < j < |cs| ==> cs[i].Order() < cs[j].Order())
  {
  }

  /** Without a presence in the state, the state statutes never apply, whatever the figures. */
  lemma NoPresenceNeverApplies(operating: Checkboxes, consumers: Checkboxes, revenue: Option<nat>,
                               volume: Option<nat>, sellsData: bool, isSbaSmallBusiness: bool)
    ensures var rs := DetectApplicableJurisdictions(operating, consumers, revenue, volume, sellsData, isSbaSmallBusiness);
      (!HasPresence(operating, consumers, CaliforniaRegion) ==> !rs[1].applies)
      && (!HasPresence(operating, consumers, TexasRegion) ==> !rs[2].applies)
      && (!HasPresence(operating, consumers, VirginiaRegion) ==> !rs[3].applies)
  {
  }

  /** An unanswered or zero consumer volume never brings TDPSA or VCDPA into scope. */
  lemma AbsentVolumeNeverApplies(operating: Checkboxes, consumers: Checkboxes, volume: Option<nat>,
                                 sellsData: bool, isSbaSmallBusiness: bool)
    requires volume == None || volume == Some(0)
    ensures !DetectTdpsa(operating, consumers, volume, isSbaSmallBusiness).applies
    ensures !DetectVcdpa(operating, consumers, volume, sellsData).applies
  {
  }

  /** Selling personal data lowers the VCDPA volume threshold from 100,000 to 25,000 consumers and no further. */
  lemma VcdpaSaleLowersThreshold(operating: Checkboxes, consumers: Checkboxes, v: nat)
    requires HasPresence(operating, consumers, VirginiaRegion)
    ensures DetectVcdpa(operating, consumers, Some(v), true).applies <==> v >= 25_000
    ensures DetectVcdpa(operating, consumers, Some(v), false).applies <==> v >= 100_000
  {
  }

  // ---------------- DPIA / PIA risk flag ----------------

  const HighRiskData: seq<string> := [
    "Health or medical data",
    "Biometric data",
    "Precise geolocation data",
    "Data relating to children (under 13 / under 16)",
    "Racial or ethnic origin",
    "Criminal conviction data",
    "Genetic data"
  ]

  const HighRiskPurposes: seq<string> := [
    "Targeted or behavioural advertising",
    "Profiling with significant effects",
    "Sharing or selling to third parties"
  ]

  /** The DPIA/PIA indication: some listed high-risk data type or purpose is ticked. */
  function DpiaIndicated(dataTypes: Checkboxes, purposes: Checkboxes): (flagged: bool)
    ensures flagged <==> ((exists i :: 0 <= i < |HighRiskData| && Get(dataTypes, HighRiskData[i]))
                       || (exists i :: 0 <= i < |HighRiskPurposes| && Get(purposes, HighRiskPurposes[i])))
  {
    AnyTicked(dataTypes, HighRiskData) || AnyTicked(purposes, HighRiskPurposes)
  }

  /**
   * `requires_dpia`: scans the high-risk data types, then the high-risk
   * purposes, and flags the matter as soon as one is ticked.
   */
  method RequiresDpia(dataTypes: Checkboxes, purposes: Checkboxes) returns (flagged: bool)
    ensures flagged == DpiaIndicated(dataTypes, purposes)
  {
    for i := 0 to |HighRiskData|
      invariant forall k :: 0 <= k < i ==> !Get(dataTypes, HighRiskData[k])
    {
      if Get(dataTypes, HighRiskData[i]) {
        return true;
      }
    }
    for i := 0 to |HighRiskPurposes|
      invariant forall k :: 0 <= k < i ==> !Get(purposes, HighRiskPurposes[k])
    {
      if Get(purposes, HighRiskPurposes[i]) {
        return true;
      }
    }
    return false;
  }

  /** Selling or sharing with third parties is a high-risk purpose on its own, whatever the data types. */
  lemma DpiaIndicatedBySale(dataTypes: Checkboxes, purposes: Checkboxes)
    requires Get(purposes, "Sharing or selling to third parties")
    ensures DpiaIndicated(dataTypes, purposes)
  {
    assert HighRiskPurposes[2] == "Sharing or selling to third parties";
  }

  /** The engine's list is not the GDPR module's: financial information alone raises no flag here. */
  lemma FinancialDataAloneNotIndicated(purposes: Checkboxes)
    requires forall i :: 0 <= i < |purposes| ==> !purposes[i].1
    ensures !DpiaIndicated([("Financial information", true)], purposes)
  {
  }
}
