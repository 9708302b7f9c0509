/**
 * The gap analysis procedures: the four per-statute analysers, each a run of
 * conditional appends, and `run_gap_analysis`, which concatenates the findings
 * of the confirmed jurisdictions and groups them by jurisdiction and severity.
 */
module GapAnalysis {
  import opened Basics
  import opened Checkbox
  import opened Findings
  import opened Aggregation
  import opened GapChecklists

  /** Part of `analyse_gdpr_gaps`: the documentation items: lawful basis, records of processing, retention, legitimate-interests assessment. */
  method CheckGdprDocumentation(m: Matter, prior: seq<Finding>) returns (findings: seq<Finding>)
    requires prior == EvaluatePrefix(GdprChecklist(m), 0)
    ensures findings == EvaluatePrefix(GdprChecklist(m), 4)
  {
    var p := m.gdpr.posture;
    ghost var rules := GdprChecklist(m);
    findings := prior;
    if !p.lawfulBasisDocumented {
      findings := findings + [GdprLawfulBasisDocumentedGap];
    }
    assert findings == EvaluatePrefix(rules, 1);
    if !p.ropaMaintained {
      findings := findings + [GdprRopaMaintainedGap];
    }
    assert findings == EvaluatePrefix(rules, 2);
    if !p.retentionScheduleDocumented {
      findings := findings + [GdprRetentionScheduleDocumentedGap];
    }
    assert findings == EvaluatePrefix(rules, 3);
    if Get(m.gdpr.lawfulBases, LegitimateInterests) && !p.liaDocumented {
      findings := findings + [GdprLiaDocumentedGap];
    }
  }

  /** Part of `analyse_gdpr_gaps`: the notice and consent items: privacy notice, cookie consent, consent records. */
  method CheckGdprNoticesAndConsent(m: Matter, prior: seq<Finding>) returns (findings: seq<Finding>)
    requires prior == EvaluatePrefix(GdprChecklist(m), 4)
    ensures findings == EvaluatePrefix(GdprChecklist(m), 7)
  {
    var p := m.gdpr.posture;
    ghost var rules := GdprChecklist(m);
    findings := prior;
    if !p.privacyNoticeProvided {
      findings := findings + [GdprPrivacyNoticeProvidedGap];
    }
    assert findings == EvaluatePrefix(rules, 5);
    if !p.cookieConsentCompliant {
      findings := findings + [GdprCookieConsentCompliantGap];
    }
    assert findings == EvaluatePrefix(rules, 6);
    if Get(m.gdpr.lawfulBases, ConsentBasis) && !p.consentRecordsMaintained {
      findings := findings + [GdprConsentRecordsMaintainedGap];
    }
  }

  /** Part of `analyse_gdpr_gaps`: the rights and contract items: rights procedure, Article 28 contracts, transfer mechanism. */
  method CheckGdprRightsAndContracts(m: Matter, prior: seq<Finding>) returns (findings: seq<Finding>)
    requires prior == EvaluatePrefix(GdprChecklist(m), 7)
    ensures findings == EvaluatePrefix(GdprChecklist(m), 10)
  {
    var p := m.gdpr.posture;
    ghost var rules := GdprChecklist(m);
    findings := prior;
    if !p.rightsProcedureDocumented {
      findings := findings + [GdprRightsProcedureDocumentedGap];
    }
    assert findings == EvaluatePrefix(rules, 8);
    if !p.article28ContractsInPlace {
      findings := findings + [GdprArticle28ContractsInPlaceGap];
    }
    assert findings == EvaluatePrefix(rules, 9);
    if m.gdpr.internationalTransfers && !p.transferMechanismInPlace {
      findings := findings + [GdprTransferMechanismInPlaceGap];
    }
  }

  /** Part of `analyse_gdpr_gaps`: the security items: breach procedure, DPIA, privacy by design, staff training. */
  method CheckGdprSecurityAndBreach(m: Matter, prior: seq<Finding>) returns (findings: seq<Finding>)
    requires prior == EvaluatePrefix(GdprChecklist(m), 10)
    ensures findings == EvaluatePrefix(GdprChecklist(m), 14)
  {
    var p := m.gdpr.posture;
    ghost var rules := GdprChecklist(m);
    findings := prior;
    if !p.breachProcedureDocumented {
      findings := findings + [GdprBreachProcedureDocumentedGap];
    }
    assert findings == EvaluatePrefix(rules, 11);
    if m.gdpr.requiresDpia && !p.dpiaConducted {
      findings := findings + [GdprDpiaConductedGap];
    }
    assert findings == EvaluatePrefix(rules, 12);
    if !p.privacyByDesign {
      findings := findings + [GdprPrivacyByDesignGap];
    }
    assert findings == EvaluatePrefix(rules, 13);
    if !p.staffTrainingCurrent {
      findings := findings + [GdprStaffTrainingCurrentGap];
    }
  }

  /** `analyse_gdpr_gaps`: checks each item in turn and appends the finding of every gap. */
  method AnalyseGdprGaps(m: Matter) returns (findings: seq<Finding>)
    ensures findings == GdprFindings(m)
  {
    findings := [];
    findings := CheckGdprDocumentation(m, findings);
    findings := CheckGdprNoticesAndConsent(m, findings);
    findings := CheckGdprRightsAndContracts(m, findings);
    findings := CheckGdprSecurityAndBreach(m, findings);
  }

  /** Part of `analyse_ccpa_gaps`: the notice items: notice at collection, policy review, policy disclosures. */
  method CheckCcpaNotices(m: Matter, prior: seq<Finding>) returns (findings: seq<Finding>)
    requires prior == EvaluatePrefix(CcpaChecklist(m), 0)
    ensures findings == EvaluatePrefix(CcpaChecklist(m), 3)
  {
    var p := m.ccpa.posture;
    ghost var rules := CcpaChecklist(m);
    findings := prior;
    if !p.noticeAtCollection {
      findings := findings + [CcpaNoticeAtCollectionGap];
    }
    assert findings == EvaluatePrefix(rules, 1);
    if !p.policyUpdated12mo {
      findings := findings + [CcpaPolicyUpdated12moGap];
    }
    assert findings == EvaluatePrefix(rules, 2);
    if !p.policyDisclosuresComplete {
      findings := findings + [CcpaPolicyDisclosuresCompleteGap];
    }
  }

  /** Part of `analyse_ccpa_gaps`: the opt-out items: opt-out of sale, Global Privacy Control, limit on sensitive information. */
  method CheckCcpaOptOuts(m: Matter, prior: seq<Finding>) returns (findings: seq<Finding>)
    requires prior == EvaluatePrefix(CcpaChecklist(m), 3)
    ensures findings == EvaluatePrefix(CcpaChecklist(m), 6)
  {
    var p := m.ccpa.posture;
    ghost var rules := CcpaChecklist(m);
    findings := prior;
    if m.ccpa.sellsPi && !p.optOutMechanismInPlace {
      findings := findings + [CcpaOptOutMechanismInPlaceGap];
    }
    assert findings == EvaluatePrefix(rules, 4);
    if !p.gpcHonoured {
      findings := findings + [CcpaGpcHonouredGap];
    }
    assert findings == EvaluatePrefix(rules, 5);
    if m.ccpa.usesSpiBeyondPrimary && !p.spiLimitMechanismInPlace {
      findings := findings + [CcpaSpiLimitMechanismInPlaceGap];
    }
  }

  /** Part of `analyse_ccpa_gaps`: the operational items: request procedure, service-provider contracts, training, deletion verification. */
  method CheckCcpaOperations(m: Matter, prior: seq<Finding>) returns (findings: seq<Finding>)
    requires prior == EvaluatePrefix(CcpaChecklist(m), 6)
    ensures findings == EvaluatePrefix(CcpaChecklist(m), 10)
  {
    var p := m.ccpa.posture;
    ghost var rules := CcpaChecklist(m);
    findings := prior;
    if !p.rightsProcedure45Days {
      findings := findings + [CcpaRightsProcedure45DaysGap];
    }
    assert findings == EvaluatePrefix(rules, 7);
    if !p.serviceProviderContractsCompliant {
      findings := findings + [CcpaServiceProviderContractsCompliantGap];
    }
    assert findings == EvaluatePrefix(rules, 8);
    if !p.staffTrained {
      findings := findings + [CcpaStaffTrainedGap];
    }
    assert findings == EvaluatePrefix(rules, 9);
    if !p.deletionVerificationInPlace {
      findings := findings + [CcpaDeletionVerificationInPlaceGap];
    }
  }

  /** `analyse_ccpa_gaps`: checks each item in turn and appends the finding of every gap. */
  method AnalyseCcpaGaps(m: Matter) returns (findings: seq<Finding>)
    ensures findings == CcpaFindings(m)
  {
    findings := [];
    findings := CheckCcpaNotices(m, findings);
    findings := CheckCcpaOptOuts(m, findings);
    findings := CheckCcpaOperations(m, findings);
  }

  /** Part of `analyse_tdpsa_gaps`: the notice and rights items: privacy notice, 45-day procedure, appeals. */
  method CheckTdpsaNoticeAndRights(m: Matter, prior: seq<Finding>) returns (findings: seq<Finding>)
    requires prior == EvaluatePrefix(TdpsaChecklist(m), 0)
    ensures findings == EvaluatePrefix(TdpsaChecklist(m), 3)
  {
    var p := m.tdpsa.posture;
    ghost var rules := TdpsaChecklist(m);
    findings := prior;
    if !p.privacyNoticeProvided {
      findings := findings + [TdpsaPrivacyNoticeProvidedGap];
    }
    assert findings == EvaluatePrefix(rules, 1);
    if !p.rightsProcedure45Days {
      findings := findings + [TdpsaRightsProcedure45DaysGap];
    }
    assert findings == EvaluatePrefix(rules, 2);
    if !p.appealsProcedure {
      findings := findings + [TdpsaAppealsProcedureGap];
    }
  }

  /** Part of `analyse_tdpsa_gaps`: the opt-out and consent items: opt-out, universal opt-out mechanism, sensitive-data consent. */
  method CheckTdpsaOptOutAndConsent(m: Matter, prior: seq<Finding>) returns (findings: seq<Finding>)
    requires prior == EvaluatePrefix(TdpsaChecklist(m), 3)
    ensures findings == EvaluatePrefix(TdpsaChecklist(m), 6)
  {
    var p := m.tdpsa.posture;
    ghost var rules := TdpsaChecklist(m);
    findings := prior;
    if m.tdpsa.includeOptOutSection && !p.optOutMechanismInPlace {
      findings := findings + [TdpsaOptOutMechanismInPlaceGap];
    }
    assert findings == EvaluatePrefix(rules, 4);
    if !p.uoomSupported {
      findings := findings + [TdpsaUoomSupportedGap];
    }
    assert findings == EvaluatePrefix(rules, 5);
    if m.footprint.processesSensitiveData && !p.sensitiveDataConsentObtained {
      findings := findings + [TdpsaSensitiveDataConsentObtainedGap];
    }
  }

  /** Part of `analyse_tdpsa_gaps`: the processor items: processor contracts, data protection assessments. */
  method CheckTdpsaContracts(m: Matter, prior: seq<Finding>) returns (findings: seq<Finding>)
    requires prior == EvaluatePrefix(TdpsaChecklist(m), 6)
    ensures findings == EvaluatePrefix(TdpsaChecklist(m), 8)
  {
    var p := m.tdpsa.posture;
    ghost var rules := TdpsaChecklist(m);
    findings := prior;
    if !p.dpaContractsInPlace {
      findings := findings + [TdpsaDpaContractsInPlaceGap];
    }
    assert findings == EvaluatePrefix(rules, 7);
    if m.tdpsa.includeOptOutSection && !p.dpaAssessmentsCompleted {
      findings := findings + [TdpsaDpaAssessmentsCompletedGap];
    }
  }

  /** `analyse_tdpsa_gaps`: checks each item in turn and appends the finding of every gap. */
  method AnalyseTdpsaGaps(m: Matter) returns (findings: seq<Finding>)
    ensures findings == TdpsaFindings(m)
  {
    findings := [];
    findings := CheckTdpsaNoticeAndRights(m, findings);
    findings := CheckTdpsaOptOutAndConsent(m, findings);
    findings := CheckTdpsaContracts(m, findings);
  }

  /** Part of `analyse_vcdpa_gaps`: the notice and rights items: privacy notice, 45-day procedure, appeals. */
  method CheckVcdpaNoticeAndRights(m: Matter, prior: seq<Finding>) returns (findings: seq<Finding>)
    requires prior == EvaluatePrefix(VcdpaChecklist(m), 0)
    ensures findings == EvaluatePrefix(VcdpaChecklist(m), 3)
  {
    var p := m.vcdpa.posture;
    ghost var rules := VcdpaChecklist(m);
    findings := prior;
    if !p.privacyNoticeProvided {
      findings := findings + [VcdpaPrivacyNoticeProvidedGap];
    }
    assert findings == EvaluatePrefix(rules, 1);
    if !p.rightsProcedure45Days {
      findings := findings + [VcdpaRightsProcedure45DaysGap];
    }
    assert findings == EvaluatePrefix(rules, 2);
    if !p.appealsProcedure {
      findings := findings + [VcdpaAppealsProcedureGap];
    }
  }

  /** Part of `analyse_vcdpa_gaps`: the opt-out and consent items: opt-out, sensitive-data consent. */
  method CheckVcdpaOptOutAndConsent(m: Matter, prior: seq<Finding>) returns (findings: seq<Finding>)
    requires prior == EvaluatePrefix(VcdpaChecklist(m), 3)
    ensures findings == EvaluatePrefix(VcdpaChecklist(m), 5)
  {
    var p := m.vcdpa.posture;
    ghost var rules := VcdpaChecklist(m);
    findings := prior;
    if m.vcdpa.includeOptOutSection && !p.optOutMechanismInPlace {
      findings := findings + [VcdpaOptOutMechanismInPlaceGap];
    }
    assert findings == EvaluatePrefix(rules, 4);
    if m.vcdpa.processesSensitiveData && !p.sensitiveDataConsentObtained {
      findings := findings + [VcdpaSensitiveDataConsentObtainedGap];
    }
  }

  /** Part of `analyse_vcdpa_gaps`: the processor items: processor contracts, assessments, third-party contracts. */
  method CheckVcdpaContracts(m: Matter, prior: seq<Finding>) returns (findings: seq<Finding>)
    requires prior == EvaluatePrefix(VcdpaChecklist(m), 5)
    ensures findings == EvaluatePrefix(VcdpaChecklist(m), 8)
  {
    var p := m.vcdpa.posture;
    ghost var rules := VcdpaChecklist(m);
    findings := prior;
    if !p.dpaContractsInPlace {
      findings := findings + [VcdpaDpaContractsInPlaceGap];
    }
    assert findings == EvaluatePrefix(rules, 6);
    if m.vcdpa.includeOptOutSection && !p.piaAssessmentsCompleted {
      findings := findings + [VcdpaPiaAssessmentsCompletedGap];
    }
    assert findings == EvaluatePrefix(rules, 7);
    if !p.thirdPartyContractsUpdated {
      findings := findings + [VcdpaThirdPartyContractsUpdatedGap];
    }
  }

  /** `analyse_vcdpa_gaps`: checks each item in turn and appends the finding of every gap. */
  method AnalyseVcdpaGaps(m: Matter) returns (findings: seq<Finding>)
    ensures findings == VcdpaFindings(m)
  {
    findings := [];
    findings := CheckVcdpaNoticeAndRights(m, findings);
    findings := CheckVcdpaOptOutAndConsent(m, findings);
    findings := CheckVcdpaContracts(m, findings);
  }

  /** A jurisdiction is confirmed when its name is among the ticked labels. */
  predicate Confirmed(m: Matter, j: Jurisdiction) {
    j.Name() in TrueValues(m.confirmedJurisdictions)
  }

  /** The checklist evaluator for one statute; across all four, only the GDPR legitimate-interests item is rated Consider Fixing. */
  function StatuteFindings(m: Matter, j: Jurisdiction): (fs: seq<Finding>)
    ensures forall f :: f in fs ==> f.jurisdiction == j
    ensures forall f :: f in fs && f.severity == Consider ==> f == GdprLiaDocumentedGap
  {
    match j
    case GDPR => GdprFindings(m)
    case CCPA => CcpaFindings(m)
    case TDPSA => TdpsaFindings(m)
    case VCDPA => VcdpaFindings(m)
  }

  /** What one statute adds to the report: its findings when it is confirmed, nothing otherwise. */
  function Contribution(m: Matter, j: Jurisdiction): (fs: seq<Finding>)
    ensures fs != [] ==> Confirmed(m, j)
    ensures forall f :: f in fs ==> f.jurisdiction == j
  {
    if Confirmed(m, j) then StatuteFindings(m, j) else []
  }

  /** Each statute's contribution, in the evaluation order. */
  function Contributions(m: Matter): (parts: seq<seq<Finding>>)
    ensures |parts| == StatuteCount
    ensures forall i :: 0 <= i < StatuteCount ==> parts[i] == Contribution(m, StatuteAt(i))
    ensures TaggedByPosition(parts)
  {
    seq(StatuteCount, i requires 0 <= i < StatuteCount => Contribution(m, StatuteAt(i)))
  }

  /** One `if` block of `run_gap_analysis` extends the findings of the first `k` statutes by the next one's contribution. */
  lemma CollectStep(m: Matter, k: nat, before: seq<Finding>, after: seq<Finding>)
    requires k < StatuteCount
    requires before == ConcatPrefix(Contributions(m), k)
    requires after == if Confirmed(m, StatuteAt(k)) then before + StatuteFindings(m, StatuteAt(k)) else before
    ensures after == ConcatPrefix(Contributions(m), k + 1)
  {
  }

  /** `all_findings`: the findings of each confirmed statute, GDPR, CCPA/CPRA, TDPSA, VCDPA in turn. */
  function AllFindings(m: Matter): (all: seq<Finding>)
    ensures forall f :: f in all ==> Confirmed(m, f.jurisdiction) && f in StatuteFindings(m, f.jurisdiction)
  {
    ConcatPrefixMembers(Contributions(m), StatuteCount);
    ConcatPrefix(Contributions(m), StatuteCount)
  }

  /** The result structure of `run_gap_analysis`. */
  datatype GapReport = GapReport(
    all: seq<Finding>,
    byJurisdiction: Buckets,
    bySeverity: BySeverity,
    counts: Counts)

  /** The first half of `run_gap_analysis`: extends the list with the findings of each confirmed statute in turn. */
  method CollectFindings(m: Matter) returns (all: seq<Finding>)
    ensures all == AllFindings(m)
  {
    var confirmed := TrueValues(m.confirmedJurisdictions);
    all := [];
    ghost var before := all;
    if GDPR.Name() in confirmed {
      var fs := AnalyseGdprGaps(m);
      all := all + fs;
    }
    CollectStep(m, 0, before, all);
    before := all;
    if CCPA.Name() in confirmed {
      var fs := AnalyseCcpaGaps(m);
      all := all + fs;
    }
    CollectStep(m, 1, before, all);
    before := all;
    if TDPSA.Name() in confirmed {
      var fs := AnalyseTdpsaGaps(m);
      all := all + fs;
    }
    CollectStep(m, 2, before, all);
    before := all;
    if VCDPA.Name() in confirmed {
      var fs := AnalyseVcdpaGaps(m);
      all := all + fs;
    }
    CollectStep(m, 3, before, all);
  }

  /** The `setdefault` loop of `run_gap_analysis`: files each finding under its jurisdiction, keys in first-seen order. */
  method GroupByJurisdiction(all: seq<Finding>) returns (byJurisdiction: Buckets)
    ensures byJurisdiction == ByJurisdiction(all)
  {
    byJurisdiction := [];
    var i := 0;
    while i < |all|
      invariant i <= |all|
      invariant byJurisdiction == ByJurisdiction(all[..i])
    {
      var f := all[i];
      var k := KeyIndex(byJurisdiction, f.jurisdiction);
      ByJurisdictionSnoc(all[..i], f);
      if k < |byJurisdiction| {
        byJurisdiction := byJurisdiction[k := (byJurisdiction[k].0, byJurisdiction[k].1 + [f])];
      } else {
        byJurisdiction := byJurisdiction + [(f.jurisdiction, [f])];
      }
      assert all[..i + 1] == all[..i] + [f];
      i := i + 1;
    }
    assert all[..i] == all;
  }

  /**
   * `run_gap_analysis`: runs the analyser of each confirmed jurisdiction, then
   * groups the findings by jurisdiction with `setdefault` and by severity.
   */
  method RunGapAnalysis(m: Matter) returns (report: GapReport)
    ensures report.all == AllFindings(m)
    ensures report.byJurisdiction == ByJurisdiction(report.all)
    ensures report.bySeverity == SeverityBuckets(report.all)
    ensures report.counts == CountsOf(report.all)
    ensures Size(report.byJurisdiction) == report.counts.total
  {
    var all := CollectFindings(m);
    var byJurisdiction := GroupByJurisdiction(all);
    ByJurisdictionSize(all);
    report := GapReport(all, byJurisdiction, SeverityBuckets(all), CountsOf(all));
  }

  /** Each jurisdiction's share of the report is its statute's findings when confirmed, and nothing otherwise. */
  lemma AllFindingsOfJurisdiction(m: Matter, j: Jurisdiction)
    ensures OfJurisdiction(AllFindings(m), j) == if Confirmed(m, j) then StatuteFindings(m, j) else []
  {
    OfJurisdictionConcatPrefix(Contributions(m), StatuteCount, j);
    StatuteAtRank(j);
  }

  /** Across the whole report, only the GDPR legitimate-interests item is rated Consider Fixing. */
  lemma OnlyLiaIsConsider(m: Matter)
    ensures forall f :: f in AllFindings(m) && f.severity == Consider ==> f == GdprLiaDocumentedGap
  {
  }
}
