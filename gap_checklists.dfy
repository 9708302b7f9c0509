/**
 * The four fixed compliance checklists of the gap analysis engine, one per
 * statute, written as declarative tables of (trigger, control, finding) rows in
 * the order the source evaluates them, together with the posture answers they
 * read and the properties each table guarantees.
 */
module GapChecklists {
  import opened Basics
  import opened Checkbox
  import opened ChecklistItems
  import opened Findings

  /** Lawful-basis labels the GDPR checklist looks up. */
  const LegitimateInterests := "Legitimate interests (Article 6(1)(f))"
  const ConsentBasis := "Consent (Article 6(1)(a))"

  /** GDPR posture: one control per checklist item, true when the control is in place. */
  datatype GdprPosture = GdprPosture(
    lawfulBasisDocumented: bool,
    ropaMaintained: bool,
    retentionScheduleDocumented: bool,
    liaDocumented: bool,
    privacyNoticeProvided: bool,
    cookieConsentCompliant: bool,
    consentRecordsMaintained: bool,
    rightsProcedureDocumented: bool,
    article28ContractsInPlace: bool,
    transferMechanismInPlace: bool,
    breachProcedureDocumented: bool,
    dpiaConducted: bool,
    privacyByDesign: bool,
    staffTrainingCurrent: bool)
  /** The GDPR answers: posture controls plus the profile facts that trigger conditional items. */
  datatype GdprAnswers = GdprAnswers(
    posture: GdprPosture,
    lawfulBases: Checkboxes,
    internationalTransfers: bool,
    requiresDpia: bool)

  /** CCPA/CPRA posture: one control per checklist item, true when the control is in place. */
  datatype CcpaPosture = CcpaPosture(
    noticeAtCollection: bool,
    policyUpdated12mo: bool,
    policyDisclosuresComplete: bool,
    optOutMechanismInPlace: bool,
    gpcHonoured: bool,
    spiLimitMechanismInPlace: bool,
    rightsProcedure45Days: bool,
    serviceProviderContractsCompliant: bool,
    staffTrained: bool,
    deletionVerificationInPlace: bool)
  datatype CcpaAnswers = CcpaAnswers(posture: CcpaPosture, sellsPi: bool, usesSpiBeyondPrimary: bool)

  /** TDPSA posture: one control per checklist item, true when the control is in place. */
  datatype TdpsaPosture = TdpsaPosture(
    privacyNoticeProvided: bool,
    rightsProcedure45Days: bool,
    appealsProcedure: bool,
    optOutMechanismInPlace: bool,
    uoomSupported: bool,
    sensitiveDataConsentObtained: bool,
    dpaContractsInPlace: bool,
    dpaAssessmentsCompleted: bool)
  datatype TdpsaAnswers = TdpsaAnswers(posture: TdpsaPosture, includeOptOutSection: bool)

  /** VCDPA posture: one control per checklist item, true when the control is in place. */
  datatype VcdpaPosture = VcdpaPosture(
    privacyNoticeProvided: bool,
    rightsProcedure45Days: bool,
    appealsProcedure: bool,
    optOutMechanismInPlace: bool,
    sensitiveDataConsentObtained: bool,
    dpaContractsInPlace: bool,
    piaAssessmentsCompleted: bool,
    thirdPartyContractsUpdated: bool)
  datatype VcdpaAnswers = VcdpaAnswers(posture: VcdpaPosture, includeOptOutSection: bool, processesSensitiveData: bool)

  /** Facts about the client's footprint that the TDPSA checklist reads. */
  datatype Footprint = Footprint(processesSensitiveData: bool)

  /** Everything the gap analysis reads about a matter. */
  datatype Matter = Matter(
    confirmedJurisdictions: Checkboxes,
    footprint: Footprint,
    gdpr: GdprAnswers,
    ccpa: CcpaAnswers,
    tdpsa: TdpsaAnswers,
    vcdpa: VcdpaAnswers)

  // ---------------- GDPR checklist ----------------

  /** The findings `analyse_gdpr_gaps` can report, one per checklist item. */
  const GdprLawfulBasisDocumentedGap := Finding(GDPR, GdprLawfulBasisDocumented, MustFix)
  const GdprRopaMaintainedGap := Finding(GDPR, GdprRopaMaintained, MustFix)
  const GdprRetentionScheduleDocumentedGap := Finding(GDPR, GdprRetentionScheduleDocumented, ShouldFix)
  const GdprLiaDocumentedGap := Finding(GDPR, GdprLiaDocumented, Consider)
  const GdprPrivacyNoticeProvidedGap := Finding(GDPR, GdprPrivacyNoticeProvided, MustFix)
  const GdprCookieConsentCompliantGap := Finding(GDPR, GdprCookieConsentCompliant, ShouldFix)
  const GdprConsentRecordsMaintainedGap := Finding(GDPR, GdprConsentRecordsMaintained, MustFix)
  const GdprRightsProcedureDocumentedGap := Finding(GDPR, GdprRightsProcedureDocumented, MustFix)
  const GdprArticle28ContractsInPlaceGap := Finding(GDPR, GdprArticle28ContractsInPlace, MustFix)
  const GdprTransferMechanismInPlaceGap := Finding(GDPR, GdprTransferMechanismInPlace, MustFix)
  const GdprBreachProcedureDocumentedGap := Finding(GDPR, GdprBreachProcedureDocumented, MustFix)
  const GdprDpiaConductedGap := Finding(GDPR, GdprDpiaConducted, MustFix)
  const GdprPrivacyByDesignGap := Finding(GDPR, GdprPrivacyByDesign, ShouldFix)
  const GdprStaffTrainingCurrentGap := Finding(GDPR, GdprStaffTrainingCurrent, ShouldFix)

  /** Row `k` of the GDPR checklist: the `k`-th check `analyse_gdpr_gaps` makes. */
  function GdprRow(m: Matter, k: nat): Rule
    requires k < 14
  {
    var p := m.gdpr.posture;
    match k
    case 0 => Rule(true, p.lawfulBasisDocumented, GdprLawfulBasisDocumentedGap)
    case 1 => Rule(true, p.ropaMaintained, GdprRopaMaintainedGap)
    case 2 => Rule(true, p.retentionScheduleDocumented, GdprRetentionScheduleDocumentedGap)
    case 3 => Rule(Get(m.gdpr.lawfulBases, LegitimateInterests), p.liaDocumented, GdprLiaDocumentedGap)
    case 4 => Rule(true, p.privacyNoticeProvided, GdprPrivacyNoticeProvidedGap)
    case 5 => Rule(true, p.cookieConsentCompliant, GdprCookieConsentCompliantGap)
    case 6 => Rule(Get(m.gdpr.lawfulBases, ConsentBasis), p.consentRecordsMaintained, GdprConsentRecordsMaintainedGap)
    case 7 => Rule(true, p.rightsProcedureDocumented, GdprRightsProcedureDocumentedGap)
    case 8 => Rule(true, p.article28ContractsInPlace, GdprArticle28ContractsInPlaceGap)
    case 9 => Rule(m.gdpr.internationalTransfers, p.transferMechanismInPlace, GdprTransferMechanismInPlaceGap)
    case 10 => Rule(true, p.breachProcedureDocumented, GdprBreachProcedureDocumentedGap)
    case 11 => Rule(m.gdpr.requiresDpia, p.dpiaConducted, GdprDpiaConductedGap)
    case 12 => Rule(true, p.privacyByDesign, GdprPrivacyByDesignGap)
    case 13 => Rule(true, p.staffTrainingCurrent, GdprStaffTrainingCurrentGap)
    case _ => assert false; Rule(false, false, GdprLawfulBasisDocumentedGap)
  }

  /** The GDPR checklist as (trigger, control, finding) rows, in the order the source checks them. */
  function GdprChecklist(m: Matter): (rules: seq<Rule>)
    ensures |rules| == 14
  {
    seq(14, k requires 0 <= k < 14 => GdprRow(m, k))
  }

  /** Every row is tagged GDPR, and no two rows emit the same finding. */
  lemma GdprChecklistShape(m: Matter)
    ensures AllTagged(GdprChecklist(m), GDPR) && DistinctFindings(GdprChecklist(m))
  {
  }

  /** What `analyse_gdpr_gaps` reports: the findings of the firing rows, in table order. */
  function GdprFindings(m: Matter): (fs: seq<Finding>)
    ensures |fs| <= 14
    ensures forall f :: f in fs ==> f.jurisdiction == GDPR
    // severities: only the legitimate-interests assessment is rated Consider Fixing
    ensures forall f :: f in fs && f.severity == Consider ==> f == GdprLiaDocumentedGap
  {
    var rules := GdprChecklist(m);
    EvaluateMembers(rules);
    GdprChecklistShape(m);
    Evaluate(rules)
  }

  /** Every GDPR control the checklist asks for is in place. */
  predicate GdprClean(m: Matter) {
    var p := m.gdpr.posture;
    && p.lawfulBasisDocumented
    && p.ropaMaintained
    && p.retentionScheduleDocumented
    && (Get(m.gdpr.lawfulBases, LegitimateInterests) ==> p.liaDocumented)
    && p.privacyNoticeProvided
    && p.cookieConsentCompliant
    && (Get(m.gdpr.lawfulBases, ConsentBasis) ==> p.consentRecordsMaintained)
    && p.rightsProcedureDocumented
    && p.article28ContractsInPlace
    && (m.gdpr.internationalTransfers ==> p.transferMechanismInPlace)
    && p.breachProcedureDocumented
    && (m.gdpr.requiresDpia ==> p.dpiaConducted)
    && p.privacyByDesign
    && p.staffTrainingCurrent
  }

  /** The GDPR checklist reports nothing exactly when the posture is clean. */
  lemma GdprNoFindingsIffClean(m: Matter)
    ensures GdprFindings(m) == [] <==> GdprClean(m)
  {
    var rules := GdprChecklist(m);
    EvaluateEmpty(rules);
    if GdprClean(m) {
      forall i | 0 <= i < |rules| ensures !rules[i].Fires() {
      }
    }
    if GdprFindings(m) == [] {
      // instantiate "no row fires" at each row of the table
      assert !(rules[0].Fires() || rules[1].Fires() || rules[2].Fires() || rules[3].Fires() || rules[4].Fires() || rules[5].Fires() || rules[6].Fires() || rules[7].Fires() || rules[8].Fires() || rules[9].Fires() || rules[10].Fires() || rules[11].Fires() || rules[12].Fires() || rules[13].Fires());
    }
  }

  /** Each conditional GDPR item is reported iff its trigger holds and its control is missing. */
  lemma GdprConditionalItems(m: Matter)
    ensures GdprLiaDocumentedGap in GdprFindings(m)
        <==> Get(m.gdpr.lawfulBases, LegitimateInterests) && !m.gdpr.posture.liaDocumented
    ensures GdprConsentRecordsMaintainedGap in GdprFindings(m)
        <==> Get(m.gdpr.lawfulBases, ConsentBasis) && !m.gdpr.posture.consentRecordsMaintained
    ensures GdprTransferMechanismInPlaceGap in GdprFindings(m)
        <==> m.gdpr.internationalTransfers && !m.gdpr.posture.transferMechanismInPlace
    ensures GdprDpiaConductedGap in GdprFindings(m)
        <==> m.gdpr.requiresDpia && !m.gdpr.posture.dpiaConducted
  {
    var rules := GdprChecklist(m);
    GdprChecklistShape(m);
    EvaluateReports(rules, 3);
    EvaluateReports(rules, 6);
    EvaluateReports(rules, 9);
    EvaluateReports(rules, 11);
  }


  // ---------------- CCPA/CPRA checklist ----------------

  /** The findings `analyse_ccpa_gaps` can report, one per checklist item. */
  const CcpaNoticeAtCollectionGap := Finding(CCPA, CcpaNoticeAtCollection, MustFix)
  const CcpaPolicyUpdated12moGap := Finding(CCPA, CcpaPolicyUpdated12mo, MustFix)
  const CcpaPolicyDisclosuresCompleteGap := Finding(CCPA, CcpaPolicyDisclosuresComplete, MustFix)
  const CcpaOptOutMechanismInPlaceGap := Finding(CCPA, CcpaOptOutMechanismInPlace, MustFix)
  const CcpaGpcHonouredGap := Finding(CCPA, CcpaGpcHonoured, MustFix)
  const CcpaSpiLimitMechanismInPlaceGap := Finding(CCPA, CcpaSpiLimitMechanismInPlace, MustFix)
  const CcpaRightsProcedure45DaysGap := Finding(CCPA, CcpaRightsProcedure45Days, MustFix)
  const CcpaServiceProviderContractsCompliantGap := Finding(CCPA, CcpaServiceProviderContractsCompliant, MustFix)
  const CcpaStaffTrainedGap := Finding(CCPA, CcpaStaffTrained, ShouldFix)
  const CcpaDeletionVerificationInPlaceGap := Finding(CCPA, CcpaDeletionVerificationInPlace, ShouldFix)

  /** Row `k` of the CCPA/CPRA checklist: the `k`-th check `analyse_ccpa_gaps` makes. */
  function CcpaRow(m: Matter, k: nat): Rule
    requires k < 10
  {
    var p := m.ccpa.posture;
    match k
    case 0 => Rule(true, p.noticeAtCollection, CcpaNoticeAtCollectionGap)
    case 1 => Rule(true, p.policyUpdated12mo, CcpaPolicyUpdated12moGap)
    case 2 => Rule(true, p.policyDisclosuresComplete, CcpaPolicyDisclosuresCompleteGap)
    case 3 => Rule(m.ccpa.sellsPi, p.optOutMechanismInPlace, CcpaOptOutMechanismInPlaceGap)
    case 4 => Rule(true, p.gpcHonoured, CcpaGpcHonouredGap)
    case 5 => Rule(m.ccpa.usesSpiBeyondPrimary, p.spiLimitMechanismInPlace, CcpaSpiLimitMechanismInPlaceGap)
    case 6 => Rule(true, p.rightsProcedure45Days, CcpaRightsProcedure45DaysGap)
    case 7 => Rule(true, p.serviceProviderContractsCompliant, CcpaServiceProviderContractsCompliantGap)
    case 8 => Rule(true, p.staffTrained, CcpaStaffTrainedGap)
    case 9 => Rule(true, p.deletionVerificationInPlace, CcpaDeletionVerificationInPlaceGap)
    case _ => assert false; Rule(false, false, CcpaNoticeAtCollectionGap)
  }

  /** The CCPA/CPRA checklist as (trigger, control, finding) rows, in the order the source checks them. */
  function CcpaChecklist(m: Matter): (rules: seq<Rule>)
    ensures |rules| == 10
  {
    seq(10, k requires 0 <= k < 10 => CcpaRow(m, k))
  }

  /** Every row is tagged CCPA/CPRA, and no two rows emit the same finding. */
  lemma CcpaChecklistShape(m: Matter)
    ensures AllTagged(CcpaChecklist(m), CCPA) && DistinctFindings(CcpaChecklist(m))
  {
  }

  /** What `analyse_ccpa_gaps` reports: the findings of the firing rows, in table order. */
  function CcpaFindings(m: Matter): (fs: seq<Finding>)
    ensures |fs| <= 10
    ensures forall f :: f in fs ==> f.jurisdiction == CCPA
    // severities: only staff training and deletion verification fall below Must Fix
    ensures forall f :: f in fs && f.severity != MustFix ==> f == CcpaStaffTrainedGap || f == CcpaDeletionVerificationInPlaceGap
  {
    var rules := CcpaChecklist(m);
    EvaluateMembers(rules);
    CcpaChecklistShape(m);
    Evaluate(rules)
  }

  /** Every CCPA/CPRA control the checklist asks for is in place. */
  predicate CcpaClean(m: Matter) {
    var p := m.ccpa.posture;
    && p.noticeAtCollection
    && p.policyUpdated12mo
    && p.policyDisclosuresComplete
    && (m.ccpa.sellsPi ==> p.optOutMechanismInPlace)
    && p.gpcHonoured
    && (m.ccpa.usesSpiBeyondPrimary ==> p.spiLimitMechanismInPlace)
    && p.rightsProcedure45Days
    && p.serviceProviderContractsCompliant
    && p.staffTrained
    && p.deletionVerificationInPlace
  }

  /** The CCPA/CPRA checklist reports nothing exactly when the posture is clean. */
  lemma CcpaNoFindingsIffClean(m: Matter)
    ensures CcpaFindings(m) == [] <==> CcpaClean(m)
  {
    var rules := CcpaChecklist(m);
    EvaluateEmpty(rules);
    if CcpaClean(m) {
      forall i | 0 <= i < |rules| ensures !rules[i].Fires() {
      }
    }
    if CcpaFindings(m) == [] {
      // instantiate "no row fires" at each row of the table
      assert !(rules[0].Fires() || rules[1].Fires() || rules[2].Fires() || rules[3].Fires() || rules[4].Fires() || rules[5].Fires() || rules[6].Fires() || rules[7].Fires() || rules[8].Fires() || rules[9].Fires());
    }
  }

  /** Each conditional CCPA/CPRA item is reported iff its trigger holds and its control is missing. */
  lemma CcpaConditionalItems(m: Matter)
    ensures CcpaOptOutMechanismInPlaceGap in CcpaFindings(m)
        <==> m.ccpa.sellsPi && !m.ccpa.posture.optOutMechanismInPlace
    ensures CcpaSpiLimitMechanismInPlaceGap in CcpaFindings(m)
        <==> m.ccpa.usesSpiBeyondPrimary && !m.ccpa.posture.spiLimitMechanismInPlace
  {
    var rules := CcpaChecklist(m);
    CcpaChecklistShape(m);
    EvaluateReports(rules, 3);
    EvaluateReports(rules, 5);
  }


  // ---------------- TDPSA checklist ----------------

  /** The findings `analyse_tdpsa_gaps` can report, one per checklist item. */
  const TdpsaPrivacyNoticeProvidedGap := Finding(TDPSA, TdpsaPrivacyNoticeProvided, MustFix)
  const TdpsaRightsProcedure45DaysGap := Finding(TDPSA, TdpsaRightsProcedure45Days, MustFix)
  const TdpsaAppealsProcedureGap := Finding(TDPSA, TdpsaAppealsProcedure, MustFix)
  const TdpsaOptOutMechanismInPlaceGap := Finding(TDPSA, TdpsaOptOutMechanismInPlace, MustFix)
  const TdpsaUoomSupportedGap := Finding(TDPSA, TdpsaUoomSupported, MustFix)
  const TdpsaSensitiveDataConsentObtainedGap := Finding(TDPSA, TdpsaSensitiveDataConsentObtained, MustFix)
  const TdpsaDpaContractsInPlaceGap := Finding(TDPSA, TdpsaDpaContractsInPlace, MustFix)
  const TdpsaDpaAssessmentsCompletedGap := Finding(TDPSA, TdpsaDpaAssessmentsCompleted, MustFix)

  /** Row `k` of the TDPSA checklist: the `k`-th check `analyse_tdpsa_gaps` makes. */
  function TdpsaRow(m: Matter, k: nat): Rule
    requires k < 8
  {
    var p := m.tdpsa.posture;
    match k
    case 0 => Rule(true, p.privacyNoticeProvided, TdpsaPrivacyNoticeProvidedGap)
    case 1 => Rule(true, p.rightsProcedure45Days, TdpsaRightsProcedure45DaysGap)
    case 2 => Rule(true, p.appealsProcedure, TdpsaAppealsProcedureGap)
    case 3 => Rule(m.tdpsa.includeOptOutSection, p.optOutMechanismInPlace, TdpsaOptOutMechanismInPlaceGap)
    case 4 => Rule(true, p.uoomSupported, TdpsaUoomSupportedGap)
    case 5 => Rule(m.footprint.processesSensitiveData, p.sensitiveDataConsentObtained, TdpsaSensitiveDataConsentObtainedGap)
    case 6 => Rule(true, p.dpaContractsInPlace, TdpsaDpaContractsInPlaceGap)
    case 7 => Rule(m.tdpsa.includeOptOutSection, p.dpaAssessmentsCompleted, TdpsaDpaAssessmentsCompletedGap)
    case _ => assert false; Rule(false, false, TdpsaPrivacyNoticeProvidedGap)
  }

  /** The TDPSA checklist as (trigger, control, finding) rows, in the order the source checks them. */
  function TdpsaChecklist(m: Matter): (rules: seq<Rule>)
    ensures |rules| == 8
  {
    seq(8, k requires 0 <= k < 8 => TdpsaRow(m, k))
  }

  /** Every row is tagged TDPSA, and no two rows emit the same finding. */
  lemma TdpsaChecklistShape(m: Matter)
    ensures AllTagged(TdpsaChecklist(m), TDPSA) && DistinctFindings(TdpsaChecklist(m))
  {
  }

  /** What `analyse_tdpsa_gaps` reports: the findings of the firing rows, in table order. */
  function TdpsaFindings(m: Matter): (fs: seq<Finding>)
    ensures |fs| <= 8
    ensures forall f :: f in fs ==> f.jurisdiction == TDPSA
    // severities: every TDPSA finding is rated Must Fix
    ensures forall f :: f in fs ==> f.severity == MustFix
  {
    var rules := TdpsaChecklist(m);
    EvaluateMembers(rules);
    TdpsaChecklistShape(m);
    Evaluate(rules)
  }

  /** Every TDPSA control the checklist asks for is in place. */
  predicate TdpsaClean(m: Matter) {
    var p := m.tdpsa.posture;
    && p.privacyNoticeProvided
    && p.rightsProcedure45Days
    && p.appealsProcedure
    && (m.tdpsa.includeOptOutSection ==> p.optOutMechanismInPlace)
    && p.uoomSupported
    && (m.footprint.processesSensitiveData ==> p.sensitiveDataConsentObtained)
    && p.dpaContractsInPlace
    && (m.tdpsa.includeOptOutSection ==> p.dpaAssessmentsCompleted)
  }

  /** The TDPSA checklist reports nothing exactly when the posture is clean. */
  lemma TdpsaNoFindingsIffClean(m: Matter)
    ensures TdpsaFindings(m) == [] <==> TdpsaClean(m)
  {
    var rules := TdpsaChecklist(m);
    EvaluateEmpty(rules);
    if TdpsaClean(m) {
      forall i | 0 <= i < |rules| ensures !rules[i].Fires() {
      }
    }
    if TdpsaFindings(m) == [] {
      // instantiate "no row fires" at each row of the table
      assert !(rules[0].Fires() || rules[1].Fires() || rules[2].Fires() || rules[3].Fires() || rules[4].Fires() || rules[5].Fires() || rules[6].Fires() || rules[7].Fires());
    }
  }

  /** Each conditional TDPSA item is reported iff its trigger holds and its control is missing. */
  lemma TdpsaConditionalItems(m: Matter)
    ensures TdpsaOptOutMechanismInPlaceGap in TdpsaFindings(m)
        <==> m.tdpsa.includeOptOutSection && !m.tdpsa.posture.optOutMechanismInPlace
    ensures TdpsaSensitiveDataConsentObtainedGap in TdpsaFindings(m)
        <==> m.footprint.processesSensitiveData && !m.tdpsa.posture.sensitiveDataConsentObtained
    ensures TdpsaDpaAssessmentsCompletedGap in TdpsaFindings(m)
        <==> m.tdpsa.includeOptOutSection && !m.tdpsa.posture.dpaAssessmentsCompleted
  {
    var rules := TdpsaChecklist(m);
    TdpsaChecklistShape(m);
    EvaluateReports(rules, 3);
    EvaluateReports(rules, 5);
    EvaluateReports(rules, 7);
  }


  // ---------------- VCDPA checklist ----------------

  /** The findings `analyse_vcdpa_gaps` can report, one per checklist item. */
  const VcdpaPrivacyNoticeProvidedGap := Finding(VCDPA, VcdpaPrivacyNoticeProvided, MustFix)
  const VcdpaRightsProcedure45DaysGap := Finding(VCDPA, VcdpaRightsProcedure45Days, MustFix)
  const VcdpaAppealsProcedureGap := Finding(VCDPA, VcdpaAppealsProcedure, MustFix)
  const VcdpaOptOutMechanismInPlaceGap := Finding(VCDPA, VcdpaOptOutMechanismInPlace, MustFix)
  const VcdpaSensitiveDataConsentObtainedGap := Finding(VCDPA, VcdpaSensitiveDataConsentObtained, MustFix)
  const VcdpaDpaContractsInPlaceGap := Finding(VCDPA, VcdpaDpaContractsInPlace, MustFix)
  const VcdpaPiaAssessmentsCompletedGap := Finding(VCDPA, VcdpaPiaAssessmentsCompleted, MustFix)
  const VcdpaThirdPartyContractsUpdatedGap := Finding(VCDPA, VcdpaThirdPartyContractsUpdated, ShouldFix)

  /** Row `k` of the VCDPA checklist: the `k`-th check `analyse_vcdpa_gaps` makes. */
  function VcdpaRow(m: Matter, k: nat): Rule
    requires k < 8
  {
    var p := m.vcdpa.posture;
    match k
    case 0 => Rule(true, p.privacyNoticeProvided, VcdpaPrivacyNoticeProvidedGap)
    case 1 => Rule(true, p.rightsProcedure45Days, VcdpaRightsProcedure45DaysGap)
    case 2 => Rule(true, p.appealsProcedure, VcdpaAppealsProcedureGap)
    case 3 => Rule(m.vcdpa.includeOptOutSection, p.optOutMechanismInPlace, VcdpaOptOutMechanismInPlaceGap)
    case 4 => Rule(m.vcdpa.processesSensitiveData, p.sensitiveDataConsentObtained, VcdpaSensitiveDataConsentObtainedGap)
    case 5 => Rule(true, p.dpaContractsInPlace, VcdpaDpaContractsInPlaceGap)
    case 6 => Rule(m.vcdpa.includeOptOutSection, p.piaAssessmentsCompleted, VcdpaPiaAssessmentsCompletedGap)
    case 7 => Rule(true, p.thirdPartyContractsUpdated, VcdpaThirdPartyContractsUpdatedGap)
    case _ => assert false; Rule(false, false, VcdpaPrivacyNoticeProvidedGap)
  }

  /** The VCDPA checklist as (trigger, control, finding) rows, in the order the source checks them. */
  function VcdpaChecklist(m: Matter): (rules: seq<Rule>)
    ensures |rules| == 8
  {
    seq(8, k requires 0 <= k < 8 => VcdpaRow(m, k))
  }

  /** Every row is tagged VCDPA, and no two rows emit the same finding. */
  lemma VcdpaChecklistShape(m: Matter)
    ensures AllTagged(VcdpaChecklist(m), VCDPA) && DistinctFindings(VcdpaChecklist(m))
  {
  }

  /** What `analyse_vcdpa_gaps` reports: the findings of the firing rows, in table order. */
  function VcdpaFindings(m: Matter): (fs: seq<Finding>)
    ensures |fs| <= 8
    ensures forall f :: f in fs ==> f.jurisdiction == VCDPA
    // severities: only the third-party contract review falls below Must Fix
    ensures forall f :: f in fs && f.severity != MustFix ==> f == VcdpaThirdPartyContractsUpdatedGap
  {
    var rules := VcdpaChecklist(m);
    EvaluateMembers(rules);
    VcdpaChecklistShape(m);
    Evaluate(rules)
  }

  /** Every VCDPA control the checklist asks for is in place. */
  predicate VcdpaClean(m: Matter) {
    var p := m.vcdpa.posture;
    && p.privacyNoticeProvided
    && p.rightsProcedure45Days
    && p.appealsProcedure
    && (m.vcdpa.includeOptOutSection ==> p.optOutMechanismInPlace)
    && (m.vcdpa.processesSensitiveData ==> p.sensitiveDataConsentObtained)
    && p.dpaContractsInPlace
    && (m.vcdpa.includeOptOutSection ==> p.piaAssessmentsCompleted)
    && p.thirdPartyContractsUpdated
  }

  /** The VCDPA checklist reports nothing exactly when the posture is clean. */
  lemma VcdpaNoFindingsIffClean(m: Matter)
    ensures VcdpaFindings(m) == [] <==> VcdpaClean(m)
  {
    var rules := VcdpaChecklist(m);
    EvaluateEmpty(rules);
    if VcdpaClean(m) {
      forall i | 0 <= i < |rules| ensures !rules[i].Fires() {
      }
    }
    if VcdpaFindings(m) == [] {
      // instantiate "no row fires" at each row of the table
      assert !(rules[0].Fires() || rules[1].Fires() || rules[2].Fires() || rules[3].Fires() || rules[4].Fires() || rules[5].Fires() || rules[6].Fires() || rules[7].Fires());
    }
  }

  /** Each conditional VCDPA item is reported iff its trigger holds and its control is missing. */
  lemma VcdpaConditionalItems(m: Matter)
    ensures VcdpaOptOutMechanismInPlaceGap in VcdpaFindings(m)
        <==> m.vcdpa.includeOptOutSection && !m.vcdpa.posture.optOutMechanismInPlace
    ensures VcdpaSensitiveDataConsentObtainedGap in VcdpaFindings(m)
        <==> m.vcdpa.processesSensitiveData && !m.vcdpa.posture.sensitiveDataConsentObtained
    ensures VcdpaPiaAssessmentsCompletedGap in VcdpaFindings(m)
        <==> m.vcdpa.includeOptOutSection && !m.vcdpa.posture.piaAssessmentsCompleted
  {
    var rules := VcdpaChecklist(m);
    VcdpaChecklistShape(m);
    EvaluateReports(rules, 3);
    EvaluateReports(rules, 4);
    EvaluateReports(rules, 6);
  }

  /**
   * Documenting the lawful basis removes the lawful-basis finding, which comes
   * first, and changes nothing else.
   */
  lemma GdprLawfulBasisRemediated(m: Matter)
    requires !m.gdpr.posture.lawfulBasisDocumented
    ensures var fixed := m.(gdpr := m.gdpr.(posture := m.gdpr.posture.(lawfulBasisDocumented := true)));
            GdprFindings(m) == [GdprLawfulBasisDocumentedGap] + GdprFindings(fixed)
  {
    var fixed := m.(gdpr := m.gdpr.(posture := m.gdpr.posture.(lawfulBasisDocumented := true)));
    var rules, rules' := GdprChecklist(m), GdprChecklist(fixed);
    assert rules == [rules[0]] + rules[1..] && rules' == [rules'[0]] + rules[1..];
    EvaluateAppend([rules[0]], rules[1..]);
    EvaluateAppend([rules'[0]], rules[1..]);
  }

  /**
   * Completing the data protection assessments removes the assessment finding,
   * which comes last, and changes nothing else.
   */
  lemma TdpsaAssessmentsRemediated(m: Matter)
    requires m.tdpsa.includeOptOutSection && !m.tdpsa.posture.dpaAssessmentsCompleted
    ensures var fixed := m.(tdpsa := m.tdpsa.(posture := m.tdpsa.posture.(dpaAssessmentsCompleted := true)));
            TdpsaFindings(m) == TdpsaFindings(fixed) + [TdpsaDpaAssessmentsCompletedGap]
  {
    var fixed := m.(tdpsa := m.tdpsa.(posture := m.tdpsa.posture.(dpaAssessmentsCompleted := true)));
    var rules, rules' := TdpsaChecklist(m), TdpsaChecklist(fixed);
    EvaluatePrefixAgree(rules, rules', 7);
  }
}
