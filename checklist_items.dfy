/**
 * The checklist items of the gap analysis engine and the fixed texts each one
 * reports: the requirement's short name, its statutory authority, the client's
 * current state and the gap narrative. Each item's texts are constants of the
 * source; the model keeps them out of the proofs by naming the item instead.
 */
module ChecklistItems {

  datatype ItemText = ItemText(requirement: string, authority: string, currentState: string, gap: string)

  /** Every checklist item of the four statutes, in checklist order. */
  datatype Item =
    | GdprLawfulBasisDocumented  // gap_analysis_engine.py:69-79
    | GdprRopaMaintained  // gap_analysis_engine.py:81-90
    | GdprRetentionScheduleDocumented  // gap_analysis_engine.py:92-101
    | GdprLiaDocumented  // gap_analysis_engine.py:103-114
    | GdprPrivacyNoticeProvided  // gap_analysis_engine.py:118-127
    | GdprCookieConsentCompliant  // gap_analysis_engine.py:129-139
    | GdprConsentRecordsMaintained  // gap_analysis_engine.py:141-152
    | GdprRightsProcedureDocumented  // gap_analysis_engine.py:156-166
    | GdprArticle28ContractsInPlace  // gap_analysis_engine.py:168-178
    | GdprTransferMechanismInPlace  // gap_analysis_engine.py:180-190
    | GdprBreachProcedureDocumented  // gap_analysis_engine.py:194-204
    | GdprDpiaConducted  // gap_analysis_engine.py:206-216
    | GdprPrivacyByDesign  // gap_analysis_engine.py:218-227
    | GdprStaffTrainingCurrent  // gap_analysis_engine.py:229-239
    | CcpaNoticeAtCollection  // gap_analysis_engine.py:256-266
    | CcpaPolicyUpdated12mo  // gap_analysis_engine.py:268-277
    | CcpaPolicyDisclosuresComplete  // gap_analysis_engine.py:279-290
    | CcpaOptOutMechanismInPlace  // gap_analysis_engine.py:292-302
    | CcpaGpcHonoured  // gap_analysis_engine.py:304-314
    | CcpaSpiLimitMechanismInPlace  // gap_analysis_engine.py:316-326
    | CcpaRightsProcedure45Days  // gap_analysis_engine.py:328-338
    | CcpaServiceProviderContractsCompliant  // gap_analysis_engine.py:340-350
    | CcpaStaffTrained  // gap_analysis_engine.py:352-361
    | CcpaDeletionVerificationInPlace  // gap_analysis_engine.py:363-372
    | TdpsaPrivacyNoticeProvided  // gap_analysis_engine.py:389-398
    | TdpsaRightsProcedure45Days  // gap_analysis_engine.py:400-409
    | TdpsaAppealsProcedure  // gap_analysis_engine.py:411-420
    | TdpsaOptOutMechanismInPlace  // gap_analysis_engine.py:422-432
    | TdpsaUoomSupported  // gap_analysis_engine.py:434-444
    | TdpsaSensitiveDataConsentObtained  // gap_analysis_engine.py:446-455
    | TdpsaDpaContractsInPlace  // gap_analysis_engine.py:457-466
    | TdpsaDpaAssessmentsCompleted  // gap_analysis_engine.py:468-477
    | VcdpaPrivacyNoticeProvided  // gap_analysis_engine.py:494-503
    | VcdpaRightsProcedure45Days  // gap_analysis_engine.py:505-514
    | VcdpaAppealsProcedure  // gap_analysis_engine.py:516-525
    | VcdpaOptOutMechanismInPlace  // gap_analysis_engine.py:527-537
    | VcdpaSensitiveDataConsentObtained  // gap_analysis_engine.py:539-549
    | VcdpaDpaContractsInPlace  // gap_analysis_engine.py:551-561
    | VcdpaPiaAssessmentsCompleted  // gap_analysis_engine.py:563-573
    | VcdpaThirdPartyContractsUpdated  // gap_analysis_engine.py:575-584
  {
    /** The texts `_gap` receives for this item. */
    function Text(): ItemText {
      match this
      case GdprLawfulBasisDocumented => ItemText(
        "Lawful Basis Documentation",
        "Article 6 GDPR",
        "No documented lawful basis for processing activities.",
        "The client has not documented the lawful basis relied upon for each category of processing activity. Controllers must be able to demonstrate compliance with Article 5(2) accountability principle.")
      case GdprRopaMaintained => ItemText(
        "Record of Processing Activities (RoPA)",
        "Article 30 GDPR",
        "No RoPA maintained.",
        "The client does not maintain a Record of Processing Activities. This is a mandatory requirement for most controllers and processors.")
      case GdprRetentionScheduleDocumented => ItemText(
        "Data Retention Schedule",
        "Article 5(1)(e) GDPR (storage limitation)",
        "No documented data retention schedule.",
        "The client has no documented schedule defining how long personal data is retained and the criteria used to determine retention periods.")
      case GdprLiaDocumented => ItemText(
        "Legitimate Interests Assessment (LIA)",
        "Article 6(1)(f) GDPR",
        "Legitimate interests relied upon but no LIA documented.",
        "Where legitimate interests is used as a lawful basis, a Legitimate Interests Assessment should be documented to demonstrate the balancing test has been performed.")
      case GdprPrivacyNoticeProvided => ItemText(
        "Privacy Notice at Collection",
        "Articles 13 and 14 GDPR",
        "No privacy notice provided to data subjects at point of collection.",
        "The client does not currently provide a compliant privacy notice at or before the point of data collection as required by Articles 13/14.")
      case GdprCookieConsentCompliant => ItemText(
        "Cookie Consent Mechanism",
        "ePrivacy Directive; GDPR Article 6",
        "Cookie consent mechanism absent or non-compliant.",
        "The client does not have a compliant cookie consent mechanism. Non-essential cookies require prior, freely given, specific, informed, and unambiguous consent.")
      case GdprConsentRecordsMaintained => ItemText(
        "Consent Records",
        "Article 7(1) GDPR",
        "Consent relied upon but no mechanism to record or evidence consent.",
        "Where consent is the lawful basis, the controller must be able to demonstrate that the data subject has consented. No consent recording mechanism is currently in place.")
      case GdprRightsProcedureDocumented => ItemText(
        "Data Subject Rights Procedure",
        "Articles 15–22 GDPR",
        "No documented procedure for handling data subject rights requests.",
        "The client has no documented procedure for receiving, verifying, and responding to data subject rights requests within the one-month statutory deadline.")
      case GdprArticle28ContractsInPlace => ItemText(
        "Processor Contracts (Article 28 DPAs)",
        "Article 28 GDPR",
        "Article 28-compliant Data Processing Agreements not in place with all processors.",
        "The client does not have compliant Data Processing Agreements with all processors. This is a mandatory requirement wherever a processor handles personal data on the controller's behalf.")
      case GdprTransferMechanismInPlace => ItemText(
        "International Transfer Mechanism",
        "Articles 44–49 GDPR",
        "Personal data transferred outside UK/EEA without an adequate transfer mechanism.",
        "The client transfers personal data to third countries but does not have an appropriate transfer mechanism (adequacy decision, SCCs, BCRs, or IDTA) in place as required by Chapter V GDPR.")
      case GdprBreachProcedureDocumented => ItemText(
        "Data Breach Response Procedure",
        "Articles 33 and 34 GDPR",
        "No documented breach detection, assessment, and notification procedure.",
        "The client has no documented procedure for detecting, assessing, and notifying the supervisory authority (within 72 hours) and affected data subjects of personal data breaches.")
      case GdprDpiaConducted => ItemText(
        "Data Protection Impact Assessment (DPIA)",
        "Article 35 GDPR",
        "High-risk processing identified but no DPIA conducted.",
        "The client's processing activities indicate that a DPIA is likely required under Article 35, but none has been conducted. A DPIA is mandatory before commencing high-risk processing.")
      case GdprPrivacyByDesign => ItemText(
        "Privacy by Design and Default",
        "Article 25 GDPR",
        "Privacy by design principles not embedded in new projects or systems.",
        "The client does not currently implement data protection by design and by default when developing new products, services, or systems.")
      case GdprStaffTrainingCurrent => ItemText(
        "Staff Data Protection Training",
        "Article 5(2) GDPR (accountability); Article 39(1)(b)",
        "Staff have not received data protection training in the last 12 months.",
        "No evidence of current staff data protection training. Regular training is a key element of the accountability principle and a DPO obligation where a DPO is appointed.")
      case CcpaNoticeAtCollection => ItemText(
        "Notice at Collection",
        "Cal. Civ. Code \U{00A7}1798.100(a)",
        "No privacy notice at collection provided to California consumers.",
        "The client does not provide a notice at or before the point of collecting personal information disclosing the categories of PI collected and the purposes for which it is used.")
      case CcpaPolicyUpdated12mo => ItemText(
        "Privacy Policy Currency",
        "Cal. Civ. Code \U{00A7}1798.130(a)(5)",
        "Published privacy policy not updated within the last 12 months.",
        "Businesses subject to CCPA must update their privacy policy at least once every 12 months.")
      case CcpaPolicyDisclosuresComplete => ItemText(
        "Required Privacy Policy Disclosures",
        "Cal. Civ. Code \U{00A7}1798.130(a)(5)",
        "Privacy policy does not include all required CCPA/CPRA disclosures.",
        "The client's current privacy policy is missing one or more of the disclosures required by CCPA/CPRA, including categories of PI collected, sources, purposes, third-party disclosures, and consumer rights.")
      case CcpaOptOutMechanismInPlace => ItemText(
        "\"Do Not Sell or Share\" Opt-Out Mechanism",
        "Cal. Civ. Code \U{00A7}1798.120",
        "Client sells/shares PI but no opt-out mechanism is in place.",
        "The client sells or shares personal information but has not implemented a \"Do Not Sell or Share My Personal Information\" link or equivalent mechanism as required.")
      case CcpaGpcHonoured => ItemText(
        "Global Privacy Control (GPC) Signal",
        "CPPA Regulations \U{00A7}999.315(d)",
        "Global Privacy Control signal not honoured.",
        "The client does not automatically honour the Global Privacy Control opt-out signal. This is required under CPPA regulations for businesses subject to CCPA/CPRA.")
      case CcpaSpiLimitMechanismInPlace => ItemText(
        "\"Limit Use of Sensitive Personal Information\" Mechanism",
        "Cal. Civ. Code \U{00A7}1798.121",
        "SPI used beyond primary purpose but no limit mechanism in place.",
        "The client uses sensitive personal information beyond what is necessary for the primary purpose but has not provided a mechanism for consumers to limit such use as required by \U{00A7}1798.121.")
      case CcpaRightsProcedure45Days => ItemText(
        "Consumer Rights Request Procedure (45-day)",
        "Cal. Civ. Code \U{00A7}1798.105, \U{00A7}1798.106",
        "No documented procedure to respond to consumer rights requests within 45 days.",
        "The client has no documented procedure for receiving and responding to consumer rights requests within the 45-day statutory deadline (extendable by an additional 45 days with notice).")
      case CcpaServiceProviderContractsCompliant => ItemText(
        "Service Provider and Contractor Contracts",
        "Cal. Civ. Code \U{00A7}1798.140(ag)",
        "Service provider/contractor agreements do not include required CPRA provisions.",
        "Contracts with service providers, contractors, and third parties must include specific provisions required by CPRA. Current contracts do not meet these requirements.")
      case CcpaStaffTrained => ItemText(
        "Staff Training on Consumer Rights",
        "Cal. Civ. Code \U{00A7}1798.135(a)(3)",
        "Staff who handle consumer rights requests have not been trained.",
        "Businesses must train all individuals responsible for handling consumer inquiries about CCPA/CPRA privacy practices.")
      case CcpaDeletionVerificationInPlace => ItemText(
        "Two-Step Verification for Deletion Requests",
        "CPPA Regulations \U{00A7}999.323",
        "No two-step verification process for deletion requests implemented.",
        "A two-step verification process for online deletion requests is recommended under CPPA regulations to reduce fraudulent requests.")
      case TdpsaPrivacyNoticeProvided => ItemText(
        "Privacy Notice",
        "Tex. Bus. & Com. Code \U{00A7}541.101",
        "No TDPSA-compliant privacy notice provided to Texas consumers.",
        "Controllers must provide consumers with a reasonably accessible, clear, and meaningful privacy notice covering required disclosures.")
      case TdpsaRightsProcedure45Days => ItemText(
        "Consumer Rights Response Procedure (45-day)",
        "Tex. Bus. & Com. Code \U{00A7}541.052",
        "No documented procedure to respond to consumer requests within 45 days.",
        "Controllers must respond to authenticated consumer rights requests within 45 days, with a possible 45-day extension on notice.")
      case TdpsaAppealsProcedure => ItemText(
        "Consumer Appeals Procedure",
        "Tex. Bus. & Com. Code \U{00A7}541.053",
        "No appeals procedure in place for denied consumer requests.",
        "Controllers must establish an internal appeals process for consumers to appeal the denial of a rights request.")
      case TdpsaOptOutMechanismInPlace => ItemText(
        "Opt-Out Mechanism for Targeted Advertising / Sale / Profiling",
        "Tex. Bus. & Com. Code \U{00A7}541.051",
        "No opt-out mechanism in place for applicable processing activities.",
        "The client engages in targeted advertising, sale of personal data, or profiling with significant effects but has not provided a clear mechanism for consumers to opt out.")
      case TdpsaUoomSupported => ItemText(
        "Universal Opt-Out Mechanism (UOOM)",
        "Tex. Bus. & Com. Code \U{00A7}541.056",
        "Universal Opt-Out Mechanism not supported.",
        "Controllers must honour a universal opt-out mechanism recognised by the Texas Attorney General. The client does not currently support any such mechanism.")
      case TdpsaSensitiveDataConsentObtained => ItemText(
        "Sensitive Data Opt-In Consent",
        "Tex. Bus. & Com. Code \U{00A7}541.101(b)",
        "Sensitive data processed without opt-in consent mechanism.",
        "Processing of sensitive personal data requires the consumer's prior opt-in consent. No consent mechanism is currently in place.")
      case TdpsaDpaContractsInPlace => ItemText(
        "Data Processing Agreements with Processors",
        "Tex. Bus. & Com. Code \U{00A7}541.104",
        "Data Processing Agreements with processors not in place.",
        "Controllers must enter into binding contracts with processors that include required data protection provisions.")
      case TdpsaDpaAssessmentsCompleted => ItemText(
        "Data Protection Assessments",
        "Tex. Bus. & Com. Code \U{00A7}541.105",
        "Data Protection Assessments not completed for high-risk processing.",
        "Controllers must conduct and document Data Protection Assessments before engaging in processing that presents a heightened risk of harm.")
      case VcdpaPrivacyNoticeProvided => ItemText(
        "Privacy Notice",
        "Va. Code Ann. \U{00A7}59.1-578(A)",
        "No VCDPA-compliant privacy notice provided to Virginia consumers.",
        "Controllers must provide consumers with a reasonably accessible privacy notice that includes all disclosures required by \U{00A7}59.1-578.")
      case VcdpaRightsProcedure45Days => ItemText(
        "Consumer Rights Response Procedure (45-day)",
        "Va. Code Ann. \U{00A7}59.1-581(A)",
        "No documented procedure to respond to consumer requests within 45 days.",
        "Controllers must respond to authenticated consumer rights requests within 45 days. An additional 45-day extension is permitted with notice.")
      case VcdpaAppealsProcedure => ItemText(
        "Consumer Appeals Procedure",
        "Va. Code Ann. \U{00A7}59.1-581(C)",
        "No appeals procedure in place for denied consumer requests.",
        "Controllers must establish and make available an internal process for consumers to appeal the denial of any rights request.")
      case VcdpaOptOutMechanismInPlace => ItemText(
        "Opt-Out Mechanism for Targeted Advertising / Sale / Profiling",
        "Va. Code Ann. \U{00A7}59.1-578(A)(5)",
        "No opt-out mechanism in place for applicable processing activities.",
        "The client engages in targeted advertising, sale of personal data, or profiling with significant effects but has not provided a mechanism for consumers to opt out.")
      case VcdpaSensitiveDataConsentObtained => ItemText(
        "Sensitive Data Opt-In Consent",
        "Va. Code Ann. \U{00A7}59.1-578(B)",
        "Sensitive data processed without opt-in consent.",
        "Processing of sensitive data requires the consumer's prior, freely given, specific, and unambiguous opt-in consent. No such mechanism is currently in place.")
      case VcdpaDpaContractsInPlace => ItemText(
        "Data Processing Agreements with Processors",
        "Va. Code Ann. \U{00A7}59.1-580",
        "Data Processing Agreements with processors not in place.",
        "Controllers must enter into binding contracts with processors governing the processing of personal data and including all provisions required by \U{00A7}59.1-580.")
      case VcdpaPiaAssessmentsCompleted => ItemText(
        "Data Protection Impact Assessments (PIAs)",
        "Va. Code Ann. \U{00A7}59.1-582",
        "Data Protection Impact Assessments not completed for high-risk processing.",
        "Controllers must conduct and document Data Protection Impact Assessments for processing activities that present a heightened risk of harm to consumers.")
      case VcdpaThirdPartyContractsUpdated => ItemText(
        "Third-Party Contracts Updated for VCDPA",
        "Va. Code Ann. \U{00A7}59.1-580",
        "Contracts with third parties not reviewed or updated for VCDPA compliance.",
        "Existing contracts with third parties who receive personal data should be reviewed and updated to include VCDPA-required provisions.")
    }
  }
}
