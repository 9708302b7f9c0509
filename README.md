# Privacy document generator: jurisdiction detection and gap analysis

This project models the decision logic of a docassemble interview that drafts
privacy compliance documents for a law firm's clients. The model covers three
parts of it:

- **Jurisdiction detection** (`jurisdiction_engine.py`). From the regions where a client
  operates and the regions where its consumers live, four detectors decide whether GDPR,
  CCPA/CPRA, the Texas TDPSA and the Virginia VCDPA apply. Each one gives a reason.
  - Each detector first checks for a presence in the region. The TDPSA detector then applies the SBA small-business exemption. The three state acts then test their numeric thresholds.
  - A DPIA flag scans two fixed lists of high-risk data types and processing purposes.
- **Gap analysis** (`gap_analysis_engine.py`). For every statute the attorney has
  confirmed, a fixed checklist compares the client's compliance posture against the
  statute's requirements.
  - A checklist item whose control is missing reports a constant finding with a
    severity (Must Fix, Should Fix, Consider Fixing). Some items also need a trigger.
  - `run_gap_analysis` joins the findings in the order GDPR, CCPA/CPRA, TDPSA, VCDPA.
    It then groups them by jurisdiction and by severity and counts them.
- **GDPR helpers** (`gdpr_module.py`). These list the ticked labels of a checkbox
  answer, and there is a second DPIA flag with its own lists.

Modules, one concept each:

- `Basics`: the statutes and an option type.
- `Checkbox`: checkbox answers. Each is an insertion-ordered list of label/boolean pairs
  with distinct labels, read with `Get` (an absent label reads as false) and `TrueValues`.
- `ChecklistItems`: the fixed texts of every checklist item.
- `Findings`: a checklist as a table of rules, and `Evaluate`, which gives the findings
  of the rules that fire.
- `GapChecklists`: the four tables and the properties of what each one reports.
- `GapAnalysis`: the analysers, written as the source's run of conditional appends and
  proved equal to their tables, and the report builder.
- `Aggregation`: grouping by jurisdiction and by severity.
- `JurisdictionEngine` and `GdprModule`: the other two source files.

## Model

| member | source | states |
|---|---|---|
| Checkbox.Get | docassemble/privacydocgenerator/gdpr_module.py:50-56 | a label reads as ticked exactly when the answer holds it with value true; an absent label reads as false |
| Checkbox.TrueValues | docassemble/privacydocgenerator/gdpr_module.py:14 | lists exactly the labels whose value is true, no more of them than the answer has |
| Checkbox.TrueValuesAppend | docassemble/privacydocgenerator/gdpr_module.py:14 | the filter distributes over concatenation, so the labels keep the answer's order |
| Checkbox.TrueValuesDistinct | docassemble/privacydocgenerator/gdpr_module.py:14 | each ticked label is listed once |
| Checkbox.TrueValuesNoneTicked | docassemble/privacydocgenerator/gdpr_module.py:14 | the list is empty iff no entry is ticked, in particular for an empty answer |
| Checkbox.AnyTicked | docassemble/privacydocgenerator/jurisdiction_engine.py:284-290 | some label of the list is ticked iff some index holds a ticked label |
| Basics.NamesDistinct | docassemble/privacydocgenerator/gap_analysis_engine.py:613-631 | no two statutes share a name, so keying by name and keying by statute group alike |
| Basics.StatuteAt | docassemble/privacydocgenerator/jurisdiction_engine.py:239-257 | the statute at each position of the fixed order has that rank |
| Basics.StatuteAtRank | docassemble/privacydocgenerator/jurisdiction_engine.py:239-257 | every statute sits at its own rank, so the order lists each statute once |
| GdprModule.FormatDataTypes | docassemble/privacydocgenerator/gdpr_module.py:9-14 | lists exactly the ticked data types, at most one per entry |
| GdprModule.FormatPurposes | docassemble/privacydocgenerator/gdpr_module.py:17-22 | lists exactly the ticked purposes, at most one per entry |
| GdprModule.FormatLawfulBases | docassemble/privacydocgenerator/gdpr_module.py:25-30 | lists exactly the ticked lawful bases, at most one per entry |
| GdprModule.FormatsAgree | docassemble/privacydocgenerator/gdpr_module.py:9-30 | the three views agree on the same answer |
| GdprModule.FormatKeepsOrder | docassemble/privacydocgenerator/gdpr_module.py:14 | extending the answer extends the list at its end, so the answer's order is kept |
| GdprModule.FormatListsOnce | docassemble/privacydocgenerator/gdpr_module.py:14 | no label is listed twice |
| GdprModule.FormatNothingTicked | docassemble/privacydocgenerator/gdpr_module.py:14 | an empty or all-false answer lists nothing, and only such an answer does |
| GdprModule.DpiaIndicated | docassemble/privacydocgenerator/gdpr_module.py:39-56 | true iff one of the 4 listed data types or one of the 2 listed purposes is ticked |
| GdprModule.RequiresDpia | docassemble/privacydocgenerator/gdpr_module.py:33-56 | the loops with early return give exactly the indication above |
| GdprModule.DpiaIndicatedListedKeysAbsent | docassemble/privacydocgenerator/gdpr_module.py:50-56 | answers holding none of the listed labels raise no flag |
| GdprModule.DpiaIndicatedOneDataType | docassemble/privacydocgenerator/gdpr_module.py:50-52 | one ticked listed data type raises the flag whatever the purposes |
| JurisdictionEngine.Meets | docassemble/privacydocgenerator/jurisdiction_engine.py:91 | a figure meets a threshold only when it is present and at least the threshold; an absent or zero figure meets none; for a positive threshold, exactly when present and at least the threshold |
| JurisdictionEngine.HasPresenceTicked | docassemble/privacydocgenerator/jurisdiction_engine.py:79-82 | a state presence found through the ticked-label lists agrees with reading each answer with `get` |
| JurisdictionEngine.EuUkTicked | docassemble/privacydocgenerator/jurisdiction_engine.py:44-47 | holds exactly the EU and UK labels ticked in the regions |
| JurisdictionEngine.DetectGdpr | docassemble/privacydocgenerator/jurisdiction_engine.py:37-69 | applies iff the EU or UK is ticked among the operating or the consumer regions; an establishment is reported first, then targeted residents, otherwise the no-presence reason |
| JurisdictionEngine.MatchedCriteria | docassemble/privacydocgenerator/jurisdiction_engine.py:89-106 | one criterion per threshold met, in the order revenue, volume, selling, each carrying its justification |
| JurisdictionEngine.CcpaCpra | docassemble/privacydocgenerator/jurisdiction_engine.py:72-122 | without California presence it never applies and gives the no-presence reason; with presence it applies iff revenue >= 25,000,000, volume >= 100,000 or data is sold; when it applies, the reason lists exactly the criteria met; with presence and no criterion met, it gives the verify-manually reason |
| JurisdictionEngine.DetectCcpaCpra | docassemble/privacydocgenerator/jurisdiction_engine.py:72-122 | the reason-collecting procedure returns exactly the decision above |
| JurisdictionEngine.DetectTdpsa | docassemble/privacydocgenerator/jurisdiction_engine.py:125-169 | applies iff Texas presence, not an SBA small business and volume >= 100,000; the SBA exemption overrides any volume and gives the exemption reason; no presence gives the no-presence reason; presence without the exemption and below the threshold gives the verify-manually reason |
| JurisdictionEngine.DetectVcdpa | docassemble/privacydocgenerator/jurisdiction_engine.py:172-217 | applies iff Virginia presence and (volume >= 100,000 or (volume >= 25,000 and data is sold)); no presence gives the no-presence reason; with presence, 100,000 consumers give the volume reason, the lower threshold with a sale gives the volume-and-sale reason, and otherwise the verify-manually reason |
| JurisdictionEngine.DetectApplicableJurisdictions | docassemble/privacydocgenerator/jurisdiction_engine.py:224-257 | always four results, for GDPR, CCPA/CPRA, TDPSA and VCDPA in that order, named "GDPR", "CCPA/CPRA", "TDPSA" and "VCDPA" |
| JurisdictionEngine.CcpaReasonSentences | docassemble/privacydocgenerator/jurisdiction_engine.py:89-113 | when CCPA applies, its reason has one sentence per criterion met, in the order revenue, volume, selling |
| JurisdictionEngine.NoPresenceNeverApplies | docassemble/privacydocgenerator/jurisdiction_engine.py:82-87 | without a state presence the state statute does not apply, whatever the other inputs |
| JurisdictionEngine.AbsentVolumeNeverApplies | docassemble/privacydocgenerator/jurisdiction_engine.py:151 | an absent or zero consumer volume never brings TDPSA or VCDPA into scope |
| JurisdictionEngine.VcdpaSaleLowersThreshold | docassemble/privacydocgenerator/jurisdiction_engine.py:189-205 | with Virginia presence, VCDPA applies from 25,000 consumers when data is sold and from 100,000 otherwise |
| JurisdictionEngine.DpiaIndicated | docassemble/privacydocgenerator/jurisdiction_engine.py:264-290 | true iff one of the 7 listed data types or one of the 3 listed purposes is ticked |
| JurisdictionEngine.RequiresDpia | docassemble/privacydocgenerator/jurisdiction_engine.py:264-290 | the loops with early return give exactly the indication above |
| JurisdictionEngine.DpiaIndicatedBySale | docassemble/privacydocgenerator/jurisdiction_engine.py:278-289 | ticking the sale-to-third-parties purpose raises the flag whatever the data types |
| JurisdictionEngine.FinancialDataAloneNotIndicated | docassemble/privacydocgenerator/jurisdiction_engine.py:269-290 | financial information alone raises no flag here, unlike the GDPR module's list |
| Findings.LabelsDistinct | docassemble/privacydocgenerator/gap_analysis_engine.py:29-31 | the three severity labels are distinct, so the `by_severity` keys are distinct |
| Findings.EvaluatePrefix | docassemble/privacydocgenerator/gap_analysis_engine.py:61-241 | the first k rules of a checklist report at most k findings |
| Findings.Evaluate | docassemble/privacydocgenerator/gap_analysis_engine.py:61-241 | a checklist reports at most one finding per rule |
| Findings.EvaluatePrefixMembers | docassemble/privacydocgenerator/gap_analysis_engine.py:61-241 | the first k rules report exactly the findings of the rules among them that fire |
| Findings.EvaluateMembers | docassemble/privacydocgenerator/gap_analysis_engine.py:61-241 | a checklist reports exactly the findings of its firing rules |
| Findings.EvaluatePrefixAgree | docassemble/privacydocgenerator/gap_analysis_engine.py:61-241 | two checklists that agree on their first k rules report the same findings from them |
| Findings.EvaluatePrefixAppend | docassemble/privacydocgenerator/gap_analysis_engine.py:61-241 | the rules after a prefix add their own findings after the prefix's findings |
| Findings.EvaluateAppend | docassemble/privacydocgenerator/gap_analysis_engine.py:61-241 | a checklist split in two reports the first part's findings followed by the second's |
| Findings.EvaluateEmpty | docassemble/privacydocgenerator/gap_analysis_engine.py:61-241 | a checklist reports nothing iff no rule fires |
| Findings.EvaluateSupplyControl | docassemble/privacydocgenerator/gap_analysis_engine.py:69-79 | supplying the missing control of one firing rule removes exactly its finding and leaves the others in order |
| Findings.EvaluateReports | docassemble/privacydocgenerator/gap_analysis_engine.py:180-190 | when no two rules share a finding, a rule's finding is reported iff the rule fires |
| GapChecklists.GdprChecklist | docassemble/privacydocgenerator/gap_analysis_engine.py:56-241 | the GDPR checklist has 14 items |
| GapChecklists.GdprChecklistShape | docassemble/privacydocgenerator/gap_analysis_engine.py:56-241 | every GDPR item is tagged GDPR and no two items share a finding |
| GapChecklists.GdprFindings | docassemble/privacydocgenerator/gap_analysis_engine.py:56-241 | at most 14 findings, all tagged GDPR; only the legitimate-interests item is rated Consider Fixing |
| GapChecklists.GdprNoFindingsIffClean | docassemble/privacydocgenerator/gap_analysis_engine.py:69-239 | no GDPR finding iff every control is in place wherever its trigger holds |
| GapChecklists.GdprConditionalItems | docassemble/privacydocgenerator/gap_analysis_engine.py:103-114 | each conditional item (legitimate interests, consent records, transfer mechanism, DPIA) is reported iff its trigger holds and its control is missing |
| GapChecklists.GdprLawfulBasisRemediated | docassemble/privacydocgenerator/gap_analysis_engine.py:69-79 | documenting the lawful basis removes just the first finding and leaves the rest unchanged |
| GapChecklists.CcpaChecklist | docassemble/privacydocgenerator/gap_analysis_engine.py:247-374 | the CCPA/CPRA checklist has 10 items |
| GapChecklists.CcpaChecklistShape | docassemble/privacydocgenerator/gap_analysis_engine.py:247-374 | every item is tagged CCPA/CPRA and no two share a finding |
| GapChecklists.CcpaFindings | docassemble/privacydocgenerator/gap_analysis_engine.py:247-374 | at most 10 findings, all tagged CCPA/CPRA; only staff training and deletion verification fall below Must Fix |
| GapChecklists.CcpaNoFindingsIffClean | docassemble/privacydocgenerator/gap_analysis_engine.py:256-372 | no CCPA/CPRA finding iff every control is in place wherever its trigger holds |
| GapChecklists.CcpaConditionalItems | docassemble/privacydocgenerator/gap_analysis_engine.py:292-326 | the opt-out and sensitive-data-limit items are reported iff their trigger holds and the control is missing |
| GapChecklists.TdpsaChecklist | docassemble/privacydocgenerator/gap_analysis_engine.py:380-479 | the TDPSA checklist has 8 items |
| GapChecklists.TdpsaChecklistShape | docassemble/privacydocgenerator/gap_analysis_engine.py:380-479 | every item is tagged TDPSA and no two share a finding |
| GapChecklists.TdpsaFindings | docassemble/privacydocgenerator/gap_analysis_engine.py:380-479 | at most 8 findings, all tagged TDPSA and all rated Must Fix |
| GapChecklists.TdpsaNoFindingsIffClean | docassemble/privacydocgenerator/gap_analysis_engine.py:389-477 | no TDPSA finding iff every control is in place wherever its trigger holds |
| GapChecklists.TdpsaConditionalItems | docassemble/privacydocgenerator/gap_analysis_engine.py:422-477 | the opt-out, sensitive-data (read from the matter's footprint) and assessment items are reported iff their trigger holds and the control is missing |
| GapChecklists.TdpsaAssessmentsRemediated | docassemble/privacydocgenerator/gap_analysis_engine.py:468-477 | completing the assessments removes just the last finding |
| GapChecklists.VcdpaChecklist | docassemble/privacydocgenerator/gap_analysis_engine.py:485-586 | the VCDPA checklist has 8 items |
| GapChecklists.VcdpaChecklistShape | docassemble/privacydocgenerator/gap_analysis_engine.py:485-586 | every item is tagged VCDPA and no two share a finding |
| GapChecklists.VcdpaFindings | docassemble/privacydocgenerator/gap_analysis_engine.py:485-586 | at most 8 findings, all tagged VCDPA; only the third-party contract review falls below Must Fix |
| GapChecklists.VcdpaNoFindingsIffClean | docassemble/privacydocgenerator/gap_analysis_engine.py:494-584 | no VCDPA finding iff every control is in place wherever its trigger holds |
| GapChecklists.VcdpaConditionalItems | docassemble/privacydocgenerator/gap_analysis_engine.py:527-573 | the opt-out, sensitive-data and assessment items are reported iff their trigger holds and the control is missing |
| GapAnalysis.CheckGdprDocumentation | docassemble/privacydocgenerator/gap_analysis_engine.py:67-114 | appends the findings of GDPR items 1-4 to those before them |
| GapAnalysis.CheckGdprNoticesAndConsent | docassemble/privacydocgenerator/gap_analysis_engine.py:116-152 | appends the findings of GDPR items 5-7 |
| GapAnalysis.CheckGdprRightsAndContracts | docassemble/privacydocgenerator/gap_analysis_engine.py:154-190 | appends the findings of GDPR items 8-10 |
| GapAnalysis.CheckGdprSecurityAndBreach | docassemble/privacydocgenerator/gap_analysis_engine.py:192-239 | appends the findings of GDPR items 11-14 |
| GapAnalysis.AnalyseGdprGaps | docassemble/privacydocgenerator/gap_analysis_engine.py:56-241 | returns exactly the GDPR checklist's findings |
| GapAnalysis.CheckCcpaNotices | docassemble/privacydocgenerator/gap_analysis_engine.py:256-290 | appends the findings of CCPA/CPRA items 1-3 |
| GapAnalysis.CheckCcpaOptOuts | docassemble/privacydocgenerator/gap_analysis_engine.py:292-326 | appends the findings of CCPA/CPRA items 4-6 |
| GapAnalysis.CheckCcpaOperations | docassemble/privacydocgenerator/gap_analysis_engine.py:328-372 | appends the findings of CCPA/CPRA items 7-10 |
| GapAnalysis.AnalyseCcpaGaps | docassemble/privacydocgenerator/gap_analysis_engine.py:247-374 | returns exactly the CCPA/CPRA checklist's findings |
| GapAnalysis.CheckTdpsaNoticeAndRights | docassemble/privacydocgenerator/gap_analysis_engine.py:389-420 | appends the findings of TDPSA items 1-3 |
| GapAnalysis.CheckTdpsaOptOutAndConsent | docassemble/privacydocgenerator/gap_analysis_engine.py:422-455 | appends the findings of TDPSA items 4-6 |
| GapAnalysis.CheckTdpsaContracts | docassemble/privacydocgenerator/gap_analysis_engine.py:457-477 | appends the findings of TDPSA items 7-8 |
| GapAnalysis.AnalyseTdpsaGaps | docassemble/privacydocgenerator/gap_analysis_engine.py:380-479 | returns exactly the TDPSA checklist's findings |
| GapAnalysis.CheckVcdpaNoticeAndRights | docassemble/privacydocgenerator/gap_analysis_engine.py:494-525 | appends the findings of VCDPA items 1-3 |
| GapAnalysis.CheckVcdpaOptOutAndConsent | docassemble/privacydocgenerator/gap_analysis_engine.py:527-549 | appends the findings of VCDPA items 4-5 |
| GapAnalysis.CheckVcdpaContracts | docassemble/privacydocgenerator/gap_analysis_engine.py:551-584 | appends the findings of VCDPA items 6-8 |
| GapAnalysis.AnalyseVcdpaGaps | docassemble/privacydocgenerator/gap_analysis_engine.py:485-586 | returns exactly the VCDPA checklist's findings |
| GapAnalysis.StatuteFindings | docassemble/privacydocgenerator/gap_analysis_engine.py:56-586 | a statute's findings carry its tag; only the GDPR legitimate-interests item is rated Consider Fixing |
| GapAnalysis.Contribution | docassemble/privacydocgenerator/gap_analysis_engine.py:613-626 | a statute that is not confirmed contributes nothing; what it contributes carries its tag |
| GapAnalysis.Contributions | docassemble/privacydocgenerator/gap_analysis_engine.py:613-626 | one contribution per statute in the order GDPR, CCPA/CPRA, TDPSA, VCDPA, each tagged by its position |
| GapAnalysis.CollectStep | docassemble/privacydocgenerator/gap_analysis_engine.py:616-626 | each `if` block extends the findings of the earlier statutes by the next statute's contribution |
| GapAnalysis.AllFindings | docassemble/privacydocgenerator/gap_analysis_engine.py:613-626 | every finding belongs to a confirmed statute and is one of that statute's findings |
| GapAnalysis.CollectFindings | docassemble/privacydocgenerator/gap_analysis_engine.py:613-626 | the dispatch on the confirmed set gives exactly the concatenated contributions |
| GapAnalysis.GroupByJurisdiction | docassemble/privacydocgenerator/gap_analysis_engine.py:628-631 | the `setdefault` loop gives exactly the reference grouping |
| GapAnalysis.RunGapAnalysis | docassemble/privacydocgenerator/gap_analysis_engine.py:592-651 | the report's list, jurisdiction grouping, severity buckets and counts are the reference ones, and the grouping holds as many findings as the total count |
| GapAnalysis.AllFindingsOfJurisdiction | docassemble/privacydocgenerator/gap_analysis_engine.py:613-626 | each jurisdiction's share of the list is its statute's findings when confirmed and nothing otherwise |
| GapAnalysis.OnlyLiaIsConsider | docassemble/privacydocgenerator/gap_analysis_engine.py:103-114 | across the whole report, only the GDPR legitimate-interests item is rated Consider Fixing |
| Aggregation.OfSeverity | docassemble/privacydocgenerator/gap_analysis_engine.py:633-637 | a severity filter is no longer than the list |
| Aggregation.OfJurisdiction | docassemble/privacydocgenerator/gap_analysis_engine.py:628-631 | a jurisdiction filter is no longer than the list |
| Aggregation.OfSeverityMembers | docassemble/privacydocgenerator/gap_analysis_engine.py:633-637 | a severity filter keeps exactly the findings of that severity |
| Aggregation.OfJurisdictionMembers | docassemble/privacydocgenerator/gap_analysis_engine.py:628-631 | a jurisdiction filter keeps exactly the findings of that jurisdiction |
| Aggregation.OfSeverityAppend | docassemble/privacydocgenerator/gap_analysis_engine.py:633-637 | the severity filter distributes over concatenation, keeping order |
| Aggregation.OfJurisdictionAppend | docassemble/privacydocgenerator/gap_analysis_engine.py:628-631 | the jurisdiction filter distributes over concatenation, keeping order |
| Aggregation.OfJurisdictionAllTagged | docassemble/privacydocgenerator/gap_analysis_engine.py:628-631 | filtering a list whose findings all carry the jurisdiction gives the whole list back |
| Aggregation.OfJurisdictionNoneTagged | docassemble/privacydocgenerator/gap_analysis_engine.py:628-631 | filtering a list with no finding of the jurisdiction gives nothing |
| Aggregation.ConcatPrefixMembers | docassemble/privacydocgenerator/gap_analysis_engine.py:613-626 | the concatenation of the first k parts holds exactly the findings of those parts |
| Aggregation.OfJurisdictionConcatPrefix | docassemble/privacydocgenerator/gap_analysis_engine.py:613-626 | when each part carries its position's jurisdiction, a jurisdiction's share of the concatenation is its own part |
| Aggregation.SeverityPartition | docassemble/privacydocgenerator/gap_analysis_engine.py:633-644 | the three severity buckets together are as long as the list |
| Aggregation.SeverityBuckets | docassemble/privacydocgenerator/gap_analysis_engine.py:633-637 | each bucket holds exactly the findings of its severity, and the buckets together are as long as the list |
| Aggregation.CountsOf | docassemble/privacydocgenerator/gap_analysis_engine.py:639-644 | total == len(all) == must_fix + should_fix + consider, each count being its bucket's length |
| Aggregation.FirstSeen | docassemble/privacydocgenerator/gap_analysis_engine.py:628-631 | the grouping's keys are distinct |
| Aggregation.ByJurisdiction | docassemble/privacydocgenerator/gap_analysis_engine.py:628-631 | one bucket per key in first-seen order, each holding its jurisdiction's findings in order |
| Aggregation.KeyIndex | docassemble/privacydocgenerator/gap_analysis_engine.py:630 | finds the bucket of a jurisdiction, or reports that none exists |
| Aggregation.FirstSeenMembers | docassemble/privacydocgenerator/gap_analysis_engine.py:628-631 | the keys are exactly the jurisdictions that occur among the findings |
| Aggregation.ByJurisdictionSnoc | docassemble/privacydocgenerator/gap_analysis_engine.py:628-631 | filing one more finding with `setdefault(...).append` yields the grouping of the longer list |
| Aggregation.OfJurisdictionAbsent | docassemble/privacydocgenerator/gap_analysis_engine.py:628-631 | a jurisdiction that is not a key has no findings |
| Aggregation.FirstSeenSnoc | docassemble/privacydocgenerator/gap_analysis_engine.py:628-631 | one more finding adds its jurisdiction as the last key exactly when the jurisdiction is new |
| Aggregation.SnocOtherBucket | docassemble/privacydocgenerator/gap_analysis_engine.py:628-631 | filing a finding leaves the buckets of other jurisdictions unchanged |
| Aggregation.SnocOwnBucket | docassemble/privacydocgenerator/gap_analysis_engine.py:628-631 | filing a finding appends it to its own jurisdiction's bucket |
| Aggregation.SnocExisting | docassemble/privacydocgenerator/gap_analysis_engine.py:630-631 | filing a finding of a known jurisdiction updates that bucket in place |
| Aggregation.SnocNew | docassemble/privacydocgenerator/gap_analysis_engine.py:630-631 | filing a finding of a new jurisdiction adds a one-finding bucket at the end |
| Aggregation.SizeAppend | docassemble/privacydocgenerator/gap_analysis_engine.py:628-631 | the number of filed findings adds up over concatenated groupings |
| Aggregation.SizeUpdate | docassemble/privacydocgenerator/gap_analysis_engine.py:630-631 | replacing one bucket changes the count by the difference in its length |
| Aggregation.SizeSetDefaultAppend | docassemble/privacydocgenerator/gap_analysis_engine.py:630-631 | filing one finding raises the count by one |
| Aggregation.ByJurisdictionBuckets | docassemble/privacydocgenerator/gap_analysis_engine.py:628-631 | each bucket holds exactly its jurisdiction's findings and is never empty |
| Aggregation.ByJurisdictionCovers | docassemble/privacydocgenerator/gap_analysis_engine.py:628-631 | every finding has a bucket, and no jurisdiction has two |
| Aggregation.ByJurisdictionSize | docassemble/privacydocgenerator/gap_analysis_engine.py:628-631 | the buckets together hold exactly as many findings as the list |

## Left out

- The docassemble framework is not part of this model: `DAObject`, `log`, the interview files and the document templates. Checkbox objects are modelled by `Checkbox.Checkboxes` with their `get` and `true_values()`.
- Revenue is a whole number of dollars, so a fractional revenue is not modelled. The `CCPA_REVENUE_SHARE_THRESHOLD` constant (0.50) is never read by the source and is left out.
- JurisdictionEngine.DetectGdpr: the reason records the set of matched EU/UK labels. Python joins that set in an unspecified order, and `Reason.Text` fixes one order (EU before UK).
- `Reason.Text` renders the reason texts, with `{:,}` thousands separators. No property about the exact text is proved; reasons are specified by which branch produced them and with which figures.
- The requirement, authority, current-state and gap texts of each checklist item are kept as per-item constants in `ChecklistItems`. Findings are compared by item, jurisdiction and severity.
- `_gap` (gap_analysis_engine.py:37-45) becomes the `Finding` value built from an item, a jurisdiction and a severity. `_no_gap` (:48-50) is never called and is left out.
- Each analyser is one long function in the source. In the model it is split into section methods of two to four checks each, with the same checks in the same order.
- `by_jurisdiction` is keyed by the `Jurisdiction` variant instead of its name string. `Jurisdiction.Name` gives each variant a distinct name, so the grouping is the same.
- JurisdictionEngine.DetectApplicableJurisdictions uses the `CcpaCpra` decision function. `DetectCcpaCpra` is the source's reason-collecting procedure, and it is proved to return the same result.
- The checklists follow the code: 14 GDPR items (gap_analysis_engine.py:69-239) and 8 VCDPA items (:494-584).
