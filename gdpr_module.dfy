/**
 * The GDPR helpers of the privacy policy interview: the three list views of
 * its checkbox answers and the GDPR-specific DPIA flag.
 */
module GdprModule {
  import opened Checkbox

  /** `format_data_types`: the ticked data types, in the mapping's order. */
  function FormatDataTypes(dataTypes: Checkboxes): (labels: seq<string>)
    ensures |labels| <= |dataTypes|
    ensures forall k :: k in labels <==> Get(dataTypes, k)
  {
    TrueValues(dataTypes)
  }

  /** `format_purposes`: the ticked processing purposes, in the mapping's order. */
  function FormatPurposes(purposes: Checkboxes): (labels: seq<string>)
    ensures |labels| <= |purposes|
    ensures forall k :: k in labels <==> Get(purposes, k)
  {
    TrueValues(purposes)
  }

  /** `format_lawful_bases`: the ticked lawful bases, in the mapping's order. */
  function FormatLawfulBases(bases: Checkboxes): (labels: seq<string>)
    ensures |labels| <= |bases|
    ensures forall k :: k in labels <==> Get(bases, k)
  {
    TrueValues(bases)
  }

  /** The three views filter alike: on the same mapping they list the same labels. */
  lemma FormatsAgree(m: Checkboxes)
    ensures FormatDataTypes(m) == FormatPurposes(m) == FormatLawfulBases(m)
  {
  }

  /** The views keep the mapping's order: the labels of a longer mapping extend those of its prefix. */
  lemma FormatKeepsOrder(a: Checkboxes, b: Entries)
    requires DistinctKeys(a + b)
    ensures FormatDataTypes(a + b) == FormatDataTypes(a) + TrueValues(b)
  {
    TrueValuesAppend(a, b);
  }

  /** Each ticked label is listed once. */
  lemma FormatListsOnce(m: Checkboxes)
    ensures forall i, j :: 0 <= i < j < |FormatDataTypes(m)| ==> FormatDataTypes(m)[i] != FormatDataTypes(m)[j]
  {
    TrueValuesDistinct(m);
  }

  /** An empty or all-false mapping lists nothing, and only such a mapping does. */
  lemma FormatNothingTicked(m: Checkboxes)
    ensures FormatDataTypes(m) == [] <==> forall i :: 0 <= i < |m| ==> !m[i].1
  {
    TrueValuesNoneTicked(m);
  }

  const GdprHighRiskData: seq<string> := [
    "Health or medical data",
    "Children's data (under 16)",
    "Financial information",
    "Location data"
  ]

  const GdprHighRiskPurposes: seq<string> := [
    "Analytics and service improvement",
    "Fraud prevention and security"
  ]

  /** The GDPR DPIA indication: some listed high-risk data type or purpose is ticked. */
  function DpiaIndicated(dataTypes: Checkboxes, purposes: Checkboxes): (flagged: bool)
    ensures flagged <==> ((exists i :: 0 <= i < |GdprHighRiskData| && Get(dataTypes, GdprHighRiskData[i]))
                       || (exists i :: 0 <= i < |GdprHighRiskPurposes| && Get(purposes, GdprHighRiskPurposes[i])))
  {
    AnyTicked(dataTypes, GdprHighRiskData) || AnyTicked(purposes, GdprHighRiskPurposes)
  }

  /**
   * `requires_dpia` (GDPR list): scans the high-risk data types, then the
   * high-risk purposes, and stops at the first ticked one.
   */
  method RequiresDpia(dataTypes: Checkboxes, purposes: Checkboxes) returns (flagged: bool)
    ensures flagged == DpiaIndicated(dataTypes, purposes)
  {
    for i := 0 to |GdprHighRiskData|
      invariant forall k :: 0 <= k < i ==> !Get(dataTypes, GdprHighRiskData[k])
    {
      if Get(dataTypes, GdprHighRiskData[i]) {
        return true;
      }
    }
    for i := 0 to |GdprHighRiskPurposes|
      invariant forall k :: 0 <= k < i ==> !Get(purposes, GdprHighRiskPurposes[k])
    {
      if Get(purposes, GdprHighRiskPurposes[i]) {
        return true;
      }
    }
    return false;
  }

  /** Answers that hold none of the listed labels, in particular empty answers, raise no flag. */
  lemma DpiaIndicatedListedKeysAbsent(dataTypes: Checkboxes, purposes: Checkboxes)
    requires forall i, k :: 0 <= i < |dataTypes| && 0 <= k < |GdprHighRiskData| ==> dataTypes[i].0 != GdprHighRiskData[k]
    requires forall i, k :: 0 <= i < |purposes| && 0 <= k < |GdprHighRiskPurposes| ==> purposes[i].0 != GdprHighRiskPurposes[k]
    ensures !DpiaIndicated(dataTypes, purposes)
  {
  }

  /** Ticking one listed high-risk data type is enough, whatever the purposes. */
  lemma DpiaIndicatedOneDataType(dataTypes: Checkboxes, purposes: Checkboxes, k: nat)
    requires k < |GdprHighRiskData| && Get(dataTypes, GdprHighRiskData[k])
    ensures DpiaIndicated(dataTypes, purposes)
  {
  }
}
