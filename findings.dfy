/**
 * Findings and the checklist rules that emit them. Every checklist item of the
 * gap analysis engine has the same shape: when its trigger holds (always, for an
 * unconditional item) and its control is absent, it emits one constant finding.
 */
module Findings {
  import opened Basics
  import opened ChecklistItems

  /** Severity ratings, ordered by legal risk. */
  datatype Severity = MustFix | ShouldFix | Consider {
    function Label(): string {
      match this
      case MustFix => "Must Fix"
      case ShouldFix => "Should Fix"
      case Consider => "Consider Fixing"
    }
  }

  /**
   * The record built by `_gap`. Its four texts are constants of the checklist
   * item that emitted it, so the item stands for them.
   */
  datatype Finding = Finding(jurisdiction: Jurisdiction, item: Item, severity: Severity) {
    function Requirement(): string { item.Text().requirement }
    function Authority(): string { item.Text().authority }
    function CurrentState(): string { item.Text().currentState }
    function Gap(): string { item.Text().gap }
  }

  /** No two severities share a label, so the three `by_severity` keys are distinct. */
  lemma LabelsDistinct(s: Severity, t: Severity)
    ensures s.Label() == t.Label() <==> s == t
  {
    if s != t {
      assert s.Label()[0] != t.Label()[0];
    }
  }

  /** One checklist item, as a row of a declarative table. */
  datatype Rule = Rule(trigger: bool, control: bool, finding: Finding) {
    predicate Fires() { trigger && !control }
  }

  /** The findings the first `k` rows of a checklist emit, in checklist order. */
  function EvaluatePrefix(rules: seq<Rule>, k: nat): (fs: seq<Finding>)
    requires k <= |rules|
    ensures |fs| <= k
  {
    if k == 0 then []
    else if rules[k - 1].Fires() then EvaluatePrefix(rules, k - 1) + [rules[k - 1].finding]
    else EvaluatePrefix(rules, k - 1)
  }

  /** The findings a whole checklist emits, in checklist order. */
  function Evaluate(rules: seq<Rule>): (fs: seq<Finding>)
    ensures |fs| <= |rules|
  {
    EvaluatePrefix(rules, |rules|)
  }

  /** The first `k` rows report the finding of every firing row among them and nothing else. */
  lemma {:induction false} EvaluatePrefixMembers(rules: seq<Rule>, k: nat)
    requires k <= |rules|
    ensures forall f :: f in EvaluatePrefix(rules, k) <==>
              exists i :: 0 <= i < k && rules[i].Fires() && rules[i].finding == f
  {
    if k > 0 {
      EvaluatePrefixMembers(rules, k - 1);
    }
  }

  /** A checklist reports the finding of every firing row and nothing else. */
  lemma EvaluateMembers(rules: seq<Rule>)
    ensures forall f :: f in Evaluate(rules) ==> exists i :: 0 <= i < |rules| && rules[i].Fires() && rules[i].finding == f
    ensures forall i :: 0 <= i < |rules| && rules[i].Fires() ==> rules[i].finding in Evaluate(rules)
  {
    EvaluatePrefixMembers(rules, |rules|);
  }

  /** Two tables that agree on their first `k` rows emit the same findings from them. */
  lemma {:induction false} EvaluatePrefixAgree(rules: seq<Rule>, other: seq<Rule>, k: nat)
    requires k <= |rules| && k <= |other| && rules[..k] == other[..k]
    ensures EvaluatePrefix(rules, k) == EvaluatePrefix(other, k)
  {
    if k > 0 {
      assert rules[k - 1] == rules[..k][k - 1] == other[k - 1];
      assert rules[..k - 1] == rules[..k][..k - 1];
      assert other[..k - 1] == other[..k][..k - 1];
      EvaluatePrefixAgree(rules, other, k - 1);
    }
  }

  /** The rows of `b` after those of `a` emit what `b` emits on its own, after `a`'s findings. */
  lemma {:induction false} EvaluatePrefixAppend(a: seq<Rule>, b: seq<Rule>, k: nat)
    requires k <= |b|
    ensures EvaluatePrefix(a + b, |a| + k) == Evaluate(a) + EvaluatePrefix(b, k)
  {
    if k == 0 {
      EvaluatePrefixAgree(a + b, a, |a|);
    } else {
      EvaluatePrefixAppend(a, b, k - 1);
      assert (a + b)[|a| + k - 1] == b[k - 1];
    }
  }

  /** Evaluating a table in two parts and concatenating gives the same list. */
  lemma EvaluateAppend(a: seq<Rule>, b: seq<Rule>)
    ensures Evaluate(a + b) == Evaluate(a) + Evaluate(b)
  {
    EvaluatePrefixAppend(a, b, |b|);
  }

  /** A checklist emits nothing exactly when none of its items fires. */
  lemma EvaluateEmpty(rules: seq<Rule>)
    ensures Evaluate(rules) == [] <==> forall i :: 0 <= i < |rules| ==> !rules[i].Fires()
  {
    EvaluateMembers(rules);
    if Evaluate(rules) != [] {
      assert Evaluate(rules)[0] in Evaluate(rules);
    }
  }

  /**
   * Supplying the control of a firing item removes exactly that item's finding,
   * at the position the earlier items determine, and leaves every other finding
   * where it was.
   */
  lemma EvaluateSupplyControl(rules: seq<Rule>, i: nat)
    requires i < |rules| && rules[i].Fires()
    ensures var fixed := rules[i := rules[i].(control := true)];
            var k := |Evaluate(rules[..i])|;
            && k <= |Evaluate(fixed)|
            && Evaluate(rules) == Evaluate(fixed)[..k] + [rules[i].finding] + Evaluate(fixed)[k..]
  {
    var fixed := rules[i := rules[i].(control := true)];
    assert rules == rules[..i] + [rules[i]] + rules[i + 1..];
    assert fixed == rules[..i] + [fixed[i]] + rules[i + 1..];
    EvaluateAppend(rules[..i] + [rules[i]], rules[i + 1..]);
    EvaluateAppend(rules[..i], [rules[i]]);
    EvaluateAppend(rules[..i] + [fixed[i]], rules[i + 1..]);
    EvaluateAppend(rules[..i], [fixed[i]]);
    var pre, post := Evaluate(rules[..i]), Evaluate(rules[i + 1..]);
    assert Evaluate(fixed) == pre + post;
    assert Evaluate(fixed)[..|pre|] == pre;
    assert Evaluate(fixed)[|pre|..] == post;
  }

  /** No two rows of the table emit the same finding. */
  ghost predicate DistinctFindings(rules: seq<Rule>) {
    forall i, k :: 0 <= i < k < |rules| ==> rules[i].finding != rules[k].finding
  }

  /** In a table of distinct findings, a row's finding is reported exactly when the row fires. */
  lemma EvaluateReports(rules: seq<Rule>, i: nat)
    requires i < |rules| && DistinctFindings(rules)
    ensures rules[i].finding in Evaluate(rules) <==> rules[i].Fires()
  {
    EvaluateMembers(rules);
  }

  /** Every item of the table carries jurisdiction `j`. */
  ghost predicate AllTagged(rules: seq<Rule>, j: Jurisdiction) {
    forall i :: 0 <= i < |rules| ==> rules[i].finding.jurisdiction == j
  }
}
