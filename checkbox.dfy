/**
 * Checkbox-backed boolean mappings: the interview exposes every multi-select
 * answer as an insertion-ordered dictionary from label to boolean, with a
 * `get` that yields a falsy value for an absent label and a `true_values()`
 * view listing the labels that are ticked.
 */
module Checkbox {

  /** The entries of a mapping, in insertion order. */
  type Entries = seq<(string, bool)>

  /** A dictionary never holds the same label twice. */
  ghost predicate DistinctKeys(m: Entries) {
    forall i, j :: 0 <= i < j < |m| ==> m[i].0 != m[j].0
  }

  type Checkboxes = m: Entries | DistinctKeys(m)

  /** `m.get(k)`: the value stored for `k`, and false when `k` is absent. */
  function Get(m: Checkboxes, k: string): (v: bool)
    ensures v <==> (k, true) in m
  {
    if m == [] then false
    else if m[0].0 == k then m[0].1
    else Get(m[1..], k)
  }

  /** `m.true_values()`: the ticked labels in insertion order, which is also what the `format_*` comprehensions build. */
  function TrueValues(m: Entries): (labels: seq<string>)
    ensures |labels| <= |m|
    ensures forall k :: k in labels <==> (k, true) in m
  {
    if m == [] then []
    else (if m[0].1 then [m[0].0] else []) + TrueValues(m[1..])
  }

  /** Filtering distributes over concatenation, so ticked labels keep the mapping's order. */
  lemma {:induction false} TrueValuesAppend(a: Entries, b: Entries)
    ensures TrueValues(a + b) == TrueValues(a) + TrueValues(b)
  {
    if a == [] {
      assert a + b == b;
    } else {
      assert (a + b)[1..] == a[1..] + b;
      TrueValuesAppend(a[1..], b);
    }
  }

  /** The ticked labels of a dictionary are listed once each. */
  lemma {:induction false} TrueValuesDistinct(m: Checkboxes)
    ensures forall i, j :: 0 <= i < j < |TrueValues(m)| ==> TrueValues(m)[i] != TrueValues(m)[j]
  {
    if m != [] {
      var rest: Checkboxes := m[1..];
      TrueValuesDistinct(rest);
    }
  }

  /** A mapping with no ticked entry, in particular the empty one, lists nothing. */
  lemma {:induction false} TrueValuesNoneTicked(m: Entries)
    ensures TrueValues(m) == [] <==> forall i :: 0 <= i < |m| ==> !m[i].1
  {
    if TrueValues(m) != [] {
      assert (TrueValues(m)[0], true) in m;
    }
  }

  /** Whether some label of the list is ticked: one of the searches of `requires_dpia`, which stops at the first hit. */
  function AnyTicked(m: Checkboxes, labels: seq<string>): (found: bool)
    ensures found <==> exists i :: 0 <= i < |labels| && Get(m, labels[i])
  {
    if labels == [] then false
    else Get(m, labels[0]) || AnyTicked(m, labels[1..])
  }
}
