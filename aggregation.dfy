/**
 * The result aggregator of `run_gap_analysis`: findings grouped by jurisdiction
 * (in first-seen order) and by severity, with counts.
 */
module Aggregation {
  import opened Basics
  import opened Findings

  /** One bucket of `by_severity`: the findings rated `s`, in the order they were produced. */
  function OfSeverity(fs: seq<Finding>, s: Severity): (r: seq<Finding>)
    ensures |r| <= |fs|
  {
    if fs == [] then []
    else (if fs[0].severity == s then [fs[0]] else []) + OfSeverity(fs[1..], s)
  }

  /** The findings of one jurisdiction, in the order they were produced. */
  function OfJurisdiction(fs: seq<Finding>, j: Jurisdiction): (r: seq<Finding>)
    ensures |r| <= |fs|
  {
    if fs == [] then []
    else (if fs[0].jurisdiction == j then [fs[0]] else []) + OfJurisdiction(fs[1..], j)
  }

  /** The severity filter keeps exactly the findings of that severity. */
  lemma {:induction false} OfSeverityMembers(fs: seq<Finding>, s: Severity)
    ensures forall f :: f in OfSeverity(fs, s) <==> f in fs && f.severity == s
  {
    if fs != [] {
      OfSeverityMembers(fs[1..], s);
      assert fs == [fs[0]] + fs[1..];
    }
  }

  /** The jurisdiction filter keeps exactly the findings of that jurisdiction. */
  lemma {:induction false} OfJurisdictionMembers(fs: seq<Finding>, j: Jurisdiction)
    ensures forall f :: f in OfJurisdiction(fs, j) <==> f in fs && f.jurisdiction == j
  {
    if fs != [] {
      OfJurisdictionMembers(fs[1..], j);
      assert fs == [fs[0]] + fs[1..];
    }
  }

  /** The severity filter distributes over concatenation: it preserves the order of `all`. */
  lemma {:induction false} OfSeverityAppend(a: seq<Finding>, b: seq<Finding>, s: Severity)
    ensures OfSeverity(a + b, s) == OfSeverity(a, s) + OfSeverity(b, s)
  {
    if a == [] {
      assert a + b == b;
    } else {
      var head := if a[0].severity == s then [a[0]] else [];
      assert (a + b)[1..] == a[1..] + b;
      assert OfSeverity(a + b, s) == head + OfSeverity(a[1..] + b, s);
      OfSeverityAppend(a[1..], b, s);
      assert head + (OfSeverity(a[1..], s) + OfSeverity(b, s)) == (head + OfSeverity(a[1..], s)) + OfSeverity(b, s);
    }
  }

  /** So does the jurisdiction filter. */
  lemma {:induction false} OfJurisdictionAppend(a: seq<Finding>, b: seq<Finding>, j: Jurisdiction)
    ensures OfJurisdiction(a + b, j) == OfJurisdiction(a, j) + OfJurisdiction(b, j)
  {
    if a == [] {
      assert a + b == b;
    } else {
      var head := if a[0].jurisdiction == j then [a[0]] else [];
      assert (a + b)[1..] == a[1..] + b;
      assert OfJurisdiction(a + b, j) == head + OfJurisdiction(a[1..] + b, j);
      OfJurisdictionAppend(a[1..], b, j);
      assert head + (OfJurisdiction(a[1..], j) + OfJurisdiction(b, j)) == (head + OfJurisdiction(a[1..], j)) + OfJurisdiction(b, j);
    }
  }

  /** Filtering a list that carries only `j` by `j` keeps all of it. */
  lemma {:induction false} OfJurisdictionAllTagged(fs: seq<Finding>, j: Jurisdiction)
    requires forall f :: f in fs ==> f.jurisdiction == j
    ensures OfJurisdiction(fs, j) == fs
  {
    if fs != [] {
      OfJurisdictionAllTagged(fs[1..], j);
    }
  }

  /** Filtering a list that never carries `j` by `j` keeps nothing. */
  lemma {:induction false} OfJurisdictionNoneTagged(fs: seq<Finding>, j: Jurisdiction)
    requires forall f :: f in fs ==> f.jurisdiction != j
    ensures OfJurisdiction(fs, j) == []
  {
    if fs != [] {
      OfJurisdictionNoneTagged(fs[1..], j);
    }
  }

  /** The first `k` parts of a list, concatenated in order. */
  function ConcatPrefix(parts: seq<seq<Finding>>, k: nat): (all: seq<Finding>)
    requires k <= |parts|
  {
    if k == 0 then [] else ConcatPrefix(parts, k - 1) + parts[k - 1]
  }

  /** The concatenation holds exactly the findings of its parts. */
  lemma {:induction false} ConcatPrefixMembers(parts: seq<seq<Finding>>, k: nat)
    requires k <= |parts|
    ensures forall f :: f in ConcatPrefix(parts, k) <==> exists i :: 0 <= i < k && f in parts[i]
  {
    if k > 0 {
      ConcatPrefixMembers(parts, k - 1);
    }
  }

  /** Part `i` holds only findings of the statute at position `i` of the evaluation order. */
  ghost predicate TaggedByPosition(parts: seq<seq<Finding>>) {
    |parts| <= StatuteCount
    && forall i, f :: 0 <= i < |parts| && f in parts[i] ==> f.jurisdiction == StatuteAt(i)
  }

  /** Filtering the concatenation by one statute recovers exactly that statute's part, if it is among the first `k`. */
  lemma {:induction false} OfJurisdictionConcatPrefix(parts: seq<seq<Finding>>, k: nat, j: Jurisdiction)
    requires k <= |parts| && TaggedByPosition(parts)
    ensures OfJurisdiction(ConcatPrefix(parts, k), j) == if j.Rank() < k then parts[j.Rank()] else []
  {
    if k > 0 {
      var prev, last := ConcatPrefix(parts, k - 1), parts[k - 1];
      OfJurisdictionConcatPrefix(parts, k - 1, j);
      OfJurisdictionAppend(prev, last, j);
      StatuteAtRank(j);
      if StatuteAt(k - 1) == j {
        OfJurisdictionAllTagged(last, j);
        assert OfJurisdiction(prev, j) == [];
        assert OfJurisdiction(prev + last, j) == last;
      } else {
        OfJurisdictionNoneTagged(last, j);
        assert j.Rank() != k - 1;
        assert OfJurisdiction(prev + last, j) == OfJurisdiction(prev, j);
      }
    }
  }

  /** The three severity filters split a finding list without loss. */
  lemma {:induction false} SeverityPartition(fs: seq<Finding>)
    ensures |OfSeverity(fs, MustFix)| + |OfSeverity(fs, ShouldFix)| + |OfSeverity(fs, Consider)| == |fs|
  {
    if fs != [] {
      SeverityPartition(fs[1..]);
    }
  }

  datatype BySeverity = BySeverity(mustFix: seq<Finding>, shouldFix: seq<Finding>, consider: seq<Finding>)

  datatype Counts = Counts(total: nat, mustFix: nat, shouldFix: nat, consider: nat)

  /** `by_severity`: each bucket holds exactly the findings of its severity. */
  function SeverityBuckets(fs: seq<Finding>): (b: BySeverity)
    ensures forall f :: f in b.mustFix <==> f in fs && f.severity == MustFix
    ensures forall f :: f in b.shouldFix <==> f in fs && f.severity == ShouldFix
    ensures forall f :: f in b.consider <==> f in fs && f.severity == Consider
    ensures |b.mustFix| + |b.shouldFix| + |b.consider| == |fs|
  {
    SeverityPartition(fs);
    OfSeverityMembers(fs, MustFix);
    OfSeverityMembers(fs, ShouldFix);
    OfSeverityMembers(fs, Consider);
    BySeverity(OfSeverity(fs, MustFix), OfSeverity(fs, ShouldFix), OfSeverity(fs, Consider))
  }

  /** `counts`: the total and the size of each severity bucket. */
  function CountsOf(fs: seq<Finding>): (c: Counts)
    ensures c.total == |fs| == c.mustFix + c.shouldFix + c.consider
    ensures var b := SeverityBuckets(fs);
            c.mustFix == |b.mustFix| && c.shouldFix == |b.shouldFix| && c.consider == |b.consider|
  {
    var b := SeverityBuckets(fs);
    Counts(|fs|, |b.mustFix|, |b.shouldFix|, |b.consider|)
  }

  /** An insertion-ordered dictionary from jurisdiction to its findings. */
  type Buckets = seq<(Jurisdiction, seq<Finding>)>

  ghost predicate DistinctJurisdictions(js: seq<Jurisdiction>) {
    forall i, k :: 0 <= i < k < |js| ==> js[i] != js[k]
  }

  /** The jurisdictions of `fs`, each once, in the order they first appear. */
  function FirstSeen(fs: seq<Finding>): (js: seq<Jurisdiction>)
    ensures DistinctJurisdictions(js)
  {
    if fs == [] then []
    else
      var prev := FirstSeen(fs[..|fs| - 1]);
      var last := fs[|fs| - 1];
      if last.jurisdiction in prev then prev else prev + [last.jurisdiction]
  }

  /** The reference definition of `by_jurisdiction`. */
  function ByJurisdiction(fs: seq<Finding>): (g: Buckets)
    ensures |g| == |FirstSeen(fs)|
    ensures forall i :: 0 <= i < |g| ==> g[i].0 == FirstSeen(fs)[i]
    ensures forall i :: 0 <= i < |g| ==> g[i].1 == OfJurisdiction(fs, g[i].0)
  {
    var keys := FirstSeen(fs);
    seq(|keys|, i requires 0 <= i < |keys| => (keys[i], OfJurisdiction(fs, keys[i])))
  }

  /** `d.get(j)` as a position: the index of `j`'s bucket, or `|g|` when there is none. */
  function KeyIndex(g: Buckets, j: Jurisdiction): (k: nat)
    ensures k <= |g|
    ensures k < |g| ==> g[k].0 == j
    ensures k == |g| ==> forall i :: 0 <= i < |g| ==> g[i].0 != j
  {
    if g == [] then 0
    else if g[0].0 == j then 0
    else 1 + KeyIndex(g[1..], j)
  }

  /**
   * `d.setdefault(f['jurisdiction'], []).append(f)`: the finding joins its
   * jurisdiction's bucket, which is created at the end when it is new.
   */
  function SetDefaultAppend(g: Buckets, f: Finding): Buckets {
    var k := KeyIndex(g, f.jurisdiction);
    if k < |g| then g[k := (g[k].0, g[k].1 + [f])] else g + [(f.jurisdiction, [f])]
  }

  /** The keys of the grouping are exactly the jurisdictions that occur among the findings. */
  lemma {:induction false} FirstSeenMembers(fs: seq<Finding>)
    ensures forall j :: j in FirstSeen(fs) <==> exists f :: f in fs && f.jurisdiction == j
  {
    if fs != [] {
      var init := fs[..|fs| - 1];
      FirstSeenMembers(init);
      assert fs == init + [fs[|fs| - 1]];
    }
  }

  /** A jurisdiction that no finding carries has an empty filter. */
  lemma OfJurisdictionAbsent(fs: seq<Finding>, j: Jurisdiction)
    requires j !in FirstSeen(fs)
    ensures OfJurisdiction(fs, j) == []
  {
    FirstSeenMembers(fs);
    OfJurisdictionMembers(fs, j);
    if OfJurisdiction(fs, j) != [] {
      assert OfJurisdiction(fs, j)[0] in OfJurisdiction(fs, j);
    }
  }

  /** One more finding adds its jurisdiction as the last key exactly when it is new. */
  lemma FirstSeenSnoc(fs: seq<Finding>, f: Finding)
    ensures FirstSeen(fs + [f])
         == if f.jurisdiction in FirstSeen(fs) then FirstSeen(fs) else FirstSeen(fs) + [f.jurisdiction]
  {
    assert (fs + [f])[..|fs + [f]| - 1] == fs;
  }

  /** A bucket other than the new finding's is unchanged by it. */
  lemma SnocOtherBucket(fs: seq<Finding>, f: Finding, i: nat)
    requires i < |ByJurisdiction(fs)| && ByJurisdiction(fs)[i].0 != f.jurisdiction
    ensures i < |ByJurisdiction(fs + [f])| && ByJurisdiction(fs + [f])[i] == ByJurisdiction(fs)[i]
  {
    var j := ByJurisdiction(fs)[i].0;
    FirstSeenSnoc(fs, f);
    assert FirstSeen(fs + [f])[i] == FirstSeen(fs)[i] == j;
    OfJurisdictionAppend(fs, [f], j);
    assert OfJurisdiction([f], j) == [];
    assert OfJurisdiction(fs + [f], j) == OfJurisdiction(fs, j);
    assert ByJurisdiction(fs + [f])[i].0 == j;
    assert ByJurisdiction(fs + [f])[i].1 == OfJurisdiction(fs, j);
  }

  /** The new finding's bucket, when it already exists, gains the finding at its end. */
  lemma SnocOwnBucket(fs: seq<Finding>, f: Finding, k: nat)
    requires k < |ByJurisdiction(fs)| && ByJurisdiction(fs)[k].0 == f.jurisdiction
    ensures k < |ByJurisdiction(fs + [f])|
    ensures ByJurisdiction(fs + [f])[k] == (f.jurisdiction, ByJurisdiction(fs)[k].1 + [f])
  {
    var j := f.jurisdiction;
    FirstSeenSnoc(fs, f);
    assert FirstSeen(fs + [f])[k] == FirstSeen(fs)[k] == j;
    OfJurisdictionAppend(fs, [f], j);
    assert OfJurisdiction([f], j) == [f];
  }

  /** A finding of a jurisdiction that already has a bucket updates that bucket in place. */
  lemma SnocExisting(fs: seq<Finding>, f: Finding, k: nat)
    requires k < |ByJurisdiction(fs)| && ByJurisdiction(fs)[k].0 == f.jurisdiction
    ensures ByJurisdiction(fs + [f]) == ByJurisdiction(fs)[k := (f.jurisdiction, ByJurisdiction(fs)[k].1 + [f])]
  {
    var g, g' := ByJurisdiction(fs), ByJurisdiction(fs + [f]);
    FirstSeenSnoc(fs, f);
    assert |g'| == |g|;
    forall i | 0 <= i < |g| ensures g'[i] == g[k := (f.jurisdiction, g[k].1 + [f])][i] {
      if i == k {
        SnocOwnBucket(fs, f, k);
      } else {
        SnocOtherBucket(fs, f, i);
      }
    }
  }

  /** A finding of a new jurisdiction opens a one-finding bucket at the end. */
  lemma SnocNew(fs: seq<Finding>, f: Finding)
    requires forall i :: 0 <= i < |ByJurisdiction(fs)| ==> ByJurisdiction(fs)[i].0 != f.jurisdiction
    ensures ByJurisdiction(fs + [f]) == ByJurisdiction(fs) + [(f.jurisdiction, [f])]
  {
    var g, g' := ByJurisdiction(fs), ByJurisdiction(fs + [f]);
    var j := f.jurisdiction;
    FirstSeenSnoc(fs, f);
    assert j !in FirstSeen(fs);
    assert |g'| == |g| + 1;
    OfJurisdictionAbsent(fs, j);
    OfJurisdictionAppend(fs, [f], j);
    assert OfJurisdiction([f], j) == [f];
    assert FirstSeen(fs + [f])[|g|] == j;
    assert g'[|g|].0 == j;
    assert g'[|g|].1 == OfJurisdiction(fs + [f], j) == [f];
    var expected := g + [(j, [f])];
    assert |expected| == |g'|;
    forall i | 0 <= i < |g'| ensures g'[i] == expected[i] {
      if i < |g| {
        SnocOtherBucket(fs, f, i);
      }
    }
    assert g' == expected;
  }

  /** Growing the grouping one finding at a time, as the source's loop does, yields the reference grouping. */
  lemma ByJurisdictionSnoc(fs: seq<Finding>, f: Finding)
    ensures ByJurisdiction(fs + [f]) == SetDefaultAppend(ByJurisdiction(fs), f)
  {
    var g := ByJurisdiction(fs);
    var k := KeyIndex(g, f.jurisdiction);
    if k < |g| {
      SnocExisting(fs, f, k);
    } else {
      SnocNew(fs, f);
    }
  }

  /** The number of findings across all buckets. */
  function Size(g: Buckets): nat {
    if g == [] then 0 else |g[0].1| + Size(g[1..])
  }

  lemma {:induction false} SizeAppend(g: Buckets, h: Buckets)
    ensures Size(g + h) == Size(g) + Size(h)
  {
    if g == [] {
      assert g + h == h;
    } else {
      assert (g + h)[1..] == g[1..] + h;
      SizeAppend(g[1..], h);
    }
  }

  lemma {:induction false} SizeUpdate(g: Buckets, k: nat, b: seq<Finding>)
    requires k < |g|
    ensures Size(g[k := (g[k].0, b)]) == Size(g) - |g[k].1| + |b|
  {
    if k > 0 {
      assert g[k := (g[k].0, b)][1..] == g[1..][k - 1 := (g[k].0, b)];
      SizeUpdate(g[1..], k - 1, b);
    }
  }

  lemma SizeSetDefaultAppend(g: Buckets, f: Finding)
    ensures Size(SetDefaultAppend(g, f)) == Size(g) + 1
  {
    var k := KeyIndex(g, f.jurisdiction);
    if k < |g| {
      SizeUpdate(g, k, g[k].1 + [f]);
    } else {
      SizeAppend(g, [(f.jurisdiction, [f])]);
    }
  }

  /** Each bucket holds exactly the findings of its jurisdiction, so no bucket is empty. */
  lemma ByJurisdictionBuckets(fs: seq<Finding>, i: nat)
    requires i < |ByJurisdiction(fs)|
    ensures var b := ByJurisdiction(fs)[i];
            && (forall f :: f in b.1 <==> f in fs && f.jurisdiction == b.0)
            && b.1 != []
  {
    var b := ByJurisdiction(fs)[i];
    FirstSeenMembers(fs);
    OfJurisdictionMembers(fs, b.0);
    assert b.0 in FirstSeen(fs);
    var f :| f in fs && f.jurisdiction == b.0;
    assert f in b.1;
  }

  /** Every finding has a bucket, and no jurisdiction has two. */
  lemma ByJurisdictionCovers(fs: seq<Finding>)
    ensures var g := ByJurisdiction(fs);
            && (forall i, k :: 0 <= i < k < |g| ==> g[i].0 != g[k].0)
            && (forall f :: f in fs ==> exists i :: 0 <= i < |g| && g[i].0 == f.jurisdiction)
  {
    var g := ByJurisdiction(fs);
    FirstSeenMembers(fs);
    forall f | f in fs ensures exists i :: 0 <= i < |g| && g[i].0 == f.jurisdiction {
      assert f.jurisdiction in FirstSeen(fs);
    }
  }

  /** Together the buckets hold as many findings as there are. */
  lemma {:induction false} ByJurisdictionSize(fs: seq<Finding>)
    ensures Size(ByJurisdiction(fs)) == |fs|
  {
    if fs != [] {
      var init := fs[..|fs| - 1];
      assert fs == init + [fs[|fs| - 1]];
      ByJurisdictionSize(init);
      ByJurisdictionSnoc(init, fs[|fs| - 1]);
      SizeSetDefaultAppend(ByJurisdiction(init), fs[|fs| - 1]);
    }
  }
}
