/** Vocabulary shared by the jurisdiction detector and the gap analysis engine. */
module Basics {

  /** An optional value; the interview leaves numeric answers such as revenue unanswered. */
  datatype Option<T> = None | Some(value: T)

  /**
   * The four statutes the system knows about. The source keys everything by the
   * strings returned by `Name`; the model uses a closed variant type instead.
   */
  datatype Jurisdiction = GDPR | CCPA | TDPSA | VCDPA {
    /** The label used for the statute in results and in the confirmed-jurisdiction checkboxes. */
    function Name(): string {
      match this
      case GDPR => "GDPR"
      case CCPA => "CCPA/CPRA"
      case TDPSA => "TDPSA"
      case VCDPA => "VCDPA"
    }

    /** The statute's position in the evaluation order. */
    function Rank(): (r: nat)
      ensures r < StatuteCount
    {
      match this
      case GDPR => 0
      case CCPA => 1
      case TDPSA => 2
      case VCDPA => 3
    }
  }

  /** No two statutes share a name, so keying by name and keying by statute group alike. */
  lemma NamesDistinct(j: Jurisdiction, k: Jurisdiction)
    ensures j.Name() == k.Name() <==> j == k
  {
    if j != k {
      assert j.Name()[0] != k.Name()[0] || |j.Name()| != |k.Name()|;
    }
  }

  /** The number of statutes. */
  const StatuteCount := 4

  /** The statute at position `i` of the evaluation order; `Rank` is its inverse. */
  function StatuteAt(i: nat): (j: Jurisdiction)
    requires i < StatuteCount
    ensures j.Rank() == i
  {
    match i
    case 0 => GDPR
    case 1 => CCPA
    case 2 => TDPSA
    case _ => VCDPA
  }

  /** Every statute sits at its own rank, so no two statutes share a rank. */
  lemma StatuteAtRank(j: Jurisdiction)
    ensures StatuteAt(j.Rank()) == j
  {
  }
}
