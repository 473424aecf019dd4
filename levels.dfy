/**
 * The severity ladder of java.util.logging, extended with the custom
 * SECURITY level that JavaLogServiceImpl injects above SEVERE.
 */
module Levels {

  /** The standard levels plus the injected SECURITY level. */
  datatype Level = Finest | Finer | Fine | Config | Info | Warning | Severe | Security

  /** Numeric value of SEVERE, the highest standard level. */
  const SEVERE_RANK: int := 1000

  /** SECURITY is placed 1000 above SEVERE. */
  const SECURITY_RANK: int := SEVERE_RANK + 1000

  /** The numeric value of each level, as `Level.intValue()` reports it. */
  function Rank(l: Level): int
  {
    match l
    case Finest => 300
    case Finer => 400
    case Fine => 500
    case Config => 700
    case Info => 800
    case Warning => 900
    case Severe => SEVERE_RANK
    case Security => SECURITY_RANK
  }

  /** The ladder from the highest level to the lowest. */
  const Ladder: seq<Level> := [Security, Severe, Warning, Info, Config, Fine, Finer, Finest]

  /** A level passes a backend threshold when its rank reaches the threshold. */
  predicate IsLoggable(l: Level, threshold: int)
  {
    Rank(l) >= threshold
  }

  /** SECURITY is SEVERE + 1000, which is 2000. */
  lemma SecurityRank()
    ensures Rank(Security) == Rank(Severe) + 1000
    ensures Rank(Security) == 2000
  {
  }

  /** The ladder lists every level once, in strictly descending rank. */
  lemma LadderDescends()
    ensures forall l: Level :: l in Ladder
    ensures forall i, j :: 0 <= i < j < |Ladder| ==> Rank(Ladder[i]) > Rank(Ladder[j])
  {
    forall l: Level ensures l in Ladder {
      var k := match l
        case Security => 0 case Severe => 1 case Warning => 2 case Info => 3
        case Config => 4 case Fine => 5 case Finer => 6 case Finest => 7;
      assert Ladder[k] == l;
    }
  }

  /** SECURITY is strictly above every standard level, and SEVERE is the highest standard one. */
  lemma SecurityAboveStandard(l: Level)
    requires l != Security
    ensures Rank(l) <= Rank(Severe) < Rank(Security)
  {
  }

  /** Ranks identify levels: the ordering of levels is total and strict. */
  lemma RankInjective(a: Level, b: Level)
    ensures Rank(a) == Rank(b) <==> a == b
  {
  }
}
