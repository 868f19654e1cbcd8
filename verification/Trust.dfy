/** The trust levels of memory entries and the promotions between them. */
module Trust {
  datatype Level = Raw | Untrusted | Candidate | Verified | Promoted | Deprecated

  function Rank(t: Level): int {
    match t
    case Raw => 0
    case Untrusted => 1
    case Candidate => 2
    case Verified => 3
    case Promoted => 4
    case Deprecated => -1
  }

  predicate ValidPromotion(current: Level, target: Level) {
    if current == Deprecated then false
    else if target == Deprecated then true
    else Rank(target) > Rank(current)
  }

  /** The levels from the least trusted to the terminal one. */
  const LADDER: seq<Level> := [Raw, Untrusted, Candidate, Verified, Promoted, Deprecated]

  /** The promotion relation is the strict total order of the ladder, although DEPRECATED has the
      lowest rank: no cycle of promotions exists, and nothing leaves DEPRECATED. */
  lemma PromotionIsStrictOrder(i: nat, j: nat)
    requires i < |LADDER| && j < |LADDER|
    ensures ValidPromotion(LADDER[i], LADDER[j]) <==> i < j
    ensures i < j < 5 ==> Rank(LADDER[i]) < Rank(LADDER[j])
    ensures Rank(Deprecated) < Rank(LADDER[i]) || i == 5
  {
  }

  lemma EveryLevelIsOnTheLadder(t: Level)
    ensures exists i :: 0 <= i < |LADDER| && LADDER[i] == t
  {
    match t
    case Raw => assert LADDER[0] == t;
    case Untrusted => assert LADDER[1] == t;
    case Candidate => assert LADDER[2] == t;
    case Verified => assert LADDER[3] == t;
    case Promoted => assert LADDER[4] == t;
    case Deprecated => assert LADDER[5] == t;
  }
}
