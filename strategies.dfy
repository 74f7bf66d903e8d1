/**
 The computer opponent: how `getComputerMove` picks a strategy from its
 random draws, and which move each strategy yields.
 */
module Strategies {
  import opened Moves
  import opened MoveCounts

  datatype Strategy = Random | LastUsed | MostUsed | LeastUsed | Cheat

  /** `Strategy.values()`, in declaration order. */
  const Values: seq<Strategy> := [Random, LastUsed, MostUsed, LeastUsed, Cheat]

  /** The enum ordinal of a strategy. */
  function Ordinal(s: Strategy): (i: nat)
    ensures i < |Values| && Values[i] == s
  {
    match s
    case Random => 0
    case LastUsed => 1
    case MostUsed => 2
    case LeastUsed => 3
    case Cheat => 4
  }

  /**
   The strategy choice of `getComputerMove`. `cheatDraw` stands for the
   test `nextDouble() < 0.1`; `index` for `nextInt(5)`, which is drawn
   only when that test fails. Cheat is reached both ways.
   */
  function SelectStrategy(cheatDraw: bool, index: nat): (s: Strategy)
    requires index < |Values|
    ensures cheatDraw ==> s == Cheat
    ensures !cheatDraw ==> Ordinal(s) == index
    ensures s == Cheat <==> cheatDraw || index == Ordinal(Cheat)
  {
    if cheatDraw then Cheat else Values[index]
  }

  /**
   Which moves a strategy may yield, given the player's current move, the
   player's previous move and the move counts: a random strategy any move;
   LastUsed the previous move; MostUsed and LeastUsed, once a move has been
   played, a key of greatest or least count (any move while the map is
   empty); Cheat the move that beats the player's.
   */
  ghost predicate Permitted(s: Strategy, player: Move, last: Move, counts: Counts, r: Move) {
    match s
    case Random => true
    case LastUsed => r == last
    case MostUsed => counts != map[] ==> r in counts && forall k :: k in counts ==> counts[k] <= counts[r]
    case LeastUsed => counts != map[] ==> r in counts && forall k :: k in counts ==> counts[r] <= counts[k]
    case Cheat => Beats(r, player)
  }

  /**
   The dispatch of `getComputerMove` on the chosen strategy. `order` is the
   map's iteration order and `randomIndex` the `nextInt(3)` draw, used by
   Random and by the fallback of MostUsed and LeastUsed on an empty map.
   */
  function ComputerMove(s: Strategy, player: Move, last: Move, counts: Counts,
                        order: seq<Move>, randomIndex: nat): (r: Move)
    requires randomIndex < |Choices|
    requires IsIterationOrder(counts, order)
    ensures Permitted(s, player, last, counts, r)
    ensures s == Random ==> r == Choices[randomIndex]
    ensures (s == MostUsed || s == LeastUsed) && counts == map[] ==> r == Choices[randomIndex]
  {
    match s
    case Random => Choices[randomIndex]
    case LastUsed => last
    case MostUsed =>
      (match MaxEntry(counts, order)
       case Some(best) => best
       case None => Choices[randomIndex])
    case LeastUsed =>
      (match MinEntry(counts, order)
       case Some(best) => best
       case None => Choices[randomIndex])
    case Cheat => GetWinningMove(player)
  }

  /** A round the computer plays under Cheat is never a tie and never a player win. */
  lemma CheatAlwaysWins(player: Move, last: Move, counts: Counts, order: seq<Move>, randomIndex: nat)
    requires randomIndex < |Choices|
    requires IsIterationOrder(counts, order)
    ensures Resolve(player, ComputerMove(Cheat, player, last, counts, order, randomIndex)) == ComputerWins
  {
  }
}
