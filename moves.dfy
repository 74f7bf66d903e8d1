/**
 The moves of the game and the rule that decides a round: the outcome
 conditional of `playGame` and the winning-move table of `getWinningMove`.
 */
module Moves {

  datatype Move = Rock | Paper | Scissors

  /** The result of one round, from the player's side. */
  datatype Outcome = Tie | PlayerWins | ComputerWins

  /** The `choices` array: a random index in [0, 3) selects a move from it. */
  const Choices: seq<Move> := [Rock, Paper, Scissors]

  /** Position of a move in `Choices`. */
  function Index(m: Move): (i: nat)
    ensures i < |Choices| && Choices[i] == m
  {
    match m
    case Rock => 0
    case Paper => 1
    case Scissors => 2
  }

  /**
   Closed form of the game's cycle, independent of the conditional in
   `playGame`: `a` beats `b` when `a` stands one step after `b` in
   `Choices`, counting cyclically.
   */
  predicate Beats(a: Move, b: Move) {
    (Index(a) - Index(b)) % 3 == 1
  }

  /**
   The outcome conditional of `playGame`: a tie on equal moves, a player
   win on the three listed pairs, a computer win on every other pair.
   */
  function Resolve(player: Move, computer: Move): (r: Outcome)
    ensures r == Tie <==> player == computer
    ensures r == PlayerWins <==> Beats(player, computer)
    ensures r == ComputerWins <==> Beats(computer, player)
  {
    if player == computer then Tie
    else if (player == Rock && computer == Scissors)
         || (player == Paper && computer == Rock)
         || (player == Scissors && computer == Paper) then PlayerWins
    else ComputerWins
  }

  /** The same round seen from the other side. */
  function Mirror(o: Outcome): Outcome {
    match o
    case Tie => Tie
    case PlayerWins => ComputerWins
    case ComputerWins => PlayerWins
  }

  /** Swapping the two moves swaps the winner and keeps a tie. */
  lemma ResolveMirror(a: Move, b: Move)
    ensures Resolve(b, a) == Mirror(Resolve(a, b))
  {
  }

  /** `getWinningMove`: the one move that beats `m`. */
  function GetWinningMove(m: Move): (w: Move)
    ensures Beats(w, m)
    ensures forall x :: Beats(x, m) ==> x == w
  {
    match m
    case Rock => Paper
    case Paper => Scissors
    case Scissors => Rock
  }
}
