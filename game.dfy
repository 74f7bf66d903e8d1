/**
 The game state of `RockPaperScissorsFrame`: the four counters, the
 player's last move, the move counts, the strategy of the latest round
 and the history log, updated in place by `playGame` and
 `getComputerMove`. The window around it is not modelled.
 */
module Game {
  import opened Moves
  import opened MoveCounts
  import opened Strategies
  import opened Rounds

  /**
   The session fields are those the rounds of `h` produce, and every
   round of `h` followed the rounds before it.
   */
  ghost predicate Summarizes(h: seq<Round>, playerWins: nat, computerWins: nat, ties: nat, gamesPlayed: nat,
                             lastPlayerMove: Move, moveCounts: Counts, computerStrategy: Strategy)
  {
    && gamesPlayed == |h|
    && ties == CountOutcome(h, Tie)
    && playerWins == CountOutcome(h, PlayerWins)
    && computerWins == CountOutcome(h, ComputerWins)
    && lastPlayerMove == LastPlayerMove(h)
    && moveCounts == Tally(h)
    && computerStrategy == LastStrategy(h)
    && Legal(h)
  }

  /** One round of `playGame` keeps the fields in step with the history. */
  lemma SummarizesStep(h: seq<Round>, r: Round, playerWins: nat, computerWins: nat, ties: nat, gamesPlayed: nat,
                       lastPlayerMove: Move, moveCounts: Counts, computerStrategy: Strategy)
    requires Summarizes(h, playerWins, computerWins, ties, gamesPlayed, lastPlayerMove, moveCounts, computerStrategy)
    requires r.outcome == Resolve(r.player, r.computer)
    requires Permitted(r.strategy, r.player, lastPlayerMove, moveCounts, r.computer)
    ensures Summarizes(h + [r],
                       playerWins + (if r.outcome == PlayerWins then 1 else 0),
                       computerWins + (if r.outcome == ComputerWins then 1 else 0),
                       ties + (if r.outcome == Tie then 1 else 0),
                       gamesPlayed + 1, r.player, Record(moveCounts, r.player), r.strategy)
  {
    LegalAppend(h, r);
    AppendRound(h, r);
  }

  class RockPaperScissorsFrame {
    var playerWins: nat
    var computerWins: nat
    var ties: nat
    var gamesPlayed: nat
    var lastPlayerMove: Move
    var moveCounts: Counts
    var computerStrategy: Strategy
    /** The history log, one entry per round, never shortened. */
    var history: seq<Round>

    /** Every field is what the rounds of `history` make it, and every round followed the ones before it. */
    ghost predicate Valid()
      reads this
    {
      Summarizes(history, playerWins, computerWins, ties, gamesPlayed, lastPlayerMove, moveCounts, computerStrategy)
    }

    /** The field initialisers: all counters zero, last move Rock, no counts, strategy RANDOM, empty log. */
    constructor ()
      ensures Valid()
      ensures playerWins == 0 && computerWins == 0 && ties == 0 && gamesPlayed == 0
      ensures lastPlayerMove == Rock && moveCounts == map[] && computerStrategy == Random
      ensures history == []
    {
      playerWins, computerWins, ties, gamesPlayed := 0, 0, 0, 0;
      lastPlayerMove := Rock;
      moveCounts := map[];
      computerStrategy := Random;
      history := [];
    }

    /**
     `getComputerMove`: stores the chosen strategy in `computerStrategy`,
     then yields the move that strategy gives. The random draws are
     parameters (see `SelectStrategy` and `ComputerMove`); `order` is the
     iteration order of `moveCounts`. Like the private method it models,
     it is called only from `PlayGame`: it leaves `computerStrategy` ahead
     of the history, so `Valid()` does not hold between the two, and it
     holds again once `PlayGame` has logged the round.
     */
    method GetComputerMove(player: Move, cheatDraw: bool, strategyIndex: nat,
                           moveIndex: nat, order: seq<Move>) returns (move: Move)
      requires strategyIndex < |Values| && moveIndex < |Choices|
      requires IsIterationOrder(moveCounts, order)
      modifies this`computerStrategy
      ensures computerStrategy == SelectStrategy(cheatDraw, strategyIndex)
      ensures move == ComputerMove(computerStrategy, player, lastPlayerMove, moveCounts, order, moveIndex)
      ensures Permitted(computerStrategy, player, lastPlayerMove, moveCounts, move)
    {
      if cheatDraw {
        computerStrategy := Cheat;
      } else {
        computerStrategy := Values[strategyIndex];
      }
      move := ComputerMove(computerStrategy, player, lastPlayerMove, moveCounts, order, moveIndex);
    }

    /**
     `playGame`: one round. Counts the game, asks for the computer's move,
     increments exactly one of the outcome counters, remembers the
     player's move, counts it, and logs the round, which is returned as
     the ghost `r`.
     */
    method PlayGame(player: Move, cheatDraw: bool, strategyIndex: nat,
                    moveIndex: nat, order: seq<Move>) returns (ghost r: Round)
      requires Valid()
      requires strategyIndex < |Values| && moveIndex < |Choices|
      requires IsIterationOrder(moveCounts, order)
      modifies this
      ensures Valid()
      ensures history == old(history) + [r]
      ensures r.player == player && r.strategy == computerStrategy == SelectStrategy(cheatDraw, strategyIndex)
      ensures r.computer == ComputerMove(r.strategy, player, old(lastPlayerMove), old(moveCounts), order, moveIndex)
      ensures r.outcome == Resolve(player, r.computer)
      ensures gamesPlayed == old(gamesPlayed) + 1
      ensures ties == old(ties) + (if r.outcome == Tie then 1 else 0)
      ensures playerWins == old(playerWins) + (if r.outcome == PlayerWins then 1 else 0)
      ensures computerWins == old(computerWins) + (if r.outcome == ComputerWins then 1 else 0)
      ensures lastPlayerMove == player
      ensures moveCounts == Record(old(moveCounts), player)
    {
      ghost var h, s := history, computerStrategy;
      var computer := GetComputerMove(player, cheatDraw, strategyIndex, moveIndex, order);
      var outcome := Resolve(player, computer);
      var round := Round(player, computer, computerStrategy, outcome);
      r := round;
      SummarizesStep(h, round, playerWins, computerWins, ties, gamesPlayed, lastPlayerMove, moveCounts, s);
      var t, p, c := ties, playerWins, computerWins;
      if outcome == Tie {
        t := t + 1;
      } else if outcome == PlayerWins {
        p := p + 1;
      } else {
        c := c + 1;
      }
      gamesPlayed, ties, playerWins, computerWins, lastPlayerMove, moveCounts, history :=
        gamesPlayed + 1, t, p, c, player, Record(moveCounts, player), history + [round];
    }
  }

  /** Before and after every round the outcome counters and the move counts both sum to the games played. */
  lemma CountersAddUp(game: RockPaperScissorsFrame)
    requires game.Valid()
    ensures game.playerWins + game.computerWins + game.ties == game.gamesPlayed
    ensures Total(game.moveCounts) == game.gamesPlayed
  {
    OutcomesSum(game.history);
    TallyTotal(game.history);
  }

  /** A round played under Cheat is a computer win, never a tie or a player win. */
  lemma CheatRoundWon(game: RockPaperScissorsFrame, r: Round)
    requires game.Valid()
    requires r in game.history && r.strategy == Cheat
    ensures r.outcome == ComputerWins
  {
    var i :| 0 <= i < |game.history| && game.history[i] == r;
    CheatRoundsWon(game.history, i);
  }

  /**
   A fresh game in which the player plays Rock, Rock, then Paper, the
   computer each time choosing at random.
   */
  method ThreeRoundScenario()
  {
    var game := new RockPaperScissorsFrame();
    ghost var r1 := game.PlayGame(Rock, false, 0, 0, []);
    assert game.gamesPlayed == 1;
    ghost var r2 := game.PlayGame(Rock, false, 0, 0, [Rock]);
    ghost var r3 := game.PlayGame(Paper, false, 0, 0, [Rock]);
    assert game.gamesPlayed == 3;
    assert Get(game.moveCounts, Rock) == 2 && Get(game.moveCounts, Paper) == 1;
    CountersAddUp(game);
    assert game.playerWins + game.computerWins + game.ties == 3;
  }
}
