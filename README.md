# Rock-Paper-Scissors game engine

A Dafny model of the game engine inside `RockPaperScissorsFrame`, a Swing
Rock-Paper-Scissors game. The player picks a move. The computer picks a
strategy at random and answers with a move that depends on that strategy.
The round is then decided, and the session counters, the player's move
statistics and the history log are updated.

Modules, one per part of the engine:

- `Moves` (`moves.dfy`): the moves, the outcome of a round (`Resolve`, the
  conditional in `playGame`) and `GetWinningMove`. `Beats` is a closed
  form of the cycle: `a` beats `b` when `a` is one step after `b` in
  Rock, Paper, Scissors, counting cyclically. The outcome rule is proved
  equal to it.
- `MoveCounts` (`movecounts.dfy`): the `moveCounts` map and its
  `getOrDefault`/`put` update (`Record`). It also holds the stream
  `max`/`min` folds over a listing of the map's keys (`MaxFold`,
  `MinFold`), and their use over the whole entry set (`MaxEntry`,
  `MinEntry`).
- `Strategies` (`strategies.dfy`): the strategy enum, the strategy choice
  (`SelectStrategy`), and the dispatch of `getComputerMove`
  (`ComputerMove`). `Permitted` says what each strategy may answer.
- `Rounds` (`rounds.dfy`): the history as a sequence of `Round` records.
  Each session field is a function of the history: the outcome counters,
  `lastPlayerMove`, `moveCounts` and `computerStrategy`. `Legal` says that
  every logged round obeyed its strategy. The lemmas here relate a legal
  history to the counters.
- `Game` (`game.dfy`): the class `RockPaperScissorsFrame`. It has the
  source's fields, updated in place by `GetComputerMove` and `PlayGame`.
  Its invariant `Valid()` says that every field is what the logged
  history makes it, and that the history is legal.

The random draws of the source are parameters:

- `cheatDraw` stands for the test `nextDouble() < 0.1`.
- `strategyIndex` (in [0, 5)) stands for `nextInt(5)`. It is only used when
  `cheatDraw` is false, as in the source.
- `moveIndex` (in [0, 3)) stands for `nextInt(3)`.

The iteration order of the `HashMap` is a parameter too. `order` is any
duplicate-free listing of the map's keys.

`moveCounts` starts empty (src/RockPaperScissorsFrame.java:13), and a
move becomes a key only once it has been played (line 111). So MostUsed
and LeastUsed fall back to a random move only in the first round, and
afterwards range over the moves played so far. `TallyKeys` and
`FrequencyRoundUsesCounts` state this.

## Model

| member | source | states |
|---|---|---|
| `Moves.Resolve` | src/RockPaperScissorsFrame.java:97-108 | a tie exactly when the moves are equal; a player win exactly when the player's move beats the computer's in the cyclic closed form; a computer win exactly when the computer's move beats the player's |
| `Moves.ResolveMirror` | src/RockPaperScissorsFrame.java:97-108 | swapping the two moves keeps a tie and swaps the winner |
| `Moves.GetWinningMove` | src/RockPaperScissorsFrame.java:151-157 | the result beats the given move, and it is the only move that does |
| `MoveCounts.Record` | src/RockPaperScissorsFrame.java:111 | the played move's count is one more than before (1 if it was absent); every other count is unchanged; the key set gains the move; the total grows by one |
| `MoveCounts.MaxFold` | src/RockPaperScissorsFrame.java:134-137 | the fold over a listing of keys is empty exactly for an empty listing; otherwise it gives a listed key whose count is at least every listed count, and the first such key in the listing (Java's `maxBy` keeps the earlier of two equal entries) |
| `MoveCounts.MaxEntry` | src/RockPaperScissorsFrame.java:134-137 | over an iteration order of the whole map: none exactly for an empty map; otherwise a key whose count is at least every count in the map, and the first such key in the iteration order |
| `MoveCounts.MinFold` | src/RockPaperScissorsFrame.java:139-142 | the fold over a listing of keys is empty exactly for an empty listing; otherwise it gives a listed key whose count is at most every listed count, and the first such key in the listing (Java's `minBy` keeps the earlier of two equal entries) |
| `MoveCounts.MinEntry` | src/RockPaperScissorsFrame.java:139-142 | over an iteration order of the whole map: none exactly for an empty map; otherwise a key whose count is at most every count in the map, and the first such key in the iteration order |
| `Strategies.SelectStrategy` | src/RockPaperScissorsFrame.java:122-127 | a successful cheat draw selects Cheat; otherwise the strategy whose ordinal is the drawn index; Cheat exactly when the cheat draw succeeds or the index is Cheat's ordinal |
| `Strategies.ComputerMove` | src/RockPaperScissorsFrame.java:128-147 | Random gives the drawn move; LastUsed gives the last player move; MostUsed/LeastUsed on a non-empty map give a key of greatest/least count, and the drawn move on an empty map; Cheat gives a move that beats the player's |
| `Strategies.CheatAlwaysWins` | src/RockPaperScissorsFrame.java:143-144 | a round answered under Cheat is a computer win |
| `Rounds.OutcomesSum` | src/RockPaperScissorsFrame.java:97-107 | the tie, player-win and computer-win counts of a history sum to its number of rounds |
| `Rounds.TallyTotal` | src/RockPaperScissorsFrame.java:111 | the move counts built from a history sum to its number of rounds |
| `Rounds.TallyKeys` | src/RockPaperScissorsFrame.java:13 | a move is a key of the counts exactly when some round played it, and then its count is positive |
| `Rounds.CheatRoundsWon` | src/RockPaperScissorsFrame.java:143-144 | in a legal history every round played under Cheat is a computer win |
| `Rounds.ComputerWinsCoverCheats` | src/RockPaperScissorsFrame.java:100-107 | in a legal history the computer has won at least as many rounds as it played under Cheat |
| `Rounds.LastUsedEchoes` | src/RockPaperScissorsFrame.java:131-132 | a LastUsed round answers with the player's move of the previous round, or Rock in the first round |
| `Rounds.FrequencyRoundUsesCounts` | src/RockPaperScissorsFrame.java:133-142 | after the first round, a MostUsed (LeastUsed) round answers with a move already played whose count is greatest (least) |
| `Game.SummarizesStep` | src/RockPaperScissorsFrame.java:92-111 | one round that follows the history keeps every field equal to the function of the extended history |
| `Game.RockPaperScissorsFrame.constructor` | src/RockPaperScissorsFrame.java:11-17 | counters zero, last move Rock, empty counts, strategy RANDOM, empty log; the invariant holds |
| `Game.RockPaperScissorsFrame.GetComputerMove` | src/RockPaperScissorsFrame.java:121-148 | `computerStrategy` is overwritten with the selected strategy, and the move is the dispatch of that strategy on the current state |
| `Game.RockPaperScissorsFrame.PlayGame` | src/RockPaperScissorsFrame.java:92-118 | the invariant is kept; one round is logged with the player's move, the computer's move, the strategy used and their outcome; `gamesPlayed` grows by one; exactly the matching outcome counter grows by one; `lastPlayerMove` is the player's move; `moveCounts` is updated by `Record` |
| `Game.CountersAddUp` | src/RockPaperScissorsFrame.java:11 | in every valid state `playerWins + computerWins + ties == gamesPlayed`, and the move counts sum to `gamesPlayed` |
| `Game.CheatRoundWon` | src/RockPaperScissorsFrame.java:143-144 | every logged round played under Cheat is a computer win |

`ThreeRoundScenario` in `game.dfy` is a client of the class. It plays
Rock, Rock and Paper from a fresh game. Its assertions state that
afterwards `gamesPlayed` is 3, Rock's count is 2, Paper's count is 1, and
the outcome counters sum to 3.

## Left out

- The Swing window is not part of this model: the constructor's layout
  code, `setupButtonPanel`, `setupStatsPanel`, `setupHistoryPanel`, the
  label `setText` calls and `resizeIcon`. They only build and refresh the
  display.
- The Quit button's `System.exit(0)` is process control.
- The random number generator is a parameter. The model does not state
  the probabilities of the draws (including Cheat's overall rate of about
  28%). It does not model the floating-point comparison `nextDouble() < 0.1`,
  which is the boolean `cheatDraw`.
- The model does not track how many numbers the generator consumes. In the
  source, the argument of `orElse(choices[random.nextInt(3)])` is evaluated
  even when the map is not empty.
- The `HashMap` iteration order is the parameter `order`, not computed from
  the map's hashing.
- History lines are abstract `Round` records, not the formatted text that
  `playGame` appends to the text area.
- The `default` branches of `getComputerMove` and `getWinningMove` cannot
  be reached once moves and strategies are closed datatypes.
- The integer counters are unbounded. Java's `int` would wrap after 2^31 - 1
  rounds, which the model does not capture.
- Strategies.ComputerMove: for MostUsed and LeastUsed on a non-empty map,
  its contract states only "a key of greatest (least) count". The exact
  tie-break, the first such key in iteration order, is stated by
  `MoveCounts.MaxEntry` and `MoveCounts.MinEntry`.
