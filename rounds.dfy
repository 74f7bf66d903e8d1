/**
 The game's history as a sequence of rounds, one per call of `playGame`,
 and the session counters as functions of it. Each history entry is the
 abstract content of the line `playGame` appends to its log: the two
 moves, the strategy in force and the outcome.
 */
module Rounds {
  import opened Moves
  import opened MoveCounts
  import opened Strategies

  datatype Round = Round(player: Move, computer: Move, strategy: Strategy, outcome: Outcome)

  /** Number of rounds in `h` that ended with `o`. */
  function CountOutcome(h: seq<Round>, o: Outcome): nat {
    if h == [] then 0
    else CountOutcome(h[..|h| - 1], o) + (if h[|h| - 1].outcome == o then 1 else 0)
  }

  /** Number of rounds in `h` played under strategy `s`. */
  function CountStrategy(h: seq<Round>, s: Strategy): nat {
    if h == [] then 0
    else CountStrategy(h[..|h| - 1], s) + (if h[|h| - 1].strategy == s then 1 else 0)
  }

  /** The `moveCounts` map after the rounds of `h`, starting from the empty map. */
  function Tally(h: seq<Round>): Counts {
    if h == [] then map[] else Record(Tally(h[..|h| - 1]), h[|h| - 1].player)
  }

  /** `lastPlayerMove` after the rounds of `h`: "Rock" before the first round. */
  function LastPlayerMove(h: seq<Round>): Move {
    if h == [] then Rock else h[|h| - 1].player
  }

  /** `computerStrategy` after the rounds of `h`: RANDOM before the first round. */
  function LastStrategy(h: seq<Round>): Strategy {
    if h == [] then Random else h[|h| - 1].strategy
  }

  /** What appending one round does to each function of the history. */
  lemma AppendRound(h: seq<Round>, r: Round)
    ensures CountOutcome(h + [r], Tie) == CountOutcome(h, Tie) + (if r.outcome == Tie then 1 else 0)
    ensures CountOutcome(h + [r], PlayerWins) == CountOutcome(h, PlayerWins) + (if r.outcome == PlayerWins then 1 else 0)
    ensures CountOutcome(h + [r], ComputerWins) == CountOutcome(h, ComputerWins) + (if r.outcome == ComputerWins then 1 else 0)
    ensures Tally(h + [r]) == Record(Tally(h), r.player)
    ensures LastPlayerMove(h + [r]) == r.player
    ensures LastStrategy(h + [r]) == r.strategy
  {
    assert (h + [r])[..|h|] == h;
  }

  /** Round `r` is one `playGame` can produce after the rounds of `prefix`. */
  ghost predicate RoundFollows(prefix: seq<Round>, r: Round) {
    && r.outcome == Resolve(r.player, r.computer)
    && Permitted(r.strategy, r.player, LastPlayerMove(prefix), Tally(prefix), r.computer)
  }

  /** Every round of `h` follows the rounds before it. */
  ghost predicate Legal(h: seq<Round>) {
    h == [] || (Legal(h[..|h| - 1]) && RoundFollows(h[..|h| - 1], h[|h| - 1]))
  }

  /** Exactly one of the three outcome counters grows per round, so they sum to the number of rounds. */
  lemma {:induction false} OutcomesSum(h: seq<Round>)
    ensures CountOutcome(h, Tie) + CountOutcome(h, PlayerWins) + CountOutcome(h, ComputerWins) == |h|
  {
    if h != [] {
      OutcomesSum(h[..|h| - 1]);
    }
  }

  /** The move counts sum to the number of rounds. */
  lemma {:induction false} TallyTotal(h: seq<Round>)
    ensures Total(Tally(h)) == |h|
  {
    if h != [] {
      TallyTotal(h[..|h| - 1]);
    }
  }

  /** A move is a key of the counts exactly when some round played it, and then its count is positive. */
  lemma {:induction false} TallyKeys(h: seq<Round>, m: Move)
    ensures m in Tally(h) <==> exists i :: 0 <= i < |h| && h[i].player == m
    ensures m in Tally(h) ==> Tally(h)[m] > 0
  {
    if h != [] {
      var prefix := h[..|h| - 1];
      TallyKeys(prefix, m);
      if m in Tally(prefix) {
        var i :| 0 <= i < |prefix| && prefix[i].player == m;
        assert h[i].player == m;
      }
      if exists i :: 0 <= i < |h| && h[i].player == m {
        var i :| 0 <= i < |h| && h[i].player == m;
        if i < |prefix| {
          assert prefix[i].player == m;
        }
      }
    }
  }

  /** Appending a round that follows the history keeps the history legal. */
  lemma LegalAppend(h: seq<Round>, r: Round)
    requires Legal(h)
    requires RoundFollows(h, r)
    ensures Legal(h + [r])
  {
    assert (h + [r])[..|h|] == h;
  }

  /** In a legal history each round follows the rounds before it. */
  lemma {:induction false} LegalAt(h: seq<Round>, i: nat)
    requires Legal(h)
    requires i < |h|
    ensures RoundFollows(h[..i], h[i])
  {
    var prefix := h[..|h| - 1];
    if i < |h| - 1 {
      LegalAt(prefix, i);
      assert prefix[..i] == h[..i];
    }
  }

  /** In a legal history every Cheat round is a computer win. */
  lemma CheatRoundsWon(h: seq<Round>, i: nat)
    requires Legal(h)
    requires i < |h| && h[i].strategy == Cheat
    ensures h[i].outcome == ComputerWins
  {
    LegalAt(h, i);
  }

  /** So the computer has won at least as many rounds as it played under Cheat. */
  lemma {:induction false} ComputerWinsCoverCheats(h: seq<Round>)
    requires Legal(h)
    ensures CountStrategy(h, Cheat) <= CountOutcome(h, ComputerWins)
  {
    if h != [] {
      ComputerWinsCoverCheats(h[..|h| - 1]);
    }
  }

  /** A LastUsed round echoes the player's move of the round before, or Rock in the first round. */
  lemma LastUsedEchoes(h: seq<Round>, i: nat)
    requires Legal(h)
    requires i < |h| && h[i].strategy == LastUsed
    ensures h[i].computer == if i == 0 then Rock else h[i - 1].player
  {
    LegalAt(h, i);
    if i > 0 {
      assert h[..i][i - 1] == h[i - 1];
    }
  }

  /**
   After the first round the counts are never empty, so a MostUsed or
   LeastUsed round never falls back to a random move: it answers with a
   move the player has already played, of greatest or least count.
   */
  lemma FrequencyRoundUsesCounts(h: seq<Round>, i: nat)
    requires Legal(h)
    requires 0 < i < |h|
    ensures var counts := Tally(h[..i]);
            && (h[i].strategy == MostUsed ==>
                  h[i].computer in counts && forall k :: k in counts ==> counts[k] <= counts[h[i].computer])
            && (h[i].strategy == LeastUsed ==>
                  h[i].computer in counts && forall k :: k in counts ==> counts[h[i].computer] <= counts[k])
  {
    LegalAt(h, i);
    TallyKeys(h[..i], h[0].player);
    assert h[..i][0] == h[0];
  }
}
