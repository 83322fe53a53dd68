/** What stays true of every session the button handlers can produce: the
    cursor is in bounds, the round lies between 1 and the round limit, every
    player has been scored exactly for the turns already played, the running
    totals match the score histories, a token was paid for exactly the plays
    of 7 or more, and the pool plus the current scenario is part of one
    shuffle of the catalog. */
module Invariants {
  import opened Catalog
  import opened Scoring
  import opened Players
  import opened Game

  /** How many of the scores reached the token threshold. */
  function Successes(scores: seq<int>): nat {
    if |scores| == 0 then 0
    else (if scores[0] >= TokenThreshold then 1 else 0) + Successes(scores[1..])
  }

  lemma {:induction false} SuccessesAppend(scores: seq<int>, x: int)
    ensures Successes(scores + [x]) == Successes(scores) + (if x >= TokenThreshold then 1 else 0)
  {
    if |scores| == 0 {
      assert scores + [x] == [x];
      assert [x][1..] == [];
    } else {
      assert (scores + [x])[1..] == scores[1..] + [x];
      SuccessesAppend(scores[1..], x);
    }
  }

  /** The number of turns the k-th player has been scored for: one per
      finished round, one more if the player's turn in this round is over or
      has just been scored, and every round once the game is over. */
  function TurnsPlayed(s: Session, k: nat): int {
    if s.gameOver then s.maxRounds
    else s.currentRound - 1
         + (if k < s.currentPlayerIndex || (k == s.currentPlayerIndex && TurnScored(s)) then 1 else 0)
  }

  /** The current player has been scored but has not yet continued. */
  function PendingReflection(s: Session, k: nat): nat {
    if k == s.currentPlayerIndex && TurnScored(s) then 1 else 0
  }

  ghost predicate PlayerInvariant(s: Session, k: nat)
    requires k < |s.players|
  {
    var p := s.players[k];
    && Consistent(p)
    && |p.tokens| == Successes(p.roundScores)
    && |p.roundScores| == TurnsPlayed(s, k)
    && |p.reflections| + PendingReflection(s, k) <= |p.roundScores|
  }

  ghost predicate SetupInvariant(s: Session) {
    && !s.gameOver
    && s.players == []
    && s.currentRound == 0
    && s.currentPlayerIndex == 0
    && s.scoredTurns == {}
  }

  /** The cursor is on a turn of the game, at most that turn's flag is
      raised, and a finished game stopped on its last turn. */
  ghost predicate CursorInvariant(s: Session) {
    && MinPlayers <= |s.players| <= MaxPlayers
    && s.currentPlayerIndex < |s.players|
    && 1 <= s.currentRound <= s.maxRounds <= MaxRounds
    && s.scoredTurns <= {(s.currentRound, s.currentPlayerIndex)}
    && (s.gameOver ==> && s.scoredTurns == {}
                       && s.currentRound == s.maxRounds
                       && s.currentPlayerIndex + 1 == |s.players|)
  }

  /** The pool and the current scenario are part of one shuffle of the
      catalog, and one scenario has been taken per round begun. */
  ghost predicate PoolInvariant(s: Session) {
    && s.currentScenario.Some?
    && multiset(s.scenarioPool) + multiset{s.currentScenario.value} <= multiset(Scenarios)
    && |s.scenarioPool| + s.currentRound == |Scenarios|
  }

  ghost predicate PlayersInvariant(s: Session) {
    forall k :: 0 <= k < |s.players| ==> PlayerInvariant(s, k)
  }

  ghost predicate GameInvariant(s: Session) {
    CursorInvariant(s) && PoolInvariant(s) && PlayersInvariant(s)
  }

  ghost predicate Valid(s: Session) {
    && s.maxRounds >= MinRounds
    && multiset(s.scenarioPool) <= multiset(Scenarios)
    && (!s.gameStarted ==> SetupInvariant(s))
    && (s.gameStarted ==> GameInvariant(s))
  }

  /** A valid running game has its cursor on a player and a round within the limit. */
  lemma ValidInBounds(s: Session)
    requires Valid(s)
    ensures s.gameStarted ==> s.currentPlayerIndex < |s.players| && 1 <= s.currentRound <= s.maxRounds
  {
    if s.gameStarted {
      assert CursorInvariant(s);
    }
  }

  // ---------------------------------------------------------------------------
  // Each handler keeps the invariant.

  lemma InitValid(shuffled: seq<ScenarioCard>)
    requires IsShuffle(shuffled)
    ensures Valid(Init(shuffled))
  {
  }

  /** Players with empty records at the first turn of round 1 are on schedule. */
  lemma FreshPlayersInvariant(r: Session, names: seq<string>)
    requires r.currentRound == 1 && r.currentPlayerIndex == 0 && !r.gameOver && r.scoredTurns == {}
    requires |r.players| == |names|
    requires forall k :: 0 <= k < |names| ==> r.players[k] == NewPlayer(names[k])
    ensures PlayersInvariant(r)
  {
  }

  lemma StartValid(s: Session, names: seq<string>, rounds: nat, shuffled: seq<ScenarioCard>)
    requires Valid(s) && !s.gameStarted
    requires MinPlayers <= |names| <= MaxPlayers && MinRounds <= rounds <= MaxRounds
    requires IsShuffle(shuffled)
    ensures Valid(Start(s, names, rounds, shuffled))
  {
    assert SetupInvariant(s);
    StartPoolValid(s, names, rounds, shuffled);
    StartPlayersValid(s, names, rounds, shuffled);
  }

  /** The new game's pool and scenario are one shuffle of the catalog. */
  lemma StartPoolValid(s: Session, names: seq<string>, rounds: nat, shuffled: seq<ScenarioCard>)
    requires !s.gameStarted
    requires MinPlayers <= |names| <= MaxPlayers && MinRounds <= rounds <= MaxRounds
    requires IsShuffle(shuffled)
    ensures PoolInvariant(Start(s, names, rounds, shuffled))
    ensures multiset(Start(s, names, rounds, shuffled).scenarioPool) <= multiset(Scenarios)
  {
    var r := Start(s, names, rounds, shuffled);
    FullPoolWithin(r.scenarioPool, r.currentScenario.value, multiset(Scenarios));
  }

  /** The new game's players have played nothing, as is due at its first turn. */
  lemma StartPlayersValid(s: Session, names: seq<string>, rounds: nat, shuffled: seq<ScenarioCard>)
    requires SetupInvariant(s) && !s.gameStarted
    requires MinPlayers <= |names| <= MaxPlayers && MinRounds <= rounds <= MaxRounds
    requires IsShuffle(shuffled)
    ensures PlayersInvariant(Start(s, names, rounds, shuffled))
  {
    FreshPlayersInvariant(Start(s, names, rounds, shuffled), names);
  }

  /** A pool that with the current scenario makes up the whole bound lies within it. */
  lemma FullPoolWithin<T>(pool: seq<T>, current: T, bound: multiset<T>)
    requires multiset(pool) + multiset{current} == bound
    ensures multiset(pool) + multiset{current} <= bound && multiset(pool) <= bound
  {
  }

  /** q is p after one more round score and, for a score of 7 or more, one
      more token. */
  ghost predicate ScoredOnce(p: Player, q: Player, total: int) {
    && q.roundScores == p.roundScores + [total]
    && |q.tokens| == |p.tokens| + (if total >= TokenThreshold then 1 else 0)
    && q.reflections == p.reflections
    && (Consistent(p) ==> Consistent(q))
  }

  /** Scoring the current player once and raising the turn's flag keeps every
      player on schedule. */
  lemma ScoredOnceInvariant(s: Session, r: Session, total: int)
    requires s.currentPlayerIndex < |s.players| && !s.gameOver && s.scoredTurns == {}
    requires PlayersInvariant(s)
    requires r == s.(players := r.players, scoredTurns := {(s.currentRound, s.currentPlayerIndex)})
    requires |r.players| == |s.players|
    requires ScoredOnce(s.players[s.currentPlayerIndex], r.players[s.currentPlayerIndex], total)
    requires forall k :: 0 <= k < |s.players| && k != s.currentPlayerIndex ==> r.players[k] == s.players[k]
    ensures PlayersInvariant(r)
  {
    var i := s.currentPlayerIndex;
    forall k | 0 <= k < |r.players| ensures PlayerInvariant(r, k) {
      assert PlayerInvariant(s, k);
      if k == i {
        SuccessesAppend(s.players[i].roundScores, total);
      }
    }
  }

  lemma PlayValid(s: Session, selection: seq<nat>)
    requires Valid(s) && InProgress(s) && !TurnScored(s)
    requires ValidSelection(selection)
    ensures Valid(Play(s, selection).session)
  {
    if selection != [] {
      var r := Play(s, selection).session;
      PlayPlayersValid(s, selection);
      assert r.scenarioPool == s.scenarioPool && r.currentScenario == s.currentScenario;
      assert r.currentRound == s.currentRound && r.currentPlayerIndex == s.currentPlayerIndex;
      assert PoolInvariant(r);
      assert CursorInvariant(r);
    }
  }

  /** Scoring the turn gives its player the one round score now due. */
  lemma PlayPlayersValid(s: Session, selection: seq<nat>)
    requires InProgress(s) && !TurnScored(s) && ValidSelection(selection) && selection != []
    requires s.scoredTurns <= {(s.currentRound, s.currentPlayerIndex)} && PlayersInvariant(s)
    ensures PlayersInvariant(Play(s, selection).session)
  {
    var r := Play(s, selection).session;
    var i := s.currentPlayerIndex;
    var total := Score(Chosen(selection), s.currentScenario.value).total;
    assert s.scoredTurns == {};
    assert ScoredOnce(s.players[i], r.players[i], total);
    ScoredOnceInvariant(s, r, total);
  }

  /** q is p with at most one more reflection. */
  ghost predicate ReflectedOnce(p: Player, q: Player) {
    && q.roundScores == p.roundScores
    && q.tokens == p.tokens
    && |q.reflections| <= |p.reflections| + 1
    && (Consistent(p) ==> Consistent(q))
  }

  /** Lowering the flag, storing at most one reflection and moving the cursor
      to the next turn (or ending the game after the last one) keeps every
      player on schedule. */
  lemma AdvanceInvariant(s: Session, r: Session)
    requires s.currentPlayerIndex < |s.players| && !s.gameOver && TurnScored(s)
    requires PlayersInvariant(s)
    requires |r.players| == |s.players| && r.scoredTurns == {}
    requires ReflectedOnce(s.players[s.currentPlayerIndex], r.players[s.currentPlayerIndex])
    requires forall k :: 0 <= k < |s.players| && k != s.currentPlayerIndex ==> r.players[k] == s.players[k]
    requires r.gameOver ==> && r.maxRounds == s.currentRound
                            && s.currentPlayerIndex + 1 == |s.players|
    requires !r.gameOver ==> NextCursor(s, r)
    ensures PlayersInvariant(r)
  {
    forall k | 0 <= k < |r.players| ensures PlayerInvariant(r, k) {
      assert PlayerInvariant(s, k);
    }
  }

  /** Lowering the flag and storing the reflection keeps every player on schedule,
      whichever way the cursor then moves. */
  lemma ContinuePlayersValid(s: Session, reflection: string, refill: seq<ScenarioCard>)
    requires InProgress(s) && TurnScored(s) && IsShuffle(refill)
    requires s.scoredTurns <= {(s.currentRound, s.currentPlayerIndex)} && s.currentRound <= s.maxRounds
    requires PlayersInvariant(s)
    ensures PlayersInvariant(Continue(s, reflection, refill))
  {
    var r := Continue(s, reflection, refill);
    var i := s.currentPlayerIndex;
    assert s.scoredTurns == {(s.currentRound, i)};
    ContinueMovesCursor(s, reflection, refill);
    assert ReflectedOnce(s.players[i], r.players[i]);
    AdvanceInvariant(s, r);
  }

  /** Popping the head of a pool keeps pool and head within the bound that
      held the pool and the previous scenario. */
  lemma PopWithinBound<T>(pool: seq<T>, head: T, rest: seq<T>, previous: T, bound: multiset<T>)
    requires [head] + rest == pool
    requires multiset(pool) + multiset{previous} <= bound
    ensures multiset(rest) + multiset{head} <= bound
    ensures multiset(rest) <= bound
  {
    assert multiset(pool) == multiset{head} + multiset(rest);
  }

  lemma DropWithinBound<T>(pool: seq<T>, current: T, bound: multiset<T>)
    requires multiset(pool) + multiset{current} <= bound
    ensures multiset(pool) <= bound
  {
  }

  /** A new round draws from the pool, which still holds a scenario. */
  lemma ContinuePoolValid(s: Session, reflection: string, refill: seq<ScenarioCard>)
    requires InProgress(s) && TurnScored(s) && IsShuffle(refill)
    requires s.currentRound <= s.maxRounds <= MaxRounds && PoolInvariant(s)
    ensures PoolInvariant(Continue(s, reflection, refill))
    ensures multiset(Continue(s, reflection, refill).scenarioPool) <= multiset(Scenarios)
  {
    var r := Continue(s, reflection, refill);
    if s.currentPlayerIndex + 1 == |s.players| && s.currentRound < s.maxRounds {
      assert [r.currentScenario.value] + r.scenarioPool == s.scenarioPool;
      PopWithinBound(s.scenarioPool, r.currentScenario.value, r.scenarioPool,
                     s.currentScenario.value, multiset(Scenarios));
    } else {
      DropWithinBound(r.scenarioPool, r.currentScenario.value, multiset(Scenarios));
    }
  }

  /** The cursor moves to the next turn, or stays on the last one when the
      game ends, and every flag is lowered. */
  lemma ContinueCursorValid(s: Session, reflection: string, refill: seq<ScenarioCard>)
    requires CursorInvariant(s) && InProgress(s) && TurnScored(s) && IsShuffle(refill)
    ensures CursorInvariant(Continue(s, reflection, refill))
  {
    assert s.scoredTurns == {(s.currentRound, s.currentPlayerIndex)};
  }

  lemma ContinueValid(s: Session, reflection: string, refill: seq<ScenarioCard>)
    requires Valid(s) && InProgress(s) && TurnScored(s)
    requires IsShuffle(refill)
    ensures Valid(Continue(s, reflection, refill))
  {
    ContinuePlayersValid(s, reflection, refill);
    ContinuePoolValid(s, reflection, refill);
    ContinueCursorValid(s, reflection, refill);
  }

  lemma PlayAgainValid(s: Session)
    requires Valid(s) && s.gameStarted && s.gameOver
    ensures Valid(PlayAgain(s))
  {
  }

  // ---------------------------------------------------------------------------
  // Consequences.

  /** Number of round scores recorded over all players. */
  function ScoredTurnCount(players: seq<Player>): nat {
    if |players| == 0 then 0 else |players[0].roundScores| + ScoredTurnCount(players[1..])
  }

  lemma {:induction false} ScoredTurnCountUniform(players: seq<Player>, n: nat)
    requires forall k :: 0 <= k < |players| ==> |players[k].roundScores| == n
    ensures ScoredTurnCount(players) == |players| * n
  {
    if |players| > 0 {
      assert forall k :: 0 <= k < |players[1..]| ==> |players[1..][k].roundScores| == n by {
        forall k | 0 <= k < |players[1..]| ensures |players[1..][k].roundScores| == n {
          assert players[1..][k] == players[k + 1];
        }
      }
      ScoredTurnCountUniform(players[1..], n);
    }
  }

  /** A finished game has scored every player once per round: exactly
      players times rounds scored turns in all. */
  lemma GameOverTurnCount(s: Session)
    requires Valid(s) && s.gameStarted && s.gameOver
    ensures forall k :: 0 <= k < |s.players| ==> |s.players[k].roundScores| == s.maxRounds
    ensures ScoredTurnCount(s.players) == |s.players| * s.maxRounds
  {
    forall k | 0 <= k < |s.players| ensures |s.players[k].roundScores| == s.maxRounds {
      assert PlayerInvariant(s, k);
    }
    ScoredTurnCountUniform(s.players, s.maxRounds);
  }

  /** In any reachable game a player's final score is determined by the round
      scores alone: their sum plus five for every score of at least 7. */
  lemma FinalScoreFromRoundScores(s: Session, k: nat)
    requires Valid(s) && s.gameStarted && k < |s.players|
    ensures FinalScore(s.players[k]) == Sum(s.players[k].roundScores) + TokenBonus * Successes(s.players[k].roundScores)
  {
    assert PlayerInvariant(s, k);
  }

  /** In a running game a player holds one token per play of 7 or more. */
  lemma TokenCountFromRoundScores(s: Session, k: nat)
    requires Valid(s) && s.gameStarted && k < |s.players|
    ensures TokenCount(s.players[k]) == Successes(s.players[k].roundScores)
  {
    assert PlayerInvariant(s, k);
  }

  /** In a running game a player's total is the sum of the round scores. */
  lemma TotalPointsFromRoundScores(s: Session, k: nat)
    requires Valid(s) && s.gameStarted && k < |s.players|
    ensures TotalPoints(s.players[k]) == Sum(s.players[k].roundScores)
  {
    assert PlayerInvariant(s, k);
  }

  /** The position of the current turn in the whole game, counting from 0. */
  function TurnNumber(s: Session): int {
    TurnAt(s.currentRound, s.currentPlayerIndex, |s.players|)
  }

  /** Turns before the one of player `index` in round `round` with `n`
      players: the earlier players of this round, and n turns for every
      earlier round. */
  function TurnAt(round: nat, index: nat, n: nat): nat {
    if round <= 1 then index else TurnAt(round - 1, index, n) + n
  }

  lemma {:induction false} TurnAtProduct(round: nat, index: nat, n: nat)
    requires round >= 1
    ensures TurnAt(round, index, n) == (round - 1) * n + index
  {
    if round > 1 {
      TurnAtProduct(round - 1, index, n);
      assert (round - 2) * n + n == (round - 1) * n;
    }
  }

  lemma TurnAtNextRound(round: nat, n: nat)
    requires round >= 1 && n >= 1
    ensures TurnAt(round + 1, 0, n) == TurnAt(round, n - 1, n) + 1
  {
    TurnAtProduct(round, 0, n);
    TurnAtProduct(round, n - 1, n);
  }

  lemma MulMonotone(a: nat, b: nat, n: nat)
    requires a <= b
    ensures a * n <= b * n
  {
    assert b * n == a * n + (b - a) * n;
  }

  /** The turn after (round, i) is the last of max rounds of n players
      exactly when (round, i) is the last position. */
  lemma TurnArithmetic(round: nat, i: nat, n: nat, max: nat)
    requires 1 <= round <= max && i < n
    ensures TurnAt(round, i, n) + 1 == n * max <==> i + 1 == n && round == max
  {
    TurnAtProduct(round, i, n);
    var before := (round - 1) * n;
    assert before + n == round * n;
    assert n * max == max * n;
    if round < max {
      MulMonotone(round, max - 1, n);
      assert (max - 1) * n + n == max * n;
    }
  }

  lemma ContinueEndsGameIff(s: Session, reflection: string, refill: seq<ScenarioCard>)
    requires InProgress(s) && TurnScored(s) && IsShuffle(refill)
    ensures Continue(s, reflection, refill).gameOver <==>
              s.currentPlayerIndex + 1 == |s.players| && s.currentRound >= s.maxRounds
  {
  }

  /** r's cursor is on the turn right after s's: the next player of the same
      round, or the first player of the next round after the last player. */
  ghost predicate NextCursor(s: Session, r: Session) {
    && |r.players| == |s.players|
    && ((r.currentRound == s.currentRound && r.currentPlayerIndex == s.currentPlayerIndex + 1)
        || (s.currentPlayerIndex + 1 == |s.players|
            && r.currentRound == s.currentRound + 1 && r.currentPlayerIndex == 0))
  }

  lemma NextCursorTurn(s: Session, r: Session)
    requires 1 <= s.currentRound && NextCursor(s, r)
    ensures TurnNumber(r) == TurnNumber(s) + 1
  {
    if r.currentRound == s.currentRound {
      TurnAtProduct(s.currentRound, s.currentPlayerIndex, |s.players|);
      TurnAtProduct(r.currentRound, r.currentPlayerIndex, |r.players|);
    } else {
      TurnAtNextRound(s.currentRound, |s.players|);
    }
  }

  lemma ContinueMovesCursor(s: Session, reflection: string, refill: seq<ScenarioCard>)
    requires InProgress(s) && TurnScored(s) && IsShuffle(refill)
    ensures !Continue(s, reflection, refill).gameOver ==> NextCursor(s, Continue(s, reflection, refill))
  {
  }

  /** Continue moves to the very next turn, and ends the game exactly when the
      turn just finished was the last of players times rounds turns. */
  lemma ContinueAdvancesTurn(s: Session, reflection: string, refill: seq<ScenarioCard>)
    requires InProgress(s) && TurnScored(s)
    requires 1 <= s.currentRound <= s.maxRounds
    requires IsShuffle(refill)
    ensures Continue(s, reflection, refill).gameOver <==> TurnNumber(s) + 1 == |s.players| * s.maxRounds
    ensures !Continue(s, reflection, refill).gameOver ==> TurnNumber(Continue(s, reflection, refill)) == TurnNumber(s) + 1
  {
    var r := Continue(s, reflection, refill);
    ContinueEndsGameIff(s, reflection, refill);
    TurnArithmetic(s.currentRound, s.currentPlayerIndex, |s.players|, s.maxRounds);
    ContinueMovesCursor(s, reflection, refill);
    if !r.gameOver {
      NextCursorTurn(s, r);
    }
  }

  /** Playing never moves the cursor. */
  lemma PlayKeepsTurn(s: Session, selection: seq<nat>)
    requires Valid(s) && InProgress(s) && !TurnScored(s)
    requires ValidSelection(selection)
    ensures TurnNumber(Play(s, selection).session) == TurnNumber(s)
    ensures !Play(s, selection).session.gameOver
  {
  }

  /** With at most nine rounds a game never empties the pool, so the refill
      branch of the draw is never taken within a game. */
  lemma NoRefillDuringGame(s: Session)
    requires Valid(s) && InProgress(s)
    requires s.currentRound < s.maxRounds
    ensures |s.scenarioPool| > 0
  {
  }

  /** The pool never holds more than the nine catalog scenarios, and holds
      nothing else. */
  lemma PoolWithinCatalog(s: Session)
    requires Valid(s)
    ensures |s.scenarioPool| <= |Scenarios|
    ensures forall k :: 0 <= k < |s.scenarioPool| ==> s.scenarioPool[k] in Scenarios
  {
    SubMultisetWithin(s.scenarioPool, Scenarios);
  }

  /** The scenario being played is no longer in the pool, so it cannot come
      up again before the pool has been used up. */
  lemma CurrentNotInPool(s: Session)
    requires Valid(s) && s.gameStarted
    ensures s.currentScenario.value !in s.scenarioPool
  {
    var c := s.currentScenario.value;
    ScenarioCatalogShape();
    DistinctMultiplicity(Scenarios, c);
    assert (multiset(s.scenarioPool) + multiset{c})[c] <= 1;
    assert multiset(s.scenarioPool)[c] == 0;
  }
}

