# The Strategy Shuffle — game logic in Dafny

The Strategy Shuffle is a card game about leadership and influence, built as a
Streamlit page (`app.py`). This project models its game logic and proves
properties of that model:

- **Catalogs.** Twelve tool cards, each with a power type (soft, hard or smart)
  and a value of 2 or 3 points. Nine scenario cards, each suggesting three
  tools and offering a reward token.
- **Scoring engine.** `calculate_points` produces a breakdown. The base is the
  sum of the card values. The synergy bonus is +2 when two or more of the chosen
  tools are suggested by the scenario. The variety bonus is +1 when all three
  power types are played. The total is the sum of the three.
- **Player record.** It keeps the influence total, the round scores, the tokens
  and the reflections. The final score is influence plus 5 per token.
- **Session state machine.** Four button handlers drive it:
  - Start Game
  - Play These Tools (score the turn; a play of 7 or more earns the token)
  - Submit Reflection & Continue (next player, next round with a new scenario,
    or game over)
  - Play Again

Modules follow that structure:

| module | file | contents |
|---|---|---|
| `Catalog` | catalog.dfy | power types, tool identities, the two catalogs |
| `Scoring` | scoring.dfy | `Score`, its reference predicates, bounds, order independence |
| `Players` | players.dfy | `Player` and its operations, replay of any call history |
| `Game` | game.dfy | `Session`, `Init`, `Start`, `Play`, `Continue`, `Draw`, `PlayAgain` |
| `Invariants` | invariants.dfy | the session invariant `Valid` and its consequences |
| `Driver` | driver.dfy | clicks as `Action`s, `Step`, `Run`, properties of every reachable session |
| `Summary` | summary.dfy | the winner shown on the game-over screen |

Choices made in modelling:

- The session is an immutable `Session` value. Each handler is a function from
  the session before the click to the session after it.
- `random.shuffle` is an input. `Start` and `Continue` receive a shuffled copy
  of the scenario catalog (`IsShuffle`: same multiset as the catalog).
- The per-turn flags `turn_<round>_<index>` are the set `scoredTurns` of
  `(round, index)` pairs whose flag is raised. A missing key reads as a lowered
  flag, as the code's default of `False` does.
- A selection is the list of catalog indices the three selection boxes produce
  (`selected_indices`). The boxes remove already-picked tools, so a selection
  has at most three distinct indices. `ValidSelection` states this, and the
  handlers take it as a precondition.
- `Start` requires 1 to 6 names and 1 to 9 rounds. Those are the only values
  the setup sliders can give.
- Scenario cards are an enumeration, `ScenarioCard`. Each card's title,
  suggested tools and reward token are functions of the card.
- A scenario title keeps the separator characters of the code's string
  literal: U+201A U+00C4 U+00EE. That is an em dash whose UTF-8 bytes were
  decoded as Mac Roman once.

Details of the code that the model keeps as written:

- A reflection is stored whenever its text is non-empty (`if reflection_text:`).
  Text made only of spaces is stored too.
- Start Game does not reset `current_player_index` or `game_over`. The model
  leaves them unchanged, and the invariant `Valid` proves they are already
  0 and false on the setup screen.
- Play Again resets only `game_started`, `players`, `current_round`,
  `game_over` and `current_player_index`. The round limit, the current
  scenario, the pool and the turn flags are kept. All flags are lowered by
  then anyway.
- Rounds are capped at 9 and there are 9 scenarios. So within one game the
  refill branch of the scenario draw is never taken (`NoRefillDuringGame`).
  Until Play Again, round r shows entry r of the shuffle drawn at Start Game,
  so no scenario repeats within a game (`NoScenarioRepeats`). The refill
  branch is still modelled and proved.

## Model

| member | source | states |
|---|---|---|
| Catalog.ToolIndex | app.py:80-165 | every tool identity has a card in the tool catalog, at the returned position |
| Catalog.ToolCatalogShape | app.py:80-165 | the tool catalog has 12 cards with distinct identities, each worth 2 or 3 points |
| Catalog.ScenarioCatalogShape | app.py:167-272 | the scenario catalog has 9 distinct cards, each suggesting 3 distinct tools |
| Scoring.Score | app.py:303-317 | base is the sum of card values; synergy is 2 exactly when two different picks are suggested tools, else 0; variety is 1 exactly when soft, hard and smart are all played, else 0; total is their sum; an empty play scores 0 |
| Scoring.SuggestedPairIff | app.py:306-311 | counting suggested picks to at least two is the same as finding two positions holding suggested tools, in both directions |
| Scoring.AllPowersIff | app.py:313-314 | a power-type set of size 3 is the same as covering soft, hard and smart, in both directions |
| Scoring.VarietyNeedsThreeKinds | app.py:313-314 | with at most three cards, the variety bonus is paid exactly when there are three cards of three different power types |
| Scoring.SynergyIsOverlap | app.py:306-311 | for a valid selection the synergy bonus is paid exactly when the picked identities overlap the suggested tools in at least two |
| Scoring.SuggestedCountIsOverlap | app.py:307-309 | for picks with distinct identities, the count of suggested picks is the size of the overlap with the suggested tools |
| Scoring.BasePointsRange | app.py:304 | catalog cards give a base between 2 and 3 points per card |
| Scoring.ScoreBounds | app.py:303-317 | a valid selection scores at most 12, and a non-empty one at least 2 |
| Scoring.ScoreOrderIndependent | app.py:303-317 | the same tools picked in any order give the same breakdown |
| Scoring.Chosen | app.py:737 | the chosen cards are the catalog cards at the selected indices, in pick order |
| Scoring.ChosenDistinct | app.py:700-719 | the cards of a valid selection are catalog cards with pairwise distinct identities |
| Scoring.ExampleVarietyWithoutSynergy | app.py:303-317 | Ethos, Logos and Might against the first scenario, which suggests none of them, score 7 + 0 + 1 = 8 |
| Scoring.ExampleSynergyAtThreshold | app.py:303-317 | Allocentrism and Agency against the first scenario score 5 + 2 + 0 = 7 |
| Scoring.ExampleMaximalPlay | app.py:303-317 | Team Building, Coalitions and Might against the merger scenario reach the bound of 12 |
| Players.NewPlayer | app.py:49-55 | a new player has no scores, tokens or reflections, a consistent total and final score 0 |
| Players.FinalScore | app.py:60-63 | for a consistent player the final score is the sum of round scores plus 5 per token |
| Players.AddRoundScore | app.py:65-67 | appends exactly the score to the history, raises influence and final score by it, keeps consistency, touches nothing else |
| Players.AddToken | app.py:69-70 | appends the token, raises the final score by 5, touches nothing else |
| Players.AddReflection | app.py:72-73 | appends the reflection, leaves the final score and everything else unchanged |
| Players.ReplayFinalScore | app.py:57-76 | after any sequence of score, token and reflection calls, the final score has grown by the points added plus 5 per token, and consistency is kept |
| Game.Init | app.py:275-300 | the opening session: not started, no players, round 0, round limit 5, a pool holding the whole catalog |
| Game.ShufflePop | app.py:533-539 | popping the head of a shuffle leaves the other 8 scenarios, none equal to the head |
| Game.ShuffleDistinct | app.py:533-534 | a shuffle of the catalog holds no scenario twice |
| Game.Start | app.py:530-540 | one fresh player per name, the chosen round limit, round 1, the head of the shuffle as current scenario, the rest of the shuffle in order as pool; index, game-over and turn flags untouched |
| Game.ScoreTurn | app.py:737-747 | the current player gains exactly one round score (the total) and the reward token exactly when the total is at least 7; the turn flag is raised; nothing else changes |
| Game.Play | app.py:726-748 | an empty selection only raises the warning and changes nothing; any other selection scores the turn and raises its flag |
| Game.Draw | app.py:818-829 | pops the pool's head when the pool is non-empty; else pops the head of a fresh shuffle, whose rest becomes the pool; what is left plus the drawn scenario stays within the catalog |
| Game.Continue | app.py:798-833 | stores a non-empty reflection and lowers the turn's flag, leaving the player's name, influence, round scores and tokens as they were; then moves to the next player, or to the next round with index 0 and a drawn scenario, or ends the game |
| Game.PlayAgain | app.py:629-635 | back to setup with no players, round 0 and index 0; pool, scenario, round limit and flags kept |
| Invariants.InitValid | app.py:275-300 | the opening session satisfies the invariant |
| Invariants.StartValid | app.py:530-540 | Start Game keeps the invariant |
| Invariants.StartPoolValid | app.py:533-539 | the new game's pool and current scenario are together one shuffle of the catalog |
| Invariants.StartPlayersValid | app.py:531 | the new game's players have played nothing, as is due at its first turn |
| Invariants.PlayValid | app.py:726-748 | Play These Tools keeps the invariant |
| Invariants.PlayPlayersValid | app.py:737-747 | scoring the turn gives its player the one round score now due, and a token exactly for a score of 7 or more |
| Invariants.ContinuePlayersValid | app.py:803-806 | storing the reflection and lowering the flag keeps every player scored exactly for the turns played |
| Invariants.ContinuePoolValid | app.py:815-829 | the next round's scenario comes from the pool, and pool plus current scenario stay within one shuffle of the catalog |
| Invariants.ContinueCursorValid | app.py:808-833 | Continue keeps the cursor on a turn of the game with every flag lowered, and a finished game stops on its last turn |
| Invariants.ContinueValid | app.py:798-833 | Submit Reflection & Continue keeps the invariant, including index within the players and round within 1 and the limit |
| Invariants.PlayAgainValid | app.py:629-635 | Play Again keeps the invariant |
| Invariants.GameOverTurnCount | app.py:808-833 | at game over every player holds exactly one score per round, players times rounds scores in all |
| Invariants.TokenCountFromRoundScores | app.py:742-745 | in a running game a player's token count is the number of round scores of at least 7 |
| Invariants.TotalPointsFromRoundScores | app.py:57-58 | in a running game a player's total points are the sum of the round scores |
| Invariants.FinalScoreFromRoundScores | app.py:742-745 | in a running game a player's final score is the sum of the round scores plus 5 for each score of at least 7 |
| Invariants.ContinueEndsGameIff | app.py:808-833 | Continue ends the game exactly after the last player of the last round |
| Invariants.ContinueMovesCursor | app.py:808-817 | unless the game ends, Continue moves to the next player of the round, or after the last player to the first player of the next round |
| Invariants.ContinueAdvancesTurn | app.py:808-833 | Continue moves to the very next turn, and ends the game exactly after turn number players times rounds |
| Invariants.PlayKeepsTurn | app.py:726-748 | playing neither moves the cursor nor ends the game |
| Invariants.NoRefillDuringGame | app.py:815-829 | while rounds remain, the pool still holds a scenario, so the refill branch is not taken within a game |
| Invariants.PoolWithinCatalog | app.py:818-829 | the pool never holds more than 9 scenarios, and only catalog scenarios |
| Invariants.CurrentNotInPool | app.py:533-539 | the scenario being played is no longer in the pool |
| Driver.Step | app.py:496-833 | a click keeps the invariant; a click on a button that is not on screen changes nothing |
| Driver.Run | app.py:496-833 | any sequence of clicks from a valid session ends in a valid session |
| Driver.ReachableInBounds | app.py:496-833 | in every session reachable from the opening page, the index is within the players and the round is between 1 and the limit |
| Driver.StartDealsInOrder | app.py:530-540 | right after Start Game, the round shows the first entry of the shuffle and the pool holds the rest in order |
| Driver.StepDealsInOrder | app.py:726-833 | any click except Play Again keeps round r on entry r of the shuffle, with the pool holding the entries after it |
| Driver.ContinueDealsInOrder | app.py:815-829 | the next round pops the pool's head, which is the next entry of the shuffle |
| Driver.RunDealsInOrder | app.py:496-833 | any clicks without Play Again keep dealing the shuffle in order |
| Driver.NoScenarioRepeats | app.py:815-829 | after Start Game and until Play Again, two moments in different rounds show different scenarios |
| Driver.ReachableGameOver | app.py:808-833 | every finished game reachable from the opening page holds players times rounds scored turns |
| Summary.Winner | app.py:567 | the winner has a maximal final score and is the first player with that score |

## Left out

- Streamlit rendering: CSS, sidebar profile widgets, titles, metrics, progress bar, expanders and `st.rerun`. These only present state.
- The pandas table on the game-over screen. It is sorted display data built from `FinalScore`, `TotalPoints` and `TokenCount`. Only the winner choice is modelled.
- The rebuilt score breakdown shown after a rerun. It repeats `calculate_points` for display only.
- The random reflection prompt and the list of prompts. Both are presentation.
- `random.shuffle` itself. The shuffled catalog is an input of `Init`, `Start`, `Draw` and `Continue`.
- Names, narratives, lessons, effects and descriptions of cards, and the display strings of the enums. The one exception is the scenario name, kept as its identity.
- Widget state: names typed, slider positions, reflection text. These arrive as inputs to the handlers.
- Players.FinalScore: its contract relates the result to the round scores only for a consistent player. For any other player it is just influence plus 5 per token.
