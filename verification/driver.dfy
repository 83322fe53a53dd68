/** The page as a whole: a click on one of the four buttons is an action, and
    a session of the game is the sequence of actions applied to the session
    that exists when the page is first opened. */
module Driver {
  import opened Catalog
  import opened Scoring
  import opened Game
  import opened Invariants

  datatype Action =
    | StartGame(names: seq<string>, rounds: nat, shuffled: seq<ScenarioCard>)
    | PlayTools(selection: seq<nat>)
    | SubmitReflection(text: string, refill: seq<ScenarioCard>)
    | Restart

  /** The action's button is on screen, and its inputs are ones the setup
      sliders, the tool boxes and the shuffle can produce. */
  predicate Enabled(s: Session, a: Action) {
    match a
    case StartGame(names, rounds, shuffled) => CanStart(s, names, rounds, shuffled)
    case PlayTools(selection) => CanPlay(s, selection)
    case SubmitReflection(_, refill) => CanContinue(s, refill)
    case Restart => s.gameStarted && s.gameOver
  }

  /** The setup screen, with names and a round count the sliders allow. */
  predicate CanStart(s: Session, names: seq<string>, rounds: nat, shuffled: seq<ScenarioCard>) {
    && !s.gameStarted
    && MinPlayers <= |names| <= MaxPlayers && MinRounds <= rounds <= MaxRounds
    && IsShuffle(shuffled)
  }

  /** A turn not yet scored, with tools picked in the boxes. */
  predicate CanPlay(s: Session, selection: seq<nat>) {
    s.gameStarted && !s.gameOver && !TurnScored(s) && ValidSelection(selection)
  }

  /** A turn just scored, awaiting its reflection. */
  predicate CanContinue(s: Session, refill: seq<ScenarioCard>) {
    s.gameStarted && !s.gameOver && TurnScored(s) && IsShuffle(refill)
  }

  /** One click. A button that is not on screen cannot be clicked, so an
      action that is not enabled leaves the session as it is. */
  function Step(s: Session, a: Action): (r: Session)
    requires Valid(s)
    ensures Valid(r)
    ensures !Enabled(s, a) ==> r == s
    ensures r.gameStarted ==> r.currentPlayerIndex < |r.players| && 1 <= r.currentRound <= r.maxRounds
  {
    var r := if Enabled(s, a) then Apply(s, a) else s;
    ValidInBounds(r);
    r
  }

  /** The handler of an enabled button, applied to the session. */
  function Apply(s: Session, a: Action): (r: Session)
    requires Valid(s) && Enabled(s, a)
    ensures Valid(r)
  {
    if a.StartGame? then ApplyStart(s, a.names, a.rounds, a.shuffled)
    else if a.PlayTools? then ApplyPlay(s, a.selection)
    else if a.SubmitReflection? then ApplyContinue(s, a.text, a.refill)
    else ApplyPlayAgain(s)
  }

  // One function per button, so that each handler's proof stands alone.

  function ApplyStart(s: Session, names: seq<string>, rounds: nat, shuffled: seq<ScenarioCard>): (r: Session)
    requires Valid(s) && CanStart(s, names, rounds, shuffled)
    ensures Valid(r)
  {
    StartValid(s, names, rounds, shuffled);
    Start(s, names, rounds, shuffled)
  }

  function ApplyPlay(s: Session, selection: seq<nat>): (r: Session)
    requires Valid(s) && CanPlay(s, selection)
    ensures Valid(r)
  {
    PlayValid(s, selection);
    Play(s, selection).session
  }

  function ApplyContinue(s: Session, text: string, refill: seq<ScenarioCard>): (r: Session)
    requires Valid(s) && CanContinue(s, refill)
    ensures Valid(r)
  {
    ContinueValid(s, text, refill);
    Continue(s, text, refill)
  }

  function ApplyPlayAgain(s: Session): (r: Session)
    requires Valid(s) && s.gameStarted && s.gameOver
    ensures Valid(r)
  {
    PlayAgainValid(s);
    PlayAgain(s)
  }

  /** The session after the clicks, first to last. */
  function Run(s: Session, actions: seq<Action>): (r: Session)
    requires Valid(s)
    ensures Valid(r)
    decreases |actions|
  {
    if |actions| == 0 then s else Run(Step(s, actions[0]), actions[1..])
  }

  /** Whatever the clicks, the session reached from a freshly opened page
      keeps the cursor in bounds and the round between 1 and the limit. */
  lemma ReachableInBounds(shuffled: seq<ScenarioCard>, actions: seq<Action>)
    requires IsShuffle(shuffled)
    ensures var r := Run(Init(shuffled), actions);
            && (r.gameStarted ==> r.currentPlayerIndex < |r.players| && 1 <= r.currentRound <= r.maxRounds)
            && (!r.gameStarted ==> !r.gameOver && r.players == [] && r.currentPlayerIndex == 0)
            && multiset(r.scenarioPool) <= multiset(Scenarios)
  {
    InitValid(shuffled);
  }

  /** Whatever the clicks, a finished game has given every player one score per round. */
  lemma ReachableGameOver(shuffled: seq<ScenarioCard>, actions: seq<Action>)
    requires IsShuffle(shuffled)
    ensures var r := Run(Init(shuffled), actions);
            r.gameStarted && r.gameOver ==> ScoredTurnCount(r.players) == |r.players| * r.maxRounds
  {
    InitValid(shuffled);
    var r := Run(Init(shuffled), actions);
    if r.gameStarted && r.gameOver {
      GameOverTurnCount(r);
    }
  }

  // ---------------------------------------------------------------------------
  // One game deals the shuffle drawn at Start Game in order.

  /** Round r shows entry r - 1 of the shuffle, and the pool holds the entries
      after it. */
  ghost predicate DealsInOrder(s: Session, shuffled: seq<ScenarioCard>) {
    && s.gameStarted
    && 1 <= s.currentRound <= |shuffled|
    && s.currentScenario == Some(shuffled[s.currentRound - 1])
    && s.scenarioPool == shuffled[s.currentRound..]
  }

  ghost predicate NoRestart(actions: seq<Action>) {
    forall k :: 0 <= k < |actions| ==> !actions[k].Restart?
  }

  lemma StartDealsInOrder(s: Session, names: seq<string>, rounds: nat, shuffled: seq<ScenarioCard>)
    requires Valid(s) && CanStart(s, names, rounds, shuffled)
    ensures DealsInOrder(Step(s, StartGame(names, rounds, shuffled)), shuffled)
  {
    ShuffleShape(shuffled);
  }

  /** Playing and continuing keep dealing in order; the next round takes the
      pool's head, which is the next entry of the shuffle. */
  lemma StepDealsInOrder(s: Session, a: Action, shuffled: seq<ScenarioCard>)
    requires Valid(s) && DealsInOrder(s, shuffled) && !a.Restart?
    ensures DealsInOrder(Step(s, a), shuffled)
  {
    match a
    case StartGame(_, _, _) =>
      assert !Enabled(s, a);
    case PlayTools(selection) =>
      if Enabled(s, a) {
        PlayDealsInOrder(s, selection, shuffled);
      }
    case SubmitReflection(text, refill) =>
      if Enabled(s, a) {
        assert PoolInvariant(s) && CursorInvariant(s);
        ContinueDealsInOrder(s, text, refill, shuffled);
      }
  }

  lemma PlayDealsInOrder(s: Session, selection: seq<nat>, shuffled: seq<ScenarioCard>)
    requires InProgress(s) && !TurnScored(s) && ValidSelection(selection)
    requires DealsInOrder(s, shuffled)
    ensures DealsInOrder(Play(s, selection).session, shuffled)
  {
  }

  lemma ContinueDealsInOrder(s: Session, text: string, refill: seq<ScenarioCard>, shuffled: seq<ScenarioCard>)
    requires InProgress(s) && TurnScored(s) && IsShuffle(refill)
    requires DealsInOrder(s, shuffled) && s.maxRounds <= |shuffled|
    ensures DealsInOrder(Continue(s, text, refill), shuffled)
  {
    var r := Continue(s, text, refill);
    if s.currentPlayerIndex + 1 == |s.players| && s.currentRound < s.maxRounds {
      assert [r.currentScenario.value] + r.scenarioPool == s.scenarioPool;
      NextDeal(s, r, shuffled);
    } else {
      SameDeal(s, r, shuffled);
    }
  }

  /** A session on the same round, scenario and pool deals in the same order. */
  lemma SameDeal(s: Session, r: Session, shuffled: seq<ScenarioCard>)
    requires DealsInOrder(s, shuffled) && r.gameStarted
    requires r.currentRound == s.currentRound && r.currentScenario == s.currentScenario
    requires r.scenarioPool == s.scenarioPool
    ensures DealsInOrder(r, shuffled)
  {
  }

  /** A session one round on, whose scenario was popped from the pool, has
      been dealt the next card of the shuffle. */
  lemma NextDeal(s: Session, r: Session, shuffled: seq<ScenarioCard>)
    requires DealsInOrder(s, shuffled) && r.gameStarted
    requires r.currentRound == s.currentRound + 1 <= |shuffled|
    requires r.currentScenario.Some? && [r.currentScenario.value] + r.scenarioPool == s.scenarioPool
    ensures DealsInOrder(r, shuffled)
  {
    DealNext(shuffled, s.currentRound, s.scenarioPool, r.currentScenario.value, r.scenarioPool);
  }

  /** Popping the head of the unplayed rest of a shuffle deals its next card. */
  lemma DealNext<T>(shuffled: seq<T>, round: nat, pool: seq<T>, head: T, rest: seq<T>)
    requires round < |shuffled| && pool == shuffled[round..] && [head] + rest == pool
    ensures head == shuffled[round] && rest == shuffled[round + 1..]
  {
    assert head == pool[0];
    assert rest == pool[1..];
  }

  lemma {:induction false} RunDealsInOrder(s: Session, actions: seq<Action>, shuffled: seq<ScenarioCard>)
    requires Valid(s) && DealsInOrder(s, shuffled) && NoRestart(actions)
    ensures DealsInOrder(Run(s, actions), shuffled)
    decreases |actions|
  {
    if |actions| > 0 {
      StepDealsInOrder(s, actions[0], shuffled);
      assert NoRestart(actions[1..]) by {
        forall k | 0 <= k < |actions[1..]| ensures !actions[1..][k].Restart? {
          assert actions[1..][k] == actions[k + 1];
        }
      }
      RunDealsInOrder(Step(s, actions[0]), actions[1..], shuffled);
    }
  }

  /** Until Play Again, the game shows the scenarios of the shuffle drawn at
      Start Game one per round, in order, so two moments of one game that lie
      in different rounds show different scenarios: no scenario repeats
      within a game. */
  lemma NoScenarioRepeats(s: Session, names: seq<string>, rounds: nat, shuffled: seq<ScenarioCard>,
                          early: seq<Action>, later: seq<Action>)
    requires Valid(s) && CanStart(s, names, rounds, shuffled)
    requires NoRestart(early) && NoRestart(later)
    ensures var started := Step(s, StartGame(names, rounds, shuffled));
            var r1 := Run(started, early);
            var r2 := Run(r1, later);
            && DealsInOrder(r1, shuffled) && DealsInOrder(r2, shuffled)
            && (r1.currentRound != r2.currentRound ==> r1.currentScenario != r2.currentScenario)
  {
    var started := Step(s, StartGame(names, rounds, shuffled));
    StartDealsInOrder(s, names, rounds, shuffled);
    RunDealsInOrder(started, early, shuffled);
    var r1 := Run(started, early);
    RunDealsInOrder(r1, later, shuffled);
    DealtRoundsDiffer(r1, Run(r1, later), shuffled);
  }

  /** Two sessions dealing one shuffle in order show different scenarios in
      different rounds. */
  lemma DealtRoundsDiffer(r1: Session, r2: Session, shuffled: seq<ScenarioCard>)
    requires IsShuffle(shuffled) && DealsInOrder(r1, shuffled) && DealsInOrder(r2, shuffled)
    ensures r1.currentRound != r2.currentRound ==> r1.currentScenario != r2.currentScenario
  {
    var i, j := r1.currentRound - 1, r2.currentRound - 1;
    if i < j {
      ShuffleDistinct(shuffled, i, j);
    } else if j < i {
      ShuffleDistinct(shuffled, j, i);
    }
  }
}
