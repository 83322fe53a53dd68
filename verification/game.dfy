/** The game session and the four button handlers that change it: Start Game,
    Play These Tools, Submit Reflection & Continue, and Play Again. The session
    is an explicit value; each handler is a function from the session before
    the click to the session after it. Shuffling is an input: the caller
    passes the shuffled scenario catalog it wants used. */
module Game {
  import opened Catalog
  import opened Scoring
  import opened Players

  datatype Option<T> = None | Some(value: T)

  /** Rounds preset before any game has been configured. */
  const DefaultMaxRounds: nat := 5
  /** Player and round counts the setup sliders allow. */
  const MinPlayers: nat := 1
  const MaxPlayers: nat := 6
  const MinRounds: nat := 1
  const MaxRounds: nat := 9
  /** A play scoring at least this many points earns the scenario's token. */
  const TokenThreshold: int := 7
  const EmptySelectionWarning: string := "Please select at least one tool or skip this round."

  /** A turn, named by round number and player position. */
  type TurnKey = (nat, nat)

  datatype Session = Session(
    gameStarted: bool,
    gameOver: bool,
    players: seq<Player>,
    currentRound: nat,
    maxRounds: nat,
    currentPlayerIndex: nat,
    currentScenario: Option<ScenarioCard>,
    scenarioPool: seq<ScenarioCard>,
    // the turns whose "scored" flag is raised; every other flag reads as lowered
    scoredTurns: set<TurnKey>)

  /** A rearrangement of the whole scenario catalog. */
  predicate IsShuffle(s: seq<ScenarioCard>) {
    multiset(s) == multiset(Scenarios)
  }

  lemma ShuffleShape(s: seq<ScenarioCard>)
    requires IsShuffle(s)
    ensures |s| == |Scenarios| == 9
  {
    ScenarioCatalogShape();
    assert |s| == |multiset(s)| == |multiset(Scenarios)| == |Scenarios|;
  }

  lemma PopFront<T>(s: seq<T>)
    requires |s| > 0
    ensures s == [s[0]] + s[1..]
    ensures multiset(s) == multiset{s[0]} + multiset(s[1..])
  {
    assert s == [s[0]] + s[1..];
  }

  /** A sequence whose multiset lies within another's is no longer and holds
      only its elements. */
  lemma SubMultisetWithin<T>(s: seq<T>, t: seq<T>)
    requires multiset(s) <= multiset(t)
    ensures |s| <= |t|
    ensures forall k :: 0 <= k < |s| ==> s[k] in t
  {
    var m := multiset(s);
    assert |m| <= |multiset(t)| by {
      assert multiset(t) == m + (multiset(t) - m);
    }
    forall k | 0 <= k < |s| ensures s[k] in t {
      assert s[k] in m;
    }
  }

  /** The catalog holds no scenario twice, so neither does a shuffle of it. */
  lemma ShuffleHeadNotInTail(s: seq<ScenarioCard>)
    requires IsShuffle(s) && |s| > 0
    ensures s[0] !in s[1..]
  {
    ScenarioCatalogShape();
    DistinctMultiplicity(Scenarios, s[0]);
    PopFront(s);
    assert multiset(s[1..])[s[0]] == 0;
  }

  /** Popping the head of a shuffle leaves the rest of the catalog. */
  lemma ShufflePop(s: seq<ScenarioCard>)
    requires IsShuffle(s)
    ensures |s| == |Scenarios|
    ensures multiset(s[1..]) + multiset{s[0]} == multiset(Scenarios)
    ensures |s[1..]| == |Scenarios| - 1
    ensures s[0] !in s[1..]
  {
    ShuffleShape(s);
    PopFront(s);
    ShuffleHeadNotInTail(s);
  }

  /** A rearrangement of a sequence without repeats has none either. */
  lemma SameMultisetDistinct<T>(s: seq<T>, t: seq<T>, i: nat, j: nat)
    requires multiset(s) == multiset(t) && Distinct(t) && i < j < |s|
    ensures s[i] != s[j]
  {
    DistinctMultiplicity(t, s[i]);
    assert s == s[..i] + [s[i]] + s[i + 1..j] + [s[j]] + s[j + 1..];
    assert multiset(s) == multiset(s[..i]) + multiset{s[i]} + multiset(s[i + 1..j]) + multiset{s[j]} + multiset(s[j + 1..]);
    assert multiset(s)[s[i]] >= 1 + (if s[j] == s[i] then 1 else 0);
  }

  /** A shuffle holds no scenario twice. */
  lemma ShuffleDistinct(s: seq<ScenarioCard>, i: nat, j: nat)
    requires IsShuffle(s) && i < j < |s|
    ensures s[i] != s[j]
  {
    ScenarioCatalogShape();
    SameMultisetDistinct(s, Scenarios, i, j);
  }

  /** The session when the page is first opened. */
  function Init(shuffled: seq<ScenarioCard>): (s: Session)
    requires IsShuffle(shuffled)
    ensures !s.gameStarted && !s.gameOver && s.players == []
    ensures s.currentRound == 0 && s.currentPlayerIndex == 0 && s.maxRounds == DefaultMaxRounds
    ensures s.currentScenario == None && s.scoredTurns == {}
    ensures multiset(s.scenarioPool) == multiset(Scenarios) && |s.scenarioPool| == 9
  {
    ShuffleShape(shuffled);
    Session(false, false, [], 0, DefaultMaxRounds, 0, None, shuffled, {})
  }

  /** The gameplay screen is showing: a game runs and the current player and
      scenario exist. */
  predicate InProgress(s: Session) {
    && s.gameStarted
    && !s.gameOver
    && s.currentPlayerIndex < |s.players|
    && s.currentScenario.Some?
  }

  /** The current turn has been scored and awaits its reflection. */
  predicate TurnScored(s: Session) {
    (s.currentRound, s.currentPlayerIndex) in s.scoredTurns
  }

  /** Start Game: one fresh player per name, the chosen number of rounds, a
      newly shuffled pool whose first scenario is taken as the current one. */
  function Start(s: Session, names: seq<string>, rounds: nat, shuffled: seq<ScenarioCard>): (r: Session)
    requires !s.gameStarted
    requires MinPlayers <= |names| <= MaxPlayers && MinRounds <= rounds <= MaxRounds
    requires IsShuffle(shuffled)
    ensures r.gameStarted && r.currentRound == 1 && r.maxRounds == rounds
    ensures |r.players| == |names|
    ensures forall k :: 0 <= k < |names| ==> r.players[k] == NewPlayer(names[k])
    ensures r.currentScenario == Some(shuffled[0]) && r.scenarioPool == shuffled[1..]
    ensures multiset(r.scenarioPool) + multiset{r.currentScenario.value} == multiset(Scenarios)
    ensures |r.scenarioPool| == |Scenarios| - 1
    ensures r.currentScenario.value !in r.scenarioPool
    ensures r.gameOver == s.gameOver && r.currentPlayerIndex == s.currentPlayerIndex
    ensures r.scoredTurns == s.scoredTurns
  {
    ShufflePop(shuffled);
    var players := NewPlayers(names);
    s.(players := players, maxRounds := rounds, scenarioPool := shuffled[1..],
       gameStarted := true, currentRound := 1, currentScenario := Some(shuffled[0]))
  }

  function NewPlayers(names: seq<string>): (ps: seq<Player>)
    ensures |ps| == |names|
    ensures forall k :: 0 <= k < |names| ==> ps[k] == NewPlayer(names[k])
  {
    if |names| == 0 then [] else [NewPlayer(names[0])] + NewPlayers(names[1..])
  }

  datatype Response = Response(session: Session, warning: Option<string>)

  /** The new session after the current player plays the selected tools:
      the total goes into the player's record, the reward token too when the
      total reaches the threshold, and the turn is marked as scored. */
  function ScoreTurn(s: Session, selection: seq<nat>): (r: Session)
    requires InProgress(s) && ValidSelection(selection)
    ensures var i := s.currentPlayerIndex;
            var scenario := s.currentScenario.value;
            var total := Score(Chosen(selection), scenario).total;
            && |r.players| == |s.players|
            && r.players[i].roundScores == s.players[i].roundScores + [total]
            && r.players[i].tokens == s.players[i].tokens + (if total >= TokenThreshold then [scenario.RewardToken()] else [])
            && r.players[i].reflections == s.players[i].reflections
            && r.players[i].name == s.players[i].name
            && FinalScore(r.players[i]) == FinalScore(s.players[i]) + total + (if total >= TokenThreshold then TokenBonus else 0)
            && (Consistent(s.players[i]) ==> Consistent(r.players[i]))
            && (forall k :: 0 <= k < |s.players| && k != i ==> r.players[k] == s.players[k])
            && r == s.(players := r.players, scoredTurns := s.scoredTurns + {(s.currentRound, i)})
  {
    var i := s.currentPlayerIndex;
    var scenario := s.currentScenario.value;
    var total := Score(Chosen(selection), scenario).total;
    var scored := AddRoundScore(s.players[i], total);
    var player := if total >= TokenThreshold then AddToken(scored, scenario.RewardToken()) else scored;
    s.(players := s.players[i := player], scoredTurns := s.scoredTurns + {(s.currentRound, i)})
  }

  /** Play These Tools. An empty selection only raises a warning; any other
      selection is scored. */
  function Play(s: Session, selection: seq<nat>): (r: Response)
    requires InProgress(s) && !TurnScored(s)
    requires ValidSelection(selection)
    ensures r.warning.Some? <==> selection == []
    ensures selection == [] ==> r.session == s
    ensures selection != [] ==> r.session == ScoreTurn(s, selection) && TurnScored(r.session)
  {
    if |selection| == 0 then Response(s, Some(EmptySelectionWarning))
    else Response(ScoreTurn(s, selection), None)
  }

  /** A scenario popped from part of the catalog is a catalog scenario, and
      fewer than nine remain. */
  lemma PopWithinCatalog(source: seq<ScenarioCard>)
    requires |source| > 0 && multiset(source) <= multiset(Scenarios)
    ensures source[0] in Scenarios && |source[1..]| < |Scenarios|
  {
    SubMultisetWithin(source, Scenarios);
  }

  /** Take the next scenario from the pool, or from a fresh shuffle of the
      catalog when the pool is empty. */
  function Draw(pool: seq<ScenarioCard>, refill: seq<ScenarioCard>): (r: (ScenarioCard, seq<ScenarioCard>))
    requires IsShuffle(refill)
    ensures |pool| > 0 ==> [r.0] + r.1 == pool
    ensures |pool| == 0 ==> [r.0] + r.1 == refill
    ensures |pool| == 0 ==> multiset(r.1) + multiset{r.0} == multiset(Scenarios)
    ensures multiset(pool) <= multiset(Scenarios) ==> multiset(r.1) + multiset{r.0} <= multiset(Scenarios)
    ensures multiset(pool) <= multiset(Scenarios) ==> r.0 in Scenarios && |r.1| < |Scenarios|
  {
    ShuffleShape(refill);
    var source := if |pool| > 0 then pool else refill;
    PopFront(source);
    assert multiset(source) <= multiset(Scenarios) ==> source[0] in Scenarios && |source[1..]| < |Scenarios| by {
      if multiset(source) <= multiset(Scenarios) {
        PopWithinCatalog(source);
      }
    }
    (source[0], source[1..])
  }

  /** Submit Reflection & Continue: store a non-empty reflection, lower the
      turn's flag, and move to the next player, the next round (with a new
      scenario) or the end of the game. */
  function Continue(s: Session, reflection: string, refill: seq<ScenarioCard>): (r: Session)
    requires InProgress(s) && TurnScored(s)
    requires IsShuffle(refill)
    ensures var i := s.currentPlayerIndex;
            && |r.players| == |s.players|
            && r.players[i].reflections == s.players[i].reflections + (if reflection != "" then [reflection] else [])
            && r.players[i].roundScores == s.players[i].roundScores
            && r.players[i].tokens == s.players[i].tokens
            && r.players[i].name == s.players[i].name
            && r.players[i].influence == s.players[i].influence
            && (Consistent(s.players[i]) ==> Consistent(r.players[i]))
            && (forall k :: 0 <= k < |s.players| && k != i ==> r.players[k] == s.players[k])
            && r.scoredTurns == s.scoredTurns - {(s.currentRound, i)}
            && r.gameStarted && r.maxRounds == s.maxRounds
    ensures s.currentPlayerIndex + 1 < |s.players| ==>
              && r.currentPlayerIndex == s.currentPlayerIndex + 1
              && r.currentRound == s.currentRound && !r.gameOver
              && r.currentScenario == s.currentScenario && r.scenarioPool == s.scenarioPool
    ensures s.currentPlayerIndex + 1 == |s.players| && s.currentRound < s.maxRounds ==>
              && r.currentPlayerIndex == 0
              && r.currentRound == s.currentRound + 1 && !r.gameOver
              && r.currentScenario.Some?
              && (r.currentScenario.value, r.scenarioPool) == Draw(s.scenarioPool, refill)
    ensures s.currentPlayerIndex + 1 == |s.players| && s.currentRound >= s.maxRounds ==>
              && r.gameOver
              && r.currentPlayerIndex == s.currentPlayerIndex && r.currentRound == s.currentRound
              && r.currentScenario == s.currentScenario && r.scenarioPool == s.scenarioPool
  {
    var i := s.currentPlayerIndex;
    var player := if reflection != "" then AddReflection(s.players[i], reflection) else s.players[i];
    var s1 := s.(players := s.players[i := player], scoredTurns := s.scoredTurns - {(s.currentRound, i)});
    if i < |s.players| - 1 then
      s1.(currentPlayerIndex := i + 1)
    else if s.currentRound < s.maxRounds then
      var (next, pool) := Draw(s.scenarioPool, refill);
      s1.(currentRound := s.currentRound + 1, currentPlayerIndex := 0,
          currentScenario := Some(next), scenarioPool := pool)
    else
      s1.(gameOver := true)
  }

  /** Play Again: back to the setup screen. The scenario pool, the current
      scenario, the round limit and the turn flags are left as they were. */
  function PlayAgain(s: Session): (r: Session)
    requires s.gameStarted && s.gameOver
    ensures !r.gameStarted && !r.gameOver && r.players == []
    ensures r.currentRound == 0 && r.currentPlayerIndex == 0
    ensures r.scenarioPool == s.scenarioPool && r.currentScenario == s.currentScenario
    ensures r.maxRounds == s.maxRounds && r.scoredTurns == s.scoredTurns
  {
    s.(gameStarted := false, players := [], currentRound := 0, gameOver := false, currentPlayerIndex := 0)
  }
}
