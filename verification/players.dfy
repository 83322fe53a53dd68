/** The player record: a running influence total, the history of round
    scores, the reward tokens earned and the reflections written. */
module Players {

  /** Points each token adds to the final score. */
  const TokenBonus: nat := 5

  datatype Player = Player(
    name: string,
    influence: int,
    tokens: seq<string>,
    roundScores: seq<int>,
    reflections: seq<string>)

  function Sum(s: seq<int>): int {
    if |s| == 0 then 0 else s[0] + Sum(s[1..])
  }

  lemma {:induction false} SumAppend(s: seq<int>, x: int)
    ensures Sum(s + [x]) == Sum(s) + x
  {
    if |s| == 0 {
      assert s + [x] == [x];
      assert [x][1..] == [];
    } else {
      assert (s + [x])[1..] == s[1..] + [x];
      SumAppend(s[1..], x);
    }
  }

  /** The running total agrees with the history of round scores. */
  ghost predicate Consistent(p: Player) {
    p.influence == Sum(p.roundScores)
  }

  /** A player as created at the start of a game. */
  function NewPlayer(name: string): (p: Player)
    ensures p.name == name && p.tokens == [] && p.roundScores == [] && p.reflections == []
    ensures Consistent(p)
    ensures FinalScore(p) == 0
  {
    Player(name, 0, [], [], [])
  }

  function TotalPoints(p: Player): int {
    p.influence
  }

  function TokenCount(p: Player): nat {
    |p.tokens|
  }

  /** Influence plus a flat bonus per token. For a consistent player this is
      the sum of the round scores plus the token bonus. */
  function FinalScore(p: Player): (r: int)
    ensures Consistent(p) ==> r == Sum(p.roundScores) + TokenBonus * |p.tokens|
  {
    TotalPoints(p) + TokenCount(p) * TokenBonus
  }

  function AddRoundScore(p: Player, score: int): (r: Player)
    ensures r.roundScores == p.roundScores + [score]
    ensures TotalPoints(r) == TotalPoints(p) + score
    ensures r.name == p.name && r.tokens == p.tokens && r.reflections == p.reflections
    ensures Consistent(p) ==> Consistent(r)
    ensures FinalScore(r) == FinalScore(p) + score
  {
    SumAppend(p.roundScores, score);
    p.(roundScores := p.roundScores + [score], influence := p.influence + score)
  }

  function AddToken(p: Player, token: string): (r: Player)
    ensures r.tokens == p.tokens + [token]
    ensures r.name == p.name && r.roundScores == p.roundScores && r.reflections == p.reflections
    ensures Consistent(p) ==> Consistent(r)
    ensures FinalScore(r) == FinalScore(p) + TokenBonus
  {
    p.(tokens := p.tokens + [token])
  }

  function AddReflection(p: Player, reflection: string): (r: Player)
    ensures r.reflections == p.reflections + [reflection]
    ensures r.name == p.name && r.roundScores == p.roundScores && r.tokens == p.tokens
    ensures Consistent(p) ==> Consistent(r)
    ensures FinalScore(r) == FinalScore(p)
  {
    p.(reflections := p.reflections + [reflection])
  }

  // ---------------------------------------------------------------------------
  // Any history of calls on one player.

  datatype Event = RoundScore(points: int) | Token(token: string) | Reflection(text: string)

  function Apply(p: Player, e: Event): Player {
    match e
    case RoundScore(points) => AddRoundScore(p, points)
    case Token(token) => AddToken(p, token)
    case Reflection(text) => AddReflection(p, text)
  }

  /** The player after the events, applied first to last. */
  function Replay(p: Player, events: seq<Event>): Player
    decreases |events|
  {
    if |events| == 0 then p else Replay(Apply(p, events[0]), events[1..])
  }

  function ScoreSum(events: seq<Event>): int {
    if |events| == 0 then 0
    else (if events[0].RoundScore? then events[0].points else 0) + ScoreSum(events[1..])
  }

  function TokenEvents(events: seq<Event>): nat {
    if |events| == 0 then 0
    else (if events[0].Token? then 1 else 0) + TokenEvents(events[1..])
  }

  /** Whatever the order of calls, the final score grows by exactly the points
      added plus five per token, and the running total stays consistent. */
  lemma {:induction false} ReplayFinalScore(p: Player, events: seq<Event>)
    ensures FinalScore(Replay(p, events)) == FinalScore(p) + ScoreSum(events) + TokenBonus * TokenEvents(events)
    ensures Consistent(p) ==> Consistent(Replay(p, events))
    ensures |Replay(p, events).tokens| == |p.tokens| + TokenEvents(events)
    decreases |events|
  {
    if |events| > 0 {
      ReplayFinalScore(Apply(p, events[0]), events[1..]);
    }
  }
}
