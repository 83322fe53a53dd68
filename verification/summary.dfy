/** The game-over screen's choice of winner. */
module Summary {
  import opened Players

  /** The player with the highest final score; on a tie the first such player
      in seating order, as a left-to-right maximum search keeps the first one. */
  method Winner(players: seq<Player>) returns (w: nat)
    requires |players| >= 1
    ensures w < |players|
    ensures forall k :: 0 <= k < |players| ==> FinalScore(players[k]) <= FinalScore(players[w])
    ensures forall k :: 0 <= k < w ==> FinalScore(players[k]) < FinalScore(players[w])
  {
    w := 0;
    var best := FinalScore(players[0]);
    var k := 1;
    while k < |players|
      invariant 1 <= k <= |players|
      invariant w < k
      invariant best == FinalScore(players[w])
      invariant forall j :: 0 <= j < k ==> FinalScore(players[j]) <= best
      invariant forall j :: 0 <= j < w ==> FinalScore(players[j]) < best
    {
      if FinalScore(players[k]) > best {
        w := k;
        best := FinalScore(players[k]);
      }
      k := k + 1;
    }
  }
}
