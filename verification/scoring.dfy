/** The scoring engine: from the chosen tool cards and the current scenario to
    a breakdown of base points, synergy bonus, variety bonus and total. */
module Scoring {
  import opened Catalog

  /** Most tools a player may pick in one turn (three selection boxes). */
  const MaxSelection: nat := 3
  const SynergyBonus: nat := 2
  const VarietyBonus: nat := 1

  datatype Breakdown = Breakdown(base: nat, synergy: nat, variety: nat, total: nat)

  /** Sum of the point values of the chosen cards. */
  function BasePoints(chosen: seq<ToolCard>): nat
  {
    if |chosen| == 0 then 0 else chosen[0].points + BasePoints(chosen[1..])
  }

  predicate IsSuggested(c: ToolCard, scenario: ScenarioCard) {
    c.tool in scenario.Suggested()
  }

  /** How many chosen cards the scenario suggests. */
  function SuggestedCount(chosen: seq<ToolCard>, scenario: ScenarioCard): nat
  {
    if |chosen| == 0 then 0
    else (if IsSuggested(chosen[0], scenario) then 1 else 0) + SuggestedCount(chosen[1..], scenario)
  }

  /** The set of power types among the chosen cards. */
  function PowerTypes(chosen: seq<ToolCard>): set<PowerType> {
    set c | c in chosen :: c.power
  }

  /** Some two different positions of the selection hold suggested tools. */
  ghost predicate HasSuggestedPair(chosen: seq<ToolCard>, scenario: ScenarioCard) {
    exists i, j :: 0 <= i < j < |chosen| && IsSuggested(chosen[i], scenario) && IsSuggested(chosen[j], scenario)
  }

  ghost predicate HasSuggested(chosen: seq<ToolCard>, scenario: ScenarioCard) {
    exists i :: 0 <= i < |chosen| && IsSuggested(chosen[i], scenario)
  }

  ghost predicate HasPower(chosen: seq<ToolCard>, t: PowerType) {
    exists i :: 0 <= i < |chosen| && chosen[i].power == t
  }

  /** Every one of the three power types is represented in the selection. */
  ghost predicate CoversAllPowers(chosen: seq<ToolCard>) {
    HasPower(chosen, Soft) && HasPower(chosen, Hard) && HasPower(chosen, Smart)
  }

  /** The points of one play: the synergy bonus is paid when two chosen tools
      are suggested by the scenario, the variety bonus when all three power
      types are played. */
  function Score(chosen: seq<ToolCard>, scenario: ScenarioCard): (r: Breakdown)
    ensures r.base == BasePoints(chosen)
    ensures r.synergy == (if HasSuggestedPair(chosen, scenario) then SynergyBonus else 0)
    ensures r.variety == (if CoversAllPowers(chosen) then VarietyBonus else 0)
    ensures r.total == r.base + r.synergy + r.variety
    ensures chosen == [] ==> r == Breakdown(0, 0, 0, 0)
  {
    SuggestedPairIff(chosen, scenario);
    AllPowersIff(chosen);
    var base := BasePoints(chosen);
    var synergy := if SuggestedCount(chosen, scenario) >= 2 then SynergyBonus else 0;
    var variety := if |PowerTypes(chosen)| == 3 then VarietyBonus else 0;
    Breakdown(base, synergy, variety, base + synergy + variety)
  }

  lemma {:induction false} SuggestedIff(chosen: seq<ToolCard>, scenario: ScenarioCard)
    ensures SuggestedCount(chosen, scenario) >= 1 <==> HasSuggested(chosen, scenario)
  {
    if |chosen| > 0 {
      var rest := chosen[1..];
      SuggestedIff(rest, scenario);
      if HasSuggested(rest, scenario) {
        var i :| 0 <= i < |rest| && IsSuggested(rest[i], scenario);
        assert chosen[i + 1] == rest[i];
      }
      if HasSuggested(chosen, scenario) && !IsSuggested(chosen[0], scenario) {
        var i :| 0 <= i < |chosen| && IsSuggested(chosen[i], scenario);
        assert rest[i - 1] == chosen[i];
      }
    }
  }

  /** Counting suggested tools up to two is the same as finding a suggested pair. */
  lemma {:induction false} SuggestedPairIff(chosen: seq<ToolCard>, scenario: ScenarioCard)
    ensures SuggestedCount(chosen, scenario) >= 2 <==> HasSuggestedPair(chosen, scenario)
  {
    if |chosen| > 0 {
      SuggestedPairIff(chosen[1..], scenario);
      SuggestedIff(chosen[1..], scenario);
      SuggestedPairCons(chosen, scenario);
    }
  }

  /** A selection has a suggested pair exactly when its tail has one, or its
      head is suggested and so is some card of its tail. */
  lemma SuggestedPairCons(chosen: seq<ToolCard>, scenario: ScenarioCard)
    requires |chosen| > 0
    ensures HasSuggestedPair(chosen, scenario) <==>
              HasSuggestedPair(chosen[1..], scenario)
              || (IsSuggested(chosen[0], scenario) && HasSuggested(chosen[1..], scenario))
  {
    if HasSuggestedPair(chosen[1..], scenario) {
      PairFromTail(chosen, scenario);
    }
    if IsSuggested(chosen[0], scenario) && HasSuggested(chosen[1..], scenario) {
      PairFromHead(chosen, scenario);
    }
    if HasSuggestedPair(chosen, scenario) {
      PairSplit(chosen, scenario);
    }
  }

  lemma PairFromTail(chosen: seq<ToolCard>, scenario: ScenarioCard)
    requires |chosen| > 0 && HasSuggestedPair(chosen[1..], scenario)
    ensures HasSuggestedPair(chosen, scenario)
  {
    var rest := chosen[1..];
    var i, j :| 0 <= i < j < |rest| && IsSuggested(rest[i], scenario) && IsSuggested(rest[j], scenario);
    assert chosen[i + 1] == rest[i] && chosen[j + 1] == rest[j];
  }

  lemma PairFromHead(chosen: seq<ToolCard>, scenario: ScenarioCard)
    requires |chosen| > 0 && IsSuggested(chosen[0], scenario) && HasSuggested(chosen[1..], scenario)
    ensures HasSuggestedPair(chosen, scenario)
  {
    var rest := chosen[1..];
    var j :| 0 <= j < |rest| && IsSuggested(rest[j], scenario);
    assert chosen[j + 1] == rest[j];
  }

  lemma PairSplit(chosen: seq<ToolCard>, scenario: ScenarioCard)
    requires |chosen| > 0 && HasSuggestedPair(chosen, scenario)
    ensures HasSuggestedPair(chosen[1..], scenario)
            || (IsSuggested(chosen[0], scenario) && HasSuggested(chosen[1..], scenario))
  {
    var rest := chosen[1..];
    var i, j :| 0 <= i < j < |chosen| && IsSuggested(chosen[i], scenario) && IsSuggested(chosen[j], scenario);
    assert rest[j - 1] == chosen[j];
    if i > 0 {
      assert rest[i - 1] == chosen[i];
    }
  }

  lemma HasPowerIff(chosen: seq<ToolCard>, t: PowerType)
    ensures HasPower(chosen, t) <==> t in PowerTypes(chosen)
  {
    if t in PowerTypes(chosen) {
      var c :| c in chosen && c.power == t;
      var i :| 0 <= i < |chosen| && chosen[i] == c;
    }
  }

  /** Python's `len(power_types) == 3` is the same as covering every power type. */
  lemma AllPowersIff(chosen: seq<ToolCard>)
    ensures |PowerTypes(chosen)| == 3 <==> CoversAllPowers(chosen)
  {
    var ts := PowerTypes(chosen);
    HasPowerIff(chosen, Soft);
    HasPowerIff(chosen, Hard);
    HasPowerIff(chosen, Smart);
    if CoversAllPowers(chosen) {
      assert ts == {Soft, Hard, Smart};
    } else if Soft !in ts {
      assert ts <= {Hard, Smart};
      SubsetCard(ts, {Hard, Smart});
    } else if Hard !in ts {
      assert ts <= {Soft, Smart};
      SubsetCard(ts, {Soft, Smart});
    } else {
      assert ts <= {Soft, Hard};
      SubsetCard(ts, {Soft, Hard});
    }
  }

  lemma SubsetCard<T>(a: set<T>, b: set<T>)
    requires a <= b
    ensures |a| <= |b|
  {
    assert b == a + (b - a);
  }

  // ---------------------------------------------------------------------------
  // Selections as picked on screen: indices into the tool catalog.

  /** At most three picks, each a catalog index, none picked twice. */
  predicate ValidSelection(selection: seq<nat>) {
    && |selection| <= MaxSelection
    && (forall k :: 0 <= k < |selection| ==> selection[k] < |Tools|)
    && (forall k, l :: 0 <= k < l < |selection| ==> selection[k] != selection[l])
  }

  /** The cards at the selected catalog positions, in pick order. */
  function Chosen(selection: seq<nat>): (chosen: seq<ToolCard>)
    requires forall k :: 0 <= k < |selection| ==> selection[k] < |Tools|
    ensures |chosen| == |selection|
    ensures forall k :: 0 <= k < |selection| ==> chosen[k] == Tools[selection[k]]
  {
    if |selection| == 0 then [] else [Tools[selection[0]]] + Chosen(selection[1..])
  }

  /** The cards of a valid selection are distinct catalog cards with distinct identities. */
  lemma ChosenDistinct(selection: seq<nat>)
    requires ValidSelection(selection)
    ensures forall k :: 0 <= k < |selection| ==> Chosen(selection)[k] in Tools
    ensures forall k, l :: 0 <= k < l < |selection| ==> Chosen(selection)[k].tool != Chosen(selection)[l].tool
  {
    ToolCatalogShape();
  }

  ghost predicate AllCatalogCards(chosen: seq<ToolCard>) {
    forall k :: 0 <= k < |chosen| ==> chosen[k] in Tools
  }

  /** Every catalog card is worth two or three points, so the base lies between
      two and three points per card. */
  lemma {:induction false} BasePointsRange(chosen: seq<ToolCard>)
    requires AllCatalogCards(chosen)
    ensures 2 * |chosen| <= BasePoints(chosen) <= 3 * |chosen|
  {
    if |chosen| > 0 {
      ToolCatalogShape();
      assert chosen[0] in Tools;
      assert AllCatalogCards(chosen[1..]) by {
        forall k | 0 <= k < |chosen[1..]| ensures chosen[1..][k] in Tools {
          assert chosen[1..][k] == chosen[k + 1];
        }
      }
      BasePointsRange(chosen[1..]);
    }
  }

  /** A non-empty play of at most three catalog cards scores between 2 and 12. */
  lemma ScoreBounds(selection: seq<nat>, scenario: ScenarioCard)
    requires ValidSelection(selection)
    ensures Score(Chosen(selection), scenario).total <= 12
    ensures selection != [] ==> Score(Chosen(selection), scenario).total >= 2
  {
    ChosenDistinct(selection);
    BasePointsRange(Chosen(selection));
  }

  lemma {:induction false} PowerTypesSize(chosen: seq<ToolCard>)
    ensures |PowerTypes(chosen)| <= |chosen|
  {
    if |chosen| > 0 {
      PowerTypesSize(chosen[1..]);
      assert PowerTypes(chosen) <= {chosen[0].power} + PowerTypes(chosen[1..]) by {
        forall t | t in PowerTypes(chosen) ensures t in {chosen[0].power} + PowerTypes(chosen[1..]) {
          var c :| c in chosen && c.power == t;
          var i :| 0 <= i < |chosen| && chosen[i] == c;
          if i > 0 { assert chosen[1..][i - 1] == c; }
        }
      }
      SubsetCard(PowerTypes(chosen), {chosen[0].power} + PowerTypes(chosen[1..]));
    }
  }

  /** With at most three cards, the variety bonus is paid exactly when there are
      three cards of three different power types. */
  lemma VarietyNeedsThreeKinds(chosen: seq<ToolCard>, scenario: ScenarioCard)
    requires |chosen| <= MaxSelection
    ensures Score(chosen, scenario).variety == VarietyBonus <==>
              |chosen| == 3 && chosen[0].power != chosen[1].power
              && chosen[0].power != chosen[2].power && chosen[1].power != chosen[2].power
  {
    AllPowersIff(chosen);
    PowerTypesSize(chosen);
    if |chosen| == 3 {
      assert PowerTypes(chosen) == {chosen[0].power, chosen[1].power, chosen[2].power};
    }
  }

  // ---------------------------------------------------------------------------
  // Synergy counts tool identities: for a selection without repeated
  // identities it is the size of the overlap with the suggested tools.

  function ToolIds(chosen: seq<ToolCard>): set<ToolId> {
    set c | c in chosen :: c.tool
  }

  ghost predicate DistinctIds(chosen: seq<ToolCard>) {
    forall k, l :: 0 <= k < l < |chosen| ==> chosen[k].tool != chosen[l].tool
  }

  function SuggestedSet(scenario: ScenarioCard): set<ToolId> {
    set t | t in scenario.Suggested()
  }

  lemma ToolIdsCons(chosen: seq<ToolCard>)
    requires |chosen| > 0
    ensures ToolIds(chosen) == {chosen[0].tool} + ToolIds(chosen[1..])
  {
    forall t | t in ToolIds(chosen) ensures t in {chosen[0].tool} + ToolIds(chosen[1..]) {
      var c :| c in chosen && c.tool == t;
      var i :| 0 <= i < |chosen| && chosen[i] == c;
      if i > 0 { assert chosen[1..][i - 1] == c; }
    }
  }

  lemma DistinctIdsTail(chosen: seq<ToolCard>)
    requires |chosen| > 0 && DistinctIds(chosen)
    ensures DistinctIds(chosen[1..])
    ensures chosen[0].tool !in ToolIds(chosen[1..])
  {
    var rest := chosen[1..];
    forall k, l | 0 <= k < l < |rest| ensures rest[k].tool != rest[l].tool {
      assert rest[k] == chosen[k + 1] && rest[l] == chosen[l + 1];
    }
    forall c | c in rest ensures c.tool != chosen[0].tool {
      var i :| 0 <= i < |rest| && rest[i] == c;
      assert chosen[i + 1] == c;
    }
  }

  lemma {:induction false} SuggestedCountIsOverlap(chosen: seq<ToolCard>, scenario: ScenarioCard)
    requires DistinctIds(chosen)
    ensures SuggestedCount(chosen, scenario) == |ToolIds(chosen) * SuggestedSet(scenario)|
  {
    if |chosen| == 0 {
      assert ToolIds(chosen) == {};
    } else {
      DistinctIdsTail(chosen);
      SuggestedCountIsOverlap(chosen[1..], scenario);
      ToolIdsCons(chosen);
      OverlapCons(chosen[0].tool, ToolIds(chosen[1..]), SuggestedSet(scenario));
    }
  }

  /** Adding a new element to a set grows its overlap with another set by one
      exactly when that set holds the element. */
  lemma OverlapCons<T>(x: T, rest: set<T>, other: set<T>)
    requires x !in rest
    ensures |({x} + rest) * other| == |rest * other| + (if x in other then 1 else 0)
  {
    if x in other {
      assert ({x} + rest) * other == (rest * other) + {x};
    } else {
      assert ({x} + rest) * other == rest * other;
    }
  }

  /** For a valid selection the synergy bonus is paid exactly when at least two
      of the picked tool identities are among the scenario's suggested tools. */
  lemma SynergyIsOverlap(selection: seq<nat>, scenario: ScenarioCard)
    requires ValidSelection(selection)
    ensures Score(Chosen(selection), scenario).synergy == SynergyBonus <==>
              |ToolIds(Chosen(selection)) * SuggestedSet(scenario)| >= 2
  {
    ChosenDistinct(selection);
    SuggestedCountIsOverlap(Chosen(selection), scenario);
    SuggestedPairIff(Chosen(selection), scenario);
  }

  // ---------------------------------------------------------------------------
  // The score does not depend on the order in which the tools were picked.

  lemma {:induction false} BasePointsAppend(a: seq<ToolCard>, b: seq<ToolCard>)
    ensures BasePoints(a + b) == BasePoints(a) + BasePoints(b)
  {
    if |a| == 0 {
      assert a + b == b;
    } else {
      assert (a + b)[1..] == a[1..] + b;
      BasePointsAppend(a[1..], b);
    }
  }

  lemma {:induction false} SuggestedCountAppend(a: seq<ToolCard>, b: seq<ToolCard>, scenario: ScenarioCard)
    ensures SuggestedCount(a + b, scenario) == SuggestedCount(a, scenario) + SuggestedCount(b, scenario)
  {
    if |a| == 0 {
      assert a + b == b;
    } else {
      assert (a + b)[1..] == a[1..] + b;
      SuggestedCountAppend(a[1..], b, scenario);
    }
  }

  /** Removing one occurrence of the first card of `a` from `b`. */
  lemma SplitAt<T>(a: seq<T>, b: seq<T>) returns (k: nat)
    requires |a| > 0 && multiset(a) == multiset(b)
    ensures k < |b| && b[k] == a[0]
    ensures b == b[..k] + [b[k]] + b[k + 1..]
    ensures multiset(a[1..]) == multiset(b[..k] + b[k + 1..])
  {
    assert a == [a[0]] + a[1..];
    assert a[0] in multiset(b);
    k :| 0 <= k < |b| && b[k] == a[0];
    var rest := b[..k] + b[k + 1..];
    assert b == b[..k] + [b[k]] + b[k + 1..];
    assert multiset(b) == multiset(rest) + multiset{a[0]};
    assert multiset(a) == multiset(a[1..]) + multiset{a[0]};
    CancelOne(multiset(a[1..]), multiset(rest), a[0]);
  }

  /** Taking one copy of the same element from two equal multisets leaves equal ones. */
  lemma CancelOne<T>(m: multiset<T>, n: multiset<T>, x: T)
    requires m + multiset{x} == n + multiset{x}
    ensures m == n
  {
    assert m == (m + multiset{x}) - multiset{x};
    assert n == (n + multiset{x}) - multiset{x};
  }

  lemma {:induction false} BasePointsPermutation(a: seq<ToolCard>, b: seq<ToolCard>)
    requires multiset(a) == multiset(b)
    ensures BasePoints(a) == BasePoints(b)
    decreases |a|
  {
    if |a| == 0 {
      assert |b| == |multiset(b)| == 0;
    } else {
      var k := SplitAt(a, b);
      var b' := b[..k] + b[k + 1..];
      BasePointsPermutation(a[1..], b');
      BasePointsAppend(b[..k] + [b[k]], b[k + 1..]);
      BasePointsAppend(b[..k], [b[k]]);
      BasePointsAppend(b[..k], b[k + 1..]);
      assert BasePoints([b[k]]) == b[k].points by { assert [b[k]][1..] == []; }
    }
  }

  lemma {:induction false} SuggestedCountPermutation(a: seq<ToolCard>, b: seq<ToolCard>, scenario: ScenarioCard)
    requires multiset(a) == multiset(b)
    ensures SuggestedCount(a, scenario) == SuggestedCount(b, scenario)
    decreases |a|
  {
    if |a| == 0 {
      assert |b| == |multiset(b)| == 0;
    } else {
      var k := SplitAt(a, b);
      var b' := b[..k] + b[k + 1..];
      SuggestedCountPermutation(a[1..], b', scenario);
      SuggestedCountAppend(b[..k] + [b[k]], b[k + 1..], scenario);
      SuggestedCountAppend(b[..k], [b[k]], scenario);
      SuggestedCountAppend(b[..k], b[k + 1..], scenario);
      assert [b[k]][1..] == [];
    }
  }

  /** Picking the same tools in another order gives the same breakdown. */
  lemma ScoreOrderIndependent(a: seq<ToolCard>, b: seq<ToolCard>, scenario: ScenarioCard)
    requires multiset(a) == multiset(b)
    ensures Score(a, scenario) == Score(b, scenario)
  {
    BasePointsPermutation(a, b);
    SuggestedCountPermutation(a, b, scenario);
    assert PowerTypes(a) == PowerTypes(b) by {
      forall c ensures c in a <==> c in b {
        assert c in a <==> c in multiset(a);
        assert c in b <==> c in multiset(b);
      }
    }
  }

  // ---------------------------------------------------------------------------
  // Worked plays.

  /** Ethos, Logos and Might against the first scenario, which suggests none
      of them: no synergy, but all three power types, so 7 + 0 + 1 = 8. */
  lemma ExampleVarietyWithoutSynergy()
    ensures Score([Tools[0], Tools[1], Tools[8]], Scenarios[0]) == Breakdown(7, 0, 1, 8)
  {
    var chosen := [Tools[0], Tools[1], Tools[8]];
    var scenario := Scenarios[0];
    assert chosen[1..] == [Tools[1], Tools[8]] && chosen[2..] == [Tools[8]] && chosen[3..] == [];
    assert BasePoints(chosen[2..]) == 3;
    assert BasePoints(chosen[1..]) == 5;
    assert BasePoints(chosen) == 7;
    assert !IsSuggested(chosen[0], scenario) && !IsSuggested(chosen[1], scenario) && !IsSuggested(chosen[2], scenario);
    assert SuggestedCount(chosen[2..], scenario) == 0;
    assert SuggestedCount(chosen[1..], scenario) == 0;
    assert SuggestedCount(chosen, scenario) == 0;
    SuggestedPairIff(chosen, scenario);
    assert HasPower(chosen, Soft) && HasPower(chosen, Smart) && HasPower(chosen, Hard) by {
      assert chosen[0].power == Soft && chosen[1].power == Smart && chosen[2].power == Hard;
    }
  }

  /** Allocentrism and Agency against the first scenario, which suggests both:
      5 + 2 + 0 = 7, exactly the token threshold. */
  lemma ExampleSynergyAtThreshold()
    ensures Score([Tools[3], Tools[11]], Scenarios[0]) == Breakdown(5, 2, 0, 7)
  {
    var chosen := [Tools[3], Tools[11]];
    assert chosen[1..] == [Tools[11]] && chosen[2..] == [];
    assert BasePoints(chosen[1..]) == 3;
    assert BasePoints(chosen) == 5;
    assert IsSuggested(chosen[0], Scenarios[0]) && IsSuggested(chosen[1], Scenarios[0]);
    assert HasSuggestedPair(chosen, Scenarios[0]);
    assert !HasPower(chosen, Hard) by {
      assert chosen[0].power == Soft && chosen[1].power == Smart;
    }
  }

  /** The bound of twelve points is reached: Team Building, Coalitions and
      Might against the merger scenario. */
  lemma ExampleMaximalPlay()
    ensures Score([Tools[7], Tools[6], Tools[8]], Scenarios[3]).total == 12
  {
    var chosen := [Tools[7], Tools[6], Tools[8]];
    assert chosen[1..] == [Tools[6], Tools[8]] && chosen[2..] == [Tools[8]] && chosen[3..] == [];
    assert BasePoints(chosen[2..]) == 3;
    assert BasePoints(chosen[1..]) == 6;
    assert BasePoints(chosen) == 9;
    assert IsSuggested(chosen[0], Scenarios[3]) && IsSuggested(chosen[1], Scenarios[3]);
    assert HasSuggestedPair(chosen, Scenarios[3]);
    assert HasPower(chosen, Soft) && HasPower(chosen, Smart) && HasPower(chosen, Hard) by {
      assert chosen[0].power == Soft && chosen[1].power == Smart && chosen[2].power == Hard;
    }
  }
}
