/** The two fixed card catalogs of The Strategy Shuffle: twelve tool cards and
    nine scenario cards, reduced to the fields the game logic reads (identity,
    power type and point value of a tool; name, suggested tools and reward
    token of a scenario). Effect texts, narratives and lessons are not kept. */
module Catalog {

  /** The three kinds of influence a tool card belongs to. */
  datatype PowerType = Soft | Hard | Smart

  /** The identities of the twelve tool cards. */
  datatype ToolId =
    | Ethos | Logos | Pathos | Allocentrism | Exchange | Networks
    | Coalitions | TeamBuilding | Might | Intentionality
    | SituationalAwareness | Agency

  datatype ToolCard = ToolCard(tool: ToolId, power: PowerType, points: nat)

  /** The nine scenario cards. A card fixes its title, the tools it suggests
      and the token a play of 7 or more on it earns. */
  datatype ScenarioCard =
    | SergioDeMello | ErikPeterson | LeadingChange | CrossFunctionalMerger
    | RemoteTeam | RegulatoryApproval | ProductRecall | BudgetCuts | InclusionJourney
  {
    /** The title, with the separator exactly as the source file spells it:
        the three characters U+201A U+00C4 U+00EE, an em dash mis-decoded once. */
    function Name(): string {
      match this
      case SergioDeMello => "Sergio de Mello \U{201A}\U{00C4}\U{00EE} Empowering Others"
      case ErikPeterson => "Erik Peterson \U{201A}\U{00C4}\U{00EE} Conflict & Collaboration"
      case LeadingChange => "Leading Change \U{201A}\U{00C4}\U{00EE} Overcoming Resistance"
      case CrossFunctionalMerger => "Cross-Functional Merger \U{201A}\U{00C4}\U{00EE} Onboarding"
      case RemoteTeam => "Remote Team \U{201A}\U{00C4}\U{00EE} Burnout Warning"
      case RegulatoryApproval => "Regulatory Approval \U{201A}\U{00C4}\U{00EE} Evidence & Allies"
      case ProductRecall => "Product Recall \U{201A}\U{00C4}\U{00EE} Public Trust"
      case BudgetCuts => "Budget Cuts \U{201A}\U{00C4}\U{00EE} Stakeholder Alignment"
      case InclusionJourney => "Inclusion Journey \U{201A}\U{00C4}\U{00EE} Building Belonging"
    }

    /** The tools whose play together earns the synergy bonus. */
    function Suggested(): seq<ToolId> {
      match this
      case SergioDeMello => [Agency, Allocentrism, Intentionality]
      case ErikPeterson => [Pathos, Networks, Allocentrism]
      case LeadingChange => [Coalitions, Agency, Intentionality]
      case CrossFunctionalMerger => [Allocentrism, Coalitions, TeamBuilding]
      case RemoteTeam => [Pathos, Intentionality, Allocentrism]
      case RegulatoryApproval => [Logos, Ethos, Networks]
      case ProductRecall => [Allocentrism, Pathos, Coalitions]
      case BudgetCuts => [Logos, Intentionality, Coalitions]
      case InclusionJourney => [Allocentrism, TeamBuilding, Pathos]
    }

    /** The token a play of 7 or more on this scenario earns. */
    function RewardToken(): string {
      match this
      case SergioDeMello => "Legitimacy Token"
      case ErikPeterson => "Cohesion Token"
      case LeadingChange => "Buy-In Token"
      case CrossFunctionalMerger => "Integration Token"
      case RemoteTeam => "Resilience Token"
      case RegulatoryApproval => "Credibility Token"
      case ProductRecall => "Trust Restoration Token"
      case BudgetCuts => "Alignment Token"
      case InclusionJourney => "Inclusion Token"
    }
  }

  const Tools: seq<ToolCard> := [
    ToolCard(Ethos, Soft, 2),
    ToolCard(Logos, Smart, 2),
    ToolCard(Pathos, Soft, 2),
    ToolCard(Allocentrism, Soft, 2),
    ToolCard(Exchange, Hard, 2),
    ToolCard(Networks, Soft, 3),
    ToolCard(Coalitions, Smart, 3),
    ToolCard(TeamBuilding, Soft, 3),
    ToolCard(Might, Hard, 3),
    ToolCard(Intentionality, Smart, 2),
    ToolCard(SituationalAwareness, Smart, 3),
    ToolCard(Agency, Smart, 3)
  ]

  /** The scenario catalog in the order of the source. */
  const Scenarios: seq<ScenarioCard> := [
    SergioDeMello, ErikPeterson, LeadingChange, CrossFunctionalMerger,
    RemoteTeam, RegulatoryApproval, ProductRecall, BudgetCuts, InclusionJourney
  ]

  /** Position of a tool identity in the tool catalog. */
  function ToolIndex(t: ToolId): (i: nat)
    ensures i < |Tools| && Tools[i].tool == t
  {
    match t
    case Ethos => 0
    case Logos => 1
    case Pathos => 2
    case Allocentrism => 3
    case Exchange => 4
    case Networks => 5
    case Coalitions => 6
    case TeamBuilding => 7
    case Might => 8
    case Intentionality => 9
    case SituationalAwareness => 10
    case Agency => 11
  }

  /** No element occurs twice. */
  ghost predicate Distinct<T>(s: seq<T>) {
    forall i, j :: 0 <= i < j < |s| ==> s[i] != s[j]
  }

  /** The tool catalog has twelve cards with distinct identities, each worth 2 or 3 points. */
  lemma ToolCatalogShape()
    ensures |Tools| == 12
    ensures forall i :: 0 <= i < |Tools| ==> 2 <= Tools[i].points <= 3
    ensures forall i, j :: 0 <= i < |Tools| && 0 <= j < |Tools| && Tools[i].tool == Tools[j].tool ==> i == j
    ensures Distinct(Tools)
  {
    forall i, j | 0 <= i < |Tools| && 0 <= j < |Tools| && Tools[i].tool == Tools[j].tool
      ensures i == j
    {
      assert ToolIndex(Tools[i].tool) == i;
      assert ToolIndex(Tools[j].tool) == j;
    }
  }

  /** The scenario catalog has nine distinct cards, each suggesting three distinct tools. */
  lemma ScenarioCatalogShape()
    ensures |Scenarios| == 9
    ensures forall k :: 0 <= k < |Scenarios| ==> |Scenarios[k].Suggested()| == 3 && Distinct(Scenarios[k].Suggested())
    ensures Distinct(Scenarios)
  {
  }

  /** In a sequence without repeats every value occurs at most once in its multiset. */
  lemma {:induction false} DistinctMultiplicity<T>(s: seq<T>, x: T)
    requires Distinct(s)
    ensures multiset(s)[x] <= 1
  {
    if |s| > 0 {
      assert s == [s[0]] + s[1..];
      assert Distinct(s[1..]) by {
        forall i, j | 0 <= i < j < |s[1..]| ensures s[1..][i] != s[1..][j] {
          assert s[1..][i] == s[i + 1] && s[1..][j] == s[j + 1];
        }
      }
      DistinctMultiplicity(s[1..], x);
      if x == s[0] {
        assert x !in s[1..] by {
          forall k | 0 <= k < |s[1..]| ensures s[1..][k] != x {
            assert s[1..][k] == s[k + 1];
          }
        }
      }
    }
  }
}
