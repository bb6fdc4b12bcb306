/** The rules of the modern budget dashboard
    (`src/components/ModernBudgetAnalyzer.tsx`): the overdraft-risk bands,
    the insight cards, the goal tips and the summer goal planner. The risk
    and the percentages arrive as JavaScript numbers and may be NaN. */
module ModernBudgetAnalyzer {
  import opened Basics
  import opened Bank

  datatype RiskLevel = Low | Medium | High | Critical {
    /** The band's place in the order low < medium < high < critical. */
    function Severity(): nat {
      match this
      case Low => 0
      case Medium => 1
      case High => 2
      case Critical => 3
    }
  }

  /** `getOverdraftRiskLevel`: the first of `> 80`, `> 60`, `> 40` that
      holds, LOW otherwise (NaN included). */
  function RiskLevelOf(risk: Number): (l: RiskLevel)
    ensures l == Critical <==> Above(risk, 80.0)
    ensures l == High <==> Above(risk, 60.0) && !Above(risk, 80.0)
    ensures l == Medium <==> Above(risk, 40.0) && !Above(risk, 60.0)
    ensures l == Low <==> !Above(risk, 40.0)
  {
    if Above(risk, 80.0) then Critical
    else if Above(risk, 60.0) then High
    else if Above(risk, 40.0) then Medium
    else Low
  }

  /** The band never falls as the risk rises. */
  lemma RiskLevelMonotone(x: real, y: real)
    requires x <= y
    ensures RiskLevelOf(Num(x)).Severity() <= RiskLevelOf(Num(y)).Severity()
  {
  }

  /** The key-insight cards shown, in display order: the same strict
      thresholds as the services' insights. */
  function KeyInsightCards(cats: Categories): (r: seq<Category>)
    ensures r == Flagged(cats)
  {
    FlaggedUnfold(cats);
    (if Above(cats.vices.percentage, 15.0) then [Vices] else [])
    + (if Above(cats.food.percentage, 25.0) then [Food] else [])
    + (if Above(cats.vibes.percentage, 20.0) then [Vibes] else [])
    + (if Above(cats.rent.percentage, 35.0) then [Rent] else [])
  }

  /** `Math.max(50, Math.round(totalSpent * 0.1))`, the monthly travel
      set-aside. */
  function TravelMonthly(totalSpent: real): (n: int)
    ensures n >= 50
    ensures n == 50 || n == Round(totalSpent * 0.1)
    ensures Round(totalSpent * 0.1) > 50 ==> n == Round(totalSpent * 0.1)
  {
    if Round(totalSpent * 0.1) >= 50 then Round(totalSpent * 0.1) else 50
  }

  /** A goal tip card and the figures it shows. */
  datatype GoalTip =
    | SavingsTip(extraPerMonth: real)
    | DiningTip
    | TravelTip(monthly: int)
    | CoffeeTip

  /** The place of a tip card on the page. */
  function TipRank(t: GoalTip): nat {
    match t
    case SavingsTip(_) => 0
    case DiningTip => 1
    case TravelTip(_) => 2
    case CoffeeTip => 3
  }

  /** The tips shown for the chosen summer goals, each at most once and in
      display order. */
  function Tips(goals: seq<string>, cats: Categories, totalSpent: real): (r: seq<GoalTip>)
    ensures SavingsTip(totalSpent * 0.1) in r <==> "savings" in goals
    ensures DiningTip in r <==> "dining" in goals && Above(cats.food.percentage, 20.0)
    ensures TravelTip(TravelMonthly(totalSpent)) in r <==> "travel" in goals
    ensures CoffeeTip in r <==> Above(cats.vices.percentage, 15.0)
    ensures forall t :: t in r && t.TravelTip? ==> t.monthly >= 50
    ensures forall i, j :: 0 <= i < j < |r| ==> TipRank(r[i]) < TipRank(r[j])
  {
    (if "savings" in goals then [SavingsTip(totalSpent * 0.1)] else [])
    + (if "dining" in goals && Above(cats.food.percentage, 20.0) then [DiningTip] else [])
    + (if "travel" in goals then [TravelTip(TravelMonthly(totalSpent))] else [])
    + (if Above(cats.vices.percentage, 15.0) then [CoffeeTip] else [])
  }

  /** The coffee tip and the vices insight card go together. */
  lemma CoffeeTipWithVicesCard(goals: seq<string>, cats: Categories, totalSpent: real)
    ensures CoffeeTip in Tips(goals, cats, totalSpent) <==> Vices in KeyInsightCards(cats)
  {
    FlaggedIff(cats, Vices);
  }

  /** The share of monthly spending each known summer goal is budgeted. */
  function GoalFactor(goal: string): (f: Option<real>)
    ensures f.Some? ==> 0.0 < f.value <= 0.2
    ensures f.None? <==> goal !in KnownGoals
  {
    if goal == "travel" then Some(0.15)
    else if goal == "dining" then Some(0.12)
    else if goal == "events" then Some(0.10)
    else if goal == "shopping" then Some(0.08)
    else if goal == "home" then Some(0.12)
    else if goal == "savings" then Some(0.20)
    else None
  }

  const KnownGoals: seq<string> := ["travel", "dining", "events", "shopping", "home", "savings"]

  /** A goal card of the summer planner. */
  datatype GoalCard = GoalCard(goal: string, budget: int, canAfford: bool)

  /** `goalInfo` for one goal: `Math.round(totalSpent * factor)` as the
      budget, "Achievable" when savings cover it; nothing for an unknown
      goal. */
  function GoalCardFor(goal: string, totalSpent: real, savings: real): (r: Option<GoalCard>)
    ensures r.None? <==> goal !in KnownGoals
    ensures r.Some? ==> r.value.goal == goal && r.value.budget == Round(totalSpent * GoalFactor(goal).value)
    ensures r.Some? ==> (r.value.canAfford <==> savings >= r.value.budget as real)
  {
    match GoalFactor(goal)
    case None => None
    case Some(f) =>
      var budget := Round(totalSpent * f);
      Some(GoalCard(goal, budget, savings >= budget as real))
  }

  /** The summer planner: one card per chosen goal, in the order chosen; a
      goal it does not know renders nothing, and when spending is not
      negative and savings cover the savings goal every card is achievable. */
  function GoalPlanner(goals: seq<string>, totalSpent: real, savings: real): (r: seq<Option<GoalCard>>)
    ensures |r| == |goals|
    ensures forall i :: 0 <= i < |goals| ==> r[i] == GoalCardFor(goals[i], totalSpent, savings)
    ensures forall i :: 0 <= i < |goals| ==> (r[i].Some? <==> goals[i] in KnownGoals)
    ensures forall i :: 0 <= i < |goals| && r[i].Some? ==> r[i].value.goal == goals[i]
    ensures totalSpent >= 0.0 && savings >= Round(totalSpent * 0.2) as real ==>
              forall i :: 0 <= i < |goals| && r[i].Some? ==> r[i].value.canAfford
  {
    var r := seq(|goals|, i requires 0 <= i < |goals| => GoalCardFor(goals[i], totalSpent, savings));
    assert totalSpent >= 0.0 && savings >= Round(totalSpent * 0.2) as real ==>
             forall i :: 0 <= i < |goals| && r[i].Some? ==> r[i].value.canAfford by {
      if totalSpent >= 0.0 && savings >= Round(totalSpent * 0.2) as real {
        forall i | 0 <= i < |goals| && r[i].Some? ensures r[i].value.canAfford {
          SavingsGoalMostDemanding(goals[i], totalSpent, savings);
        }
      }
    }
    r
  }

  /** With spending that is not negative, the savings goal is the most
      demanding: savings that cover it cover every other goal. */
  lemma SavingsGoalMostDemanding(goal: string, totalSpent: real, savings: real)
    requires totalSpent >= 0.0 && goal in KnownGoals
    requires GoalCardFor("savings", totalSpent, savings).value.canAfford
    ensures GoalCardFor(goal, totalSpent, savings).value.canAfford
  {
    RoundMonotone(totalSpent * GoalFactor(goal).value, totalSpent * 0.2);
  }

  /** More savings never make a goal unaffordable. */
  lemma AffordableStaysAffordable(goal: string, totalSpent: real, savings: real, more: real)
    requires goal in KnownGoals && savings <= more
    requires GoalCardFor(goal, totalSpent, savings).value.canAfford
    ensures GoalCardFor(goal, totalSpent, more).value.canAfford
  {
  }
}
