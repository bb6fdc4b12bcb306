/** The rules of the classic budget dashboard
    (`src/components/BudgetAnalyzer.tsx`): the risk colour and background,
    the bar chart and the Miami-trip verdict. */
module BudgetAnalyzer {
  import opened Basics
  import opened Bank
  import ModernBudgetAnalyzer

  /** `getOverdraftRiskColor`. */
  function RiskColor(risk: Number): (s: string)
    ensures s == ColorOf(ModernBudgetAnalyzer.RiskLevelOf(risk))
  {
    if Above(risk, 80.0) then "text-red-600"
    else if Above(risk, 60.0) then "text-orange-500"
    else if Above(risk, 40.0) then "text-yellow-500"
    else "text-green-500"
  }

  /** `getOverdraftRiskBg`. */
  function RiskBg(risk: Number): (s: string)
    ensures s == BgOf(ModernBudgetAnalyzer.RiskLevelOf(risk))
  {
    if Above(risk, 80.0) then "bg-red-100"
    else if Above(risk, 60.0) then "bg-orange-100"
    else if Above(risk, 40.0) then "bg-yellow-100"
    else "bg-green-100"
  }

  function ColorOf(l: ModernBudgetAnalyzer.RiskLevel): string {
    match l
    case Critical => "text-red-600"
    case High => "text-orange-500"
    case Medium => "text-yellow-500"
    case Low => "text-green-500"
  }

  function BgOf(l: ModernBudgetAnalyzer.RiskLevel): string {
    match l
    case Critical => "bg-red-100"
    case High => "bg-orange-100"
    case Medium => "bg-yellow-100"
    case Low => "bg-green-100"
  }

  /** Colour and background change together: two risks share a colour
      exactly when they share a background, and exactly when they fall in
      the same band of the modern dashboard. */
  lemma RiskStylesAgree(x: Number, y: Number)
    ensures RiskColor(x) == RiskColor(y) <==> RiskBg(x) == RiskBg(y)
    ensures RiskColor(x) == RiskColor(y)
        <==> ModernBudgetAnalyzer.RiskLevelOf(x) == ModernBudgetAnalyzer.RiskLevelOf(y)
  {
    var lx, ly := ModernBudgetAnalyzer.RiskLevelOf(x), ModernBudgetAnalyzer.RiskLevelOf(y);
    if lx != ly {
      ColorsDistinct(lx, ly);
    }
  }

  lemma ColorsDistinct(a: ModernBudgetAnalyzer.RiskLevel, b: ModernBudgetAnalyzer.RiskLevel)
    requires a != b
    ensures ColorOf(a) != ColorOf(b) && BgOf(a) != BgOf(b)
  {
    assert ColorOf(a)[5] != ColorOf(b)[5];
    assert BgOf(a)[3] != BgOf(b)[3];
  }

  /** One bar: `{ name, amount: value, percentage }`. */
  datatype BarItem = BarItem(name: string, amount: real, percentage: Number)

  function BarOf(s: Slice): BarItem { BarItem(s.name, s.value, s.percentage) }

  /** `barData`: the pie slices as bars, one for one and in the same order. */
  function BarData(cats: Categories): (r: seq<BarItem>)
    ensures |r| == |PieData(cats)|
    ensures forall i :: 0 <= i < |r| ==>
              (r[i].name == PieData(cats)[i].name && r[i].amount == PieData(cats)[i].value
               && r[i].amount > 0.0 && r[i].percentage == PieData(cats)[i].percentage)
  {
    var pie := PieData(cats);
    assert forall i :: 0 <= i < |pie| ==> pie[i] in pie;
    seq(|pie|, i requires 0 <= i < |pie| => BarOf(pie[i]))
  }

  // The Miami trip assessment.

  const FlightCost := 400.0
  const HotelCutoff := 1000.0
  const FullTripCutoff := 1500.0

  /** The three feasibility lines: flight, hotel, food and activities. */
  predicate FlightFeasible(savings: real) { savings >= FlightCost }
  predicate HotelFeasible(savings: real) { savings >= HotelCutoff }
  predicate ActivitiesFeasible(savings: real) { savings >= FullTripCutoff }

  datatype Verdict = MiamiHereYouCome | BudgetMiami | FlightOnly | Staycation

  /** The verdict ladder: the first of `>= 1500`, `>= 1000`, `>= 400`. */
  function VerdictOf(savings: real): (v: Verdict)
    ensures v == MiamiHereYouCome <==> ActivitiesFeasible(savings)
    ensures v == BudgetMiami <==> HotelFeasible(savings) && !ActivitiesFeasible(savings)
    ensures v == FlightOnly <==> FlightFeasible(savings) && !HotelFeasible(savings)
    ensures v == Staycation <==> !FlightFeasible(savings)
  {
    if savings >= 1500.0 then MiamiHereYouCome
    else if savings >= 1000.0 then BudgetMiami
    else if savings >= 400.0 then FlightOnly
    else Staycation
  }

  /** The number of feasibility lines ticked: the lines are ticked from the
      flight up, so the count says exactly which ones are. */
  function Ticks(savings: real): (n: nat)
    ensures n <= 3
    ensures n >= 1 <==> FlightFeasible(savings)
    ensures n >= 2 <==> HotelFeasible(savings)
    ensures n == 3 <==> ActivitiesFeasible(savings)
  {
    (if FlightFeasible(savings) then 1 else 0) + (if HotelFeasible(savings) then 1 else 0)
    + (if ActivitiesFeasible(savings) then 1 else 0)
  }

  /** The verdict is read off the feasibility lines: each rung of the ladder
      is one more ticked line, so the lines are never out of step with it. */
  lemma VerdictMatchesLines(savings: real)
    ensures VerdictOf(savings) == [Staycation, FlightOnly, BudgetMiami, MiamiHereYouCome][Ticks(savings)]
    ensures ActivitiesFeasible(savings) ==> HotelFeasible(savings) && FlightFeasible(savings)
  {
  }
}
