/** The demonstration data path (`src/services/mockBankingData.ts`): money
    leaving the account is negative, transactions arrive already labelled,
    and neither the percentages nor the risk are guarded against an empty
    month. */
module MockBanking {
  import opened Basics
  import opened Bank

  predicate IsExpense(t: Transaction) { t.amount < 0.0 }

  predicate IsIncome(t: Transaction) { t.amount > 0.0 }

  function Amount(t: Transaction): real { t.amount }

  function Magnitude(t: Transaction): real { Abs(t.amount) }

  function BucketKey(t: Transaction): Category { KeyOf(t.subcategory) }

  /** The expenses: exactly the transactions with a negative amount; the
      order is stated by `ExpensesInOrder`. */
  function Expenses(ts: seq<Transaction>): (r: seq<Transaction>)
    ensures |r| <= |ts|
    ensures forall t :: t in r <==> t in ts && t.amount < 0.0
  {
    KeepMembers(ts, IsExpense);
    Keep(ts, IsExpense)
  }

  /** The filter keeps every expense, each occurrence once, in arrival
      order: nothing from an empty list, one transaction exactly when it is
      an expense, and the expenses of a concatenation are those of each part
      in turn. */
  lemma ExpensesInOrder(a: seq<Transaction>, b: seq<Transaction>, t: Transaction)
    ensures Expenses([]) == []
    ensures Expenses([t]) == if t.amount < 0.0 then [t] else []
    ensures Expenses(a + b) == Expenses(a) + Expenses(b)
  {
    KeepOne(t, IsExpense);
    KeepAppend(a, b, IsExpense);
  }

  /** Money in: the sum of the positive amounts, never negative. */
  function Income(ts: seq<Transaction>): (r: real)
    ensures r >= 0.0
  {
    SumNonNegative(Keep(ts, IsIncome), Amount);
    SumOf(Keep(ts, IsIncome), Amount)
  }

  /** Money out: the magnitude of the sum of the negative amounts, which is
      the sum of their magnitudes. */
  function TotalSpent(ts: seq<Transaction>): (r: real)
    ensures r >= 0.0
    ensures r == SumOf(Expenses(ts), Magnitude)
  {
    SumOfNegatives(Expenses(ts));
    Abs(SumOf(Expenses(ts), Amount))
  }

  /** Over negative amounts, the magnitude of the sum is the sum of the
      magnitudes. */
  lemma {:induction false} SumOfNegatives(xs: seq<Transaction>)
    requires forall t :: t in xs ==> t.amount < 0.0
    ensures SumOf(xs, Amount) == -SumOf(xs, Magnitude)
    ensures SumOf(xs, Magnitude) >= 0.0
    ensures xs != [] ==> SumOf(xs, Magnitude) > 0.0
  {
    if xs != [] {
      assert forall t :: t in xs[1..] ==> t in xs;
      SumOfNegatives(xs[1..]);
    }
  }

  /** `totalSpent` is the sum of what each expense adds to its bucket, and
      it is zero exactly when there are no expenses. */
  lemma TotalSpentIsMagnitudes(ts: seq<Transaction>)
    ensures TotalSpent(ts) == SumOf(Expenses(ts), Magnitude)
    ensures TotalSpent(ts) == 0.0 <==> Expenses(ts) == []
  {
    SumOfNegatives(Expenses(ts));
  }

  /** `cat.amount / totalSpent * 100` with no guard: with nothing spent every
      bucket is empty and the percentage is `0 / 0`, NaN. */
  function UnguardedShare(amount: real, total: real): (p: Number)
    ensures total > 0.0 ==> p == Num(Share(amount, total))
    ensures p.NaN? <==> total == 0.0
  {
    if total == 0.0 then NaN else Num(amount / total * 100.0)
  }

  /** `Math.max(0, Math.min(100, (1 - balance / totalSpent) * 100))` with no
      guard and no `abs`. With nothing spent the division gives +Infinity for
      a positive balance (risk 0), -Infinity for a negative one (risk 100)
      and NaN for a zero balance, which `Math.min` and `Math.max` pass on. */
  function MockRisk(balance: real, total: real): (r: Number)
    requires total >= 0.0
    ensures r.Num? ==> 0.0 <= r.value <= 100.0
    ensures r.NaN? <==> total == 0.0 && balance == 0.0
    ensures balance < 0.0 ==> r == Num(100.0)
  {
    if total != 0.0 then
      var x := (1.0 - balance / total) * 100.0;
      assert balance < 0.0 ==> balance / total < 0.0;
      Num(Clamp(x))
    else if balance > 0.0 then Num(0.0)
    else if balance < 0.0 then Num(100.0)
    else NaN
  }

  /** For a balance that is not negative and a month with spending, the
      unguarded risk agrees with the guarded one of the provider paths. */
  lemma MockRiskAgrees(balance: real, total: real)
    requires balance >= 0.0 && total > 0.0
    ensures MockRisk(balance, total) == Num(GuardedRisk(balance, total))
  {
  }

  /** `Math.floor(balance / 7.50)`: negative for an overdrawn account. */
  function SignedMatchas(balance: real): (n: int)
    ensures n as real * MatchaPrice <= balance < (n + 1) as real * MatchaPrice
    ensures n < 0 <==> balance < 0.0
    ensures balance >= 0.0 ==> n == Matchas(balance)
  {
    (balance / MatchaPrice).Floor
  }

  // `generatePersonalizedInsights`.

  const StillFiguringMessage := "We're still figuring out your spending patterns!"

  /** The tips, one per kind of insight. */
  datatype Tip = CoffeeAtHome | MealPrep | HappyHours | FiftyThirtyTwenty {
    function Text(): string {
      match this
      case CoffeeAtHome => "Try making coffee at home 2-3 days a week. You could save $50-80/month!"
      case MealPrep => "Meal prep on Sundays can cut your food spending by 30-40%"
      case HappyHours => "Look for happy hours and free events to keep the fun while saving money"
      case FiftyThirtyTwenty => "Consider the 50/30/20 rule: 50% needs, 30% wants, 20% savings"
    }
  }

  /** The tip pushed together with each insight. */
  function TipFor(c: Category): Tip
    requires c != Other
  {
    match c
    case Vices => CoffeeAtHome
    case Food => MealPrep
    case Vibes => HappyHours
    case Rent => FiftyThirtyTwenty
  }

  /** Every flagged category has its own tip: two categories never share
      one. */
  lemma TipForDistinct(c: Category, d: Category)
    requires c != Other && d != Other && c != d
    ensures TipFor(c) != TipFor(d)
  {
  }

  /** The tips that go with `insights`, one each. */
  function TipsFor(insights: seq<Insight>): (tips: seq<Tip>)
    ensures |tips| == |insights|
    ensures forall i :: 0 <= i < |insights| ==> tips[i] == TipFor(insights[i].About())
  {
    seq(|insights|, i requires 0 <= i < |insights| => TipFor(insights[i].About()))
  }

  lemma TipsForAppend(insights: seq<Insight>, x: Insight)
    ensures TipsFor(insights + [x]) == TipsFor(insights) + [TipFor(x.About())]
  {
    var l, r := TipsFor(insights + [x]), TipsFor(insights) + [TipFor(x.About())];
    forall i | 0 <= i < |l| ensures l[i] == r[i] {
      if i < |insights| {
        assert (insights + [x])[i] == insights[i];
      }
    }
  }

  datatype Personalized = Personalized(message: string, insights: seq<Insight>, tips: seq<Tip>)

  /** Insights and tips are pushed in parallel under the four threshold
      checks, in the order vices, food, vibes, rent. */
  method CollectInsights(cats: Categories, matchas: int) returns (insights: seq<Insight>, tips: seq<Tip>)
    ensures Topics(insights) == Flagged(cats)
    ensures tips == TipsFor(insights)
    ensures forall i :: 0 <= i < |insights| ==> insights[i] == InsightFor(insights[i].About(), cats, matchas)
  {
    FlaggedUnfold(cats);
    insights := [];
    tips := [];
    assert tips == TipsFor(insights);
    if Above(cats.vices.percentage, 15.0) {
      TipsForAppend(insights, VicesInsight(cats.vices.percentage, matchas));
      insights := insights + [VicesInsight(cats.vices.percentage, matchas)];
      tips := tips + [TipFor(Vices)];
    }
    assert tips == TipsFor(insights);
    assert Topics(insights) == Flag(cats, Vices);
    if Above(cats.food.percentage, 25.0) {
      TipsForAppend(insights, FoodInsight(cats.food.percentage));
      insights := insights + [FoodInsight(cats.food.percentage)];
      tips := tips + [TipFor(Food)];
    }
    assert tips == TipsFor(insights);
    assert Topics(insights) == Flag(cats, Vices) + Flag(cats, Food);
    if Above(cats.vibes.percentage, 20.0) {
      TipsForAppend(insights, VibesInsight(cats.vibes.percentage));
      insights := insights + [VibesInsight(cats.vibes.percentage)];
      tips := tips + [TipFor(Vibes)];
    }
    assert tips == TipsFor(insights);
    assert Topics(insights) == Flag(cats, Vices) + Flag(cats, Food) + Flag(cats, Vibes);
    if Above(cats.rent.percentage, 35.0) {
      TipsForAppend(insights, RentInsight(cats.rent.percentage));
      insights := insights + [RentInsight(cats.rent.percentage)];
      tips := tips + [TipFor(Rent)];
    }
    assert tips == TipsFor(insights);
  }

  /** `generatePersonalizedInsights`: without categories a fixed message and
      no lists; otherwise the collected insights and tips, and a message
      that says whether anything was flagged. */
  method PersonalizedInsights(categories: Option<Categories>, matchas: int) returns (p: Personalized)
    ensures categories.None? ==> p == Personalized(StillFiguringMessage, [], [])
    ensures categories.Some? ==> Topics(p.insights) == Flagged(categories.value)
    ensures p.tips == TipsFor(p.insights)
    ensures categories.Some? ==> forall i :: 0 <= i < |p.insights| ==>
              p.insights[i] == InsightFor(p.insights[i].About(), categories.value, matchas)
    ensures categories.Some? ==>
              p.message == (if p.insights != [] then AttentionMessage else DoingWellMessage)
  {
    if categories.None? {
      return Personalized(StillFiguringMessage, [], []);
    }
    var insights, tips := CollectInsights(categories.value, matchas);
    var message := if |insights| > 0 then AttentionMessage else DoingWellMessage;
    p := Personalized(message, insights, tips);
  }

  /** The result of `mockBankingService.analyzeBudget`; percentages and risk
      may be NaN. */
  datatype Analysis = Analysis(
    totalSpent: real,
    income: real,
    categories: Categories,
    savings: real,
    overdraftRisk: Number,
    sassyMessage: string,
    matchasUntilOverdraft: int)

  method AnalyzeBudget(transactions: seq<Transaction>, accounts: seq<Account>) returns (a: Analysis)
    ensures a.totalSpent == TotalSpent(transactions) && a.income == Income(transactions)
    ensures Filed(a.categories, Expenses(transactions), BucketKey, Magnitude, Same)
    ensures a.categories.AmountSum() == a.totalSpent
    ensures multiset(a.categories.rent.transactions) + multiset(a.categories.food.transactions)
      + multiset(a.categories.vices.transactions) + multiset(a.categories.vibes.transactions)
      + multiset(a.categories.other.transactions) == multiset(Expenses(transactions))
    ensures forall c :: a.categories.Get(c).percentage == UnguardedShare(a.categories.Get(c).amount, a.totalSpent)
    ensures a.totalSpent > 0.0 ==> SharesOf(a.categories, a.totalSpent)
    ensures a.totalSpent > 0.0 ==> a.categories.PercentageSum() == 100.0
    ensures a.totalSpent == 0.0 ==> forall c :: a.categories.Get(c).percentage.NaN?
    ensures a.savings == a.income - a.totalSpent
    ensures a.overdraftRisk == MockRisk(CurrentBalance(accounts), a.totalSpent)
    ensures a.matchasUntilOverdraft == SignedMatchas(CurrentBalance(accounts))
    ensures a.sassyMessage == (if Flagged(a.categories) != [] then AttentionMessage else DoingWellMessage)
    ensures a.totalSpent == 0.0 ==> a.sassyMessage == DoingWellMessage
  {
    var expenses := Expenses(transactions);
    var income := Income(transactions);
    var totalSpent := Abs(SumOf(expenses, Amount));

    // `forEach` adds `|amount|` to the bucket the stored `subcategory` names.
    var categories := FileAll(expenses, BucketKey, Magnitude, Same);
    categories := SetPercentages(categories, amount => UnguardedShare(amount, totalSpent));
    FiledTotal(categories, expenses, BucketKey, Magnitude, Same);
    FiledPartition(categories, expenses, BucketKey, Magnitude);
    TotalSpentIsMagnitudes(transactions);
    if totalSpent > 0.0 {
      SharesOfAll(categories, totalSpent);
      SharesSum(categories, totalSpent);
    } else {
      NothingFlagged(categories);
    }

    var balance := CurrentBalance(accounts);
    var savings := income - totalSpent;
    var overdraftRisk := MockRisk(balance, totalSpent);
    var matchas := (balance / MatchaPrice).Floor;
    var personalized := PersonalizedInsights(Some(categories), matchas);
    a := Analysis(totalSpent, income, categories, savings, overdraftRisk, personalized.message, matchas);
  }

  /** NaN percentages raise no insight. */
  lemma NothingFlagged(cats: Categories)
    requires forall c :: cats.Get(c).percentage.NaN?
    ensures Flagged(cats) == []
  {
    FlaggedUnfold(cats);
    assert cats.Get(Vices).percentage.NaN? && cats.Get(Food).percentage.NaN?;
    assert cats.Get(Vibes).percentage.NaN? && cats.Get(Rent).percentage.NaN?;
  }
}
