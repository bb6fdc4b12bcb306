/** The banking back end (`server/plaidServer.js`): its own copy of the
    keyword classifier and the `/api/analyze_budget` aggregation, which
    classifies the provider's transactions itself, stamps the bucket records
    and emits the threshold insights. */
module PlaidServer {
  import opened Basics
  import opened Text
  import opened Bank
  import PlaidService

  /** `categorizeTransaction` of the server: the same rules as the client's
      copy, with the keyword tests written in another order. */
  function Categorize(t: Raw): (c: Category)
    ensures c == PlaidService.Categorize(t)
  {
    PlaidService.RentRuleIs(FieldsOf(t));
    PlaidService.FoodRuleIs(FieldsOf(t));
    PlaidService.VicesRuleIs(FieldsOf(t));
    PlaidService.VibesRuleIs(FieldsOf(t));
    var category := if t.category.Some? && |t.category.value| > 0 then Lower(t.category.value[0]) else "";
    var name := if t.name.Some? then Lower(t.name.value) else "";
    var merchantName := if t.merchantName.Some? then Lower(t.merchantName.value) else "";
    if Contains(category, "rent") || Contains(name, "rent") || Contains(name, "apartment")
       || Contains(name, "housing") || Contains(category, "mortgage")
    then Rent
    else if Contains(category, "food") || Contains(category, "restaurant") || Contains(category, "grocery")
       || Contains(name, "restaurant") || Contains(merchantName, "restaurant")
       || Contains(name, "food") || Contains(name, "grocery")
    then Food
    else if Contains(name, "starbucks") || Contains(name, "coffee") || Contains(name, "cafe")
       || Contains(name, "bar") || Contains(name, "liquor") || Contains(name, "brewery")
       || Contains(name, "matcha") || Contains(merchantName, "coffee") || Contains(merchantName, "starbucks")
    then Vices
    else if Contains(category, "entertainment") || Contains(category, "recreation")
       || Contains(name, "netflix") || Contains(name, "spotify") || Contains(name, "uber")
       || Contains(name, "lyft") || Contains(name, "cinema") || Contains(name, "movie")
       || Contains(category, "shops")
    then Vibes
    else Other
  }

  /** The record pushed into a bucket: the provider's fields as they are,
      with the classifier's label as `subcategory`. */
  function Stamp(r: Raw): (t: Transaction)
    ensures KeyOf(t.subcategory) == Categorize(r)
    ensures t.id == r.transactionId && t.accountId == r.accountId && t.amount == r.amount
    ensures t.date == r.date && t.name == r.name && t.merchantName == r.merchantName
    ensures t.category == r.category
  {
    KeyOfName(Categorize(r));
    Transaction(r.transactionId, r.accountId, r.amount, r.date, r.name, r.merchantName,
                r.category, Name(Categorize(r)))
  }

  predicate IsExpense(r: Raw) { r.amount > 0.0 }

  predicate IsIncome(r: Raw) { r.amount < 0.0 }

  function Amount(r: Raw): real { r.amount }

  function Magnitude(r: Raw): real { Abs(r.amount) }

  /** The expenses: exactly the provider transactions with a positive
      amount; the order is stated by `ExpensesInOrder`. */
  function Expenses(rs: seq<Raw>): (r: seq<Raw>)
    ensures |r| <= |rs|
    ensures forall t :: t in r <==> t in rs && t.amount > 0.0
  {
    KeepMembers(rs, IsExpense);
    Keep(rs, IsExpense)
  }

  /** The filter keeps every expense, each occurrence once, in arrival
      order: nothing from an empty list, one transaction exactly when it is
      an expense, and the expenses of a concatenation are those of each part
      in turn. */
  lemma ExpensesInOrder(a: seq<Raw>, b: seq<Raw>, t: Raw)
    ensures Expenses([]) == []
    ensures Expenses([t]) == if t.amount > 0.0 then [t] else []
    ensures Expenses(a + b) == Expenses(a) + Expenses(b)
  {
    KeepOne(t, IsExpense);
    KeepAppend(a, b, IsExpense);
  }

  /** Money in, never negative. */
  function Income(rs: seq<Raw>): (r: real)
    ensures r >= 0.0
  {
    SumNonNegative(Keep(rs, IsIncome), Magnitude);
    SumOf(Keep(rs, IsIncome), Magnitude)
  }

  /** Money out, never negative. */
  function TotalSpent(rs: seq<Raw>): (r: real)
    ensures r >= 0.0
  {
    SumNonNegative(Expenses(rs), Amount);
    SumOf(Expenses(rs), Amount)
  }

  /** The four threshold checks, in the order vices, food, vibes, rent;
      each insight carries its bucket's percentage. */
  method CollectInsights(categories: Categories, matchas: int) returns (insights: seq<Insight>)
    ensures Topics(insights) == Flagged(categories)
    ensures forall i :: 0 <= i < |insights| ==>
              insights[i] == InsightFor(insights[i].About(), categories, matchas)
  {
    FlaggedUnfold(categories);
    insights := [];
    if Above(categories.vices.percentage, 15.0) {
      insights := insights + [VicesInsight(categories.vices.percentage, matchas)];
    }
    assert Topics(insights) == Flag(categories, Vices);
    if Above(categories.food.percentage, 25.0) {
      insights := insights + [FoodInsight(categories.food.percentage)];
    }
    assert Topics(insights) == Flag(categories, Vices) + Flag(categories, Food);
    if Above(categories.vibes.percentage, 20.0) {
      insights := insights + [VibesInsight(categories.vibes.percentage)];
    }
    assert Topics(insights) == Flag(categories, Vices) + Flag(categories, Food) + Flag(categories, Vibes);
    if Above(categories.rent.percentage, 35.0) {
      insights := insights + [RentInsight(categories.rent.percentage)];
    }
  }

  /** The response of `/api/analyze_budget`. */
  datatype Analysis = Analysis(
    totalSpent: real,
    income: real,
    categories: Categories,
    savings: real,
    overdraftRisk: real,
    sassyMessage: string,
    matchasUntilOverdraft: int,
    bankName: string,
    insights: seq<Insight>)

  method AnalyzeBudget(transactions: seq<Raw>, accounts: seq<Account>, institutionName: string)
    returns (a: Analysis)
    ensures a.totalSpent == TotalSpent(transactions) && a.income == Income(transactions)
    ensures Filed(a.categories, Expenses(transactions), Categorize, Amount, Stamp)
    ensures SharesOf(a.categories, a.totalSpent)
    ensures a.categories.AmountSum() == a.totalSpent
    ensures a.totalSpent > 0.0 ==> a.categories.PercentageSum() == 100.0
    ensures a.totalSpent <= 0.0 ==> forall c :: a.categories.Get(c).percentage == Num(0.0)
    ensures a.savings == a.income - a.totalSpent
    ensures a.overdraftRisk == GuardedRisk(CurrentBalance(accounts), a.totalSpent)
    ensures a.matchasUntilOverdraft == Matchas(CurrentBalance(accounts))
    ensures Topics(a.insights) == Flagged(a.categories)
    ensures forall i :: 0 <= i < |a.insights| ==>
              a.insights[i] == InsightFor(a.insights[i].About(), a.categories, a.matchasUntilOverdraft)
    ensures a.sassyMessage == (if a.insights != [] then AttentionMessage else DoingWellMessage)
    ensures a.bankName == institutionName
  {
    var expenses := Expenses(transactions);
    var income := Income(transactions);
    var totalSpent := SumOf(expenses, Amount);
    // `forEach` classifies every expense and pushes its stamped record.
    var categories := FileAll(expenses, Categorize, Amount, Stamp);
    categories := SetPercentages(categories, amount => Num(Share(amount, totalSpent)));
    SharesOfAll(categories, totalSpent);
    FiledTotal(categories, expenses, Categorize, Amount, Stamp);
    SharesSum(categories, totalSpent);

    var balance := CurrentBalance(accounts);
    var savings := income - totalSpent;
    var overdraftRisk := Clamp((1.0 - Abs(balance) / (if totalSpent == 0.0 then 1.0 else totalSpent)) * 100.0);
    var matchas := (Abs(balance) / MatchaPrice).Floor;
    var insights := CollectInsights(categories, matchas);
    var message := if |insights| > 0 then AttentionMessage else DoingWellMessage;
    a := Analysis(totalSpent, income, categories, savings, overdraftRisk, message, matchas,
                  institutionName, insights);
  }

  // The server and the client aggregate the same data the same way.

  lemma FetchAppend(xs: seq<Raw>, ys: seq<Raw>)
    ensures PlaidService.Fetch(xs + ys) == PlaidService.Fetch(xs) + PlaidService.Fetch(ys)
  {
    FetchIsRecords(xs + ys);
    FetchIsRecords(xs);
    FetchIsRecords(ys);
    RecordsAppend(xs, ys, PlaidService.ToTransaction);
  }

  /** Taking the expenses commutes with any record map that keeps the
      amount. */
  lemma {:induction false} RecordsExpenses(rs: seq<Raw>, record: Raw -> Transaction)
    requires forall r :: record(r).amount == r.amount
    ensures PlaidService.Expenses(Records(rs, record)) == Records(Expenses(rs), record)
  {
    if rs != [] {
      var t0 := record(rs[0]);
      var rest := Records(rs[1..], record);
      assert Records(rs, record) == [t0] + rest;
      KeepAppend([t0], rest, PlaidService.IsExpense);
      KeepOne(t0, PlaidService.IsExpense);
      RecordsExpenses(rs[1..], record);
      var head := if IsExpense(rs[0]) then [rs[0]] else [];
      assert Expenses(rs) == head + Expenses(rs[1..]);
      RecordsAppend(head, Expenses(rs[1..]), record);
      assert Records(head, record) == if IsExpense(rs[0]) then [t0] else [];
    }
  }

  /** Filtering the expenses commutes with fetching. */
  lemma FetchExpenses(rs: seq<Raw>)
    ensures PlaidService.Expenses(PlaidService.Fetch(rs)) == PlaidService.Fetch(Expenses(rs))
  {
    FetchIsRecords(rs);
    FetchIsRecords(Expenses(rs));
    RecordsExpenses(rs, PlaidService.ToTransaction);
  }

  lemma FetchIsRecords(rs: seq<Raw>)
    ensures PlaidService.Fetch(rs) == Records(rs, PlaidService.ToTransaction)
  {
  }

  /** Bucketing by the stored label commutes with fetching. */
  lemma FetchSelect(rs: seq<Raw>, c: Category)
    ensures Select(PlaidService.Fetch(rs), PlaidService.BucketKey, c)
         == PlaidService.Fetch(Select(rs, Categorize, c))
  {
    forall r ensures PlaidService.BucketKey(PlaidService.ToTransaction(r)) == Categorize(r) {
    }
    FetchIsRecords(rs);
    FetchIsRecords(Select(rs, Categorize, c));
    RecordsSelect(rs, PlaidService.ToTransaction, Categorize, PlaidService.BucketKey, c);
  }

  lemma {:induction false} FetchSum(rs: seq<Raw>)
    ensures SumOf(PlaidService.Fetch(rs), PlaidService.Amount) == SumOf(rs, Amount)
  {
    if rs != [] {
      var f := PlaidService.Fetch(rs);
      assert f[1..] == PlaidService.Fetch(rs[1..]);
      FetchSum(rs[1..]);
    }
  }

  /** Server and client agree: on the same provider data, the client's
      fetch-then-aggregate yields the server's spending total and the
      server's amount in every bucket. */
  lemma ServerAgreesWithClient(rs: seq<Raw>, c: Category)
    ensures PlaidService.TotalSpent(PlaidService.Fetch(rs)) == TotalSpent(rs)
    ensures SumOf(Select(PlaidService.Expenses(PlaidService.Fetch(rs)), PlaidService.BucketKey, c),
                  PlaidService.Amount)
         == SumOf(Select(Expenses(rs), Categorize, c), Amount)
  {
    FetchExpenses(rs);
    FetchSum(Expenses(rs));
    FetchSelect(Expenses(rs), c);
    FetchSum(Select(Expenses(rs), Categorize, c));
  }
}
