/** The client-side banking service (`src/services/plaidService.ts`): the
    keyword classifier, the mapping of fetched transactions, the budget
    aggregation and the choice of the "sassy" summary line. */
module PlaidService {
  import opened Basics
  import opened Text
  import opened Bank

  /** `categorizeTransaction`: the first keyword rule that fires, in the
      order rent, food, vices, vibes; `other` when none does. */
  function Categorize(t: Raw): (c: Category)
    ensures c == FirstMatch(Rules, FieldsOf(t))
  {
    RentRuleIs(FieldsOf(t));
    FoodRuleIs(FieldsOf(t));
    VicesRuleIs(FieldsOf(t));
    VibesRuleIs(FieldsOf(t));
    RulesPriority(FieldsOf(t));
    var category := if t.category.Some? && |t.category.value| > 0 then Lower(t.category.value[0]) else "";
    var name := if t.name.Some? then Lower(t.name.value) else "";
    var merchantName := if t.merchantName.Some? then Lower(t.merchantName.value) else "";
    if Contains(category, "rent") || Contains(category, "mortgage")
       || Contains(name, "rent") || Contains(name, "apartment") || Contains(name, "housing")
    then Rent
    else if Contains(category, "food") || Contains(category, "restaurant") || Contains(category, "grocery")
       || Contains(name, "restaurant") || Contains(name, "food") || Contains(name, "grocery")
       || Contains(merchantName, "restaurant")
    then Food
    else if Contains(name, "starbucks") || Contains(name, "coffee") || Contains(name, "cafe")
       || Contains(name, "bar") || Contains(name, "liquor") || Contains(name, "brewery")
       || Contains(name, "matcha") || Contains(merchantName, "coffee") || Contains(merchantName, "starbucks")
    then Vices
    else if Contains(category, "entertainment") || Contains(category, "recreation") || Contains(category, "shops")
       || Contains(name, "netflix") || Contains(name, "spotify") || Contains(name, "uber")
       || Contains(name, "lyft") || Contains(name, "cinema") || Contains(name, "movie")
    then Vibes
    else Other
  }

  lemma RentRuleIs(f: Fields)
    ensures Matches(RentRule, f) <==>
      Contains(f.category, "rent") || Contains(f.category, "mortgage")
      || Contains(f.name, "rent") || Contains(f.name, "apartment") || Contains(f.name, "housing")
  {
  }

  lemma FoodRuleIs(f: Fields)
    ensures Matches(FoodRule, f) <==>
      Contains(f.category, "food") || Contains(f.category, "restaurant") || Contains(f.category, "grocery")
      || Contains(f.name, "restaurant") || Contains(f.name, "food") || Contains(f.name, "grocery")
      || Contains(f.merchant, "restaurant")
  {
  }

  lemma VicesRuleIs(f: Fields)
    ensures Matches(VicesRule, f) <==>
      Contains(f.name, "starbucks") || Contains(f.name, "coffee") || Contains(f.name, "cafe")
      || Contains(f.name, "bar") || Contains(f.name, "liquor") || Contains(f.name, "brewery")
      || Contains(f.name, "matcha") || Contains(f.merchant, "coffee") || Contains(f.merchant, "starbucks")
  {
  }

  lemma VibesRuleIs(f: Fields)
    ensures Matches(VibesRule, f) <==>
      Contains(f.category, "entertainment") || Contains(f.category, "recreation") || Contains(f.category, "shops")
      || Contains(f.name, "netflix") || Contains(f.name, "spotify") || Contains(f.name, "uber")
      || Contains(f.name, "lyft") || Contains(f.name, "cinema") || Contains(f.name, "movie")
  {
  }

  /** One fetched transaction as `getTransactions` stores it: the classifier's
      label becomes the bucket key, an empty merchant name becomes absent. */
  function ToTransaction(r: Raw): (t: Transaction)
    ensures KeyOf(t.subcategory) == Categorize(r) && t.subcategory == Name(Categorize(r))
    ensures t.id == r.transactionId && t.accountId == r.accountId && t.amount == r.amount
    ensures t.date == r.date && t.name == r.name && t.category == r.category
    ensures t.merchantName == (if r.merchantName == Some("") then None else r.merchantName)
  {
    KeyOfName(Categorize(r));
    Transaction(
      r.transactionId, r.accountId, r.amount, r.date, r.name,
      if r.merchantName == Some("") then None else r.merchantName,
      r.category, Name(Categorize(r)))
  }

  /** `getTransactions`: every fetched transaction, in order, mapped. */
  function Fetch(raws: seq<Raw>): (ts: seq<Transaction>)
    ensures |ts| == |raws|
    ensures forall i :: 0 <= i < |raws| ==> ts[i] == ToTransaction(raws[i])
  {
    seq(|raws|, i requires 0 <= i < |raws| => ToTransaction(raws[i]))
  }

  // The quantities `analyzeBudget` computes; the provider reports money
  // leaving the account as a positive amount.

  predicate IsExpense(t: Transaction) { t.amount > 0.0 }

  predicate IsIncome(t: Transaction) { t.amount < 0.0 }

  function Amount(t: Transaction): real { t.amount }

  function Magnitude(t: Transaction): real { Abs(t.amount) }

  function BucketKey(t: Transaction): Category { KeyOf(t.subcategory) }

  /** The expenses: exactly the transactions with a positive amount; the
      order is stated by `ExpensesInOrder`. */
  function Expenses(ts: seq<Transaction>): (r: seq<Transaction>)
    ensures |r| <= |ts|
    ensures forall t :: t in r <==> t in ts && t.amount > 0.0
  {
    KeepMembers(ts, IsExpense);
    Keep(ts, IsExpense)
  }

  /** The filter keeps every expense, each occurrence once, in arrival
      order: nothing from an empty list, one transaction exactly when it is
      an expense, and the expenses of a concatenation are those of each part
      in turn. */
  lemma ExpensesInOrder(a: seq<Transaction>, b: seq<Transaction>, t: Transaction)
    ensures Expenses([]) == []
    ensures Expenses([t]) == if t.amount > 0.0 then [t] else []
    ensures Expenses(a + b) == Expenses(a) + Expenses(b)
  {
    KeepOne(t, IsExpense);
    KeepAppend(a, b, IsExpense);
  }

  /** Money in: the sum of the magnitudes of the negative amounts, never
      negative. */
  function Income(ts: seq<Transaction>): (r: real)
    ensures r >= 0.0
  {
    SumNonNegative(Keep(ts, IsIncome), Magnitude);
    SumOf(Keep(ts, IsIncome), Magnitude)
  }

  /** Money out: the sum of the positive amounts, never negative. */
  function TotalSpent(ts: seq<Transaction>): (r: real)
    ensures r >= 0.0
  {
    SumNonNegative(Expenses(ts), Amount);
    SumOf(Expenses(ts), Amount)
  }

  /** Neither money in nor money out is ever negative, and nothing was spent
      exactly when there are no expenses. */
  lemma FlowsNonNegative(ts: seq<Transaction>)
    ensures Income(ts) >= 0.0 && TotalSpent(ts) >= 0.0
    ensures TotalSpent(ts) == 0.0 <==> Expenses(ts) == []
  {
    SumNonNegative(Keep(ts, IsIncome), Magnitude);
    SumNonNegative(Expenses(ts), Amount);
    if Expenses(ts) != [] {
      assert Expenses(ts)[0] in Expenses(ts);
    }
  }

  /** Savings are the net flow of the account: income minus spending is
      minus the sum of all amounts. */
  lemma {:induction false} SavingsIsNetFlow(ts: seq<Transaction>)
    ensures Income(ts) - TotalSpent(ts) == -SumOf(ts, Amount)
  {
    if ts != [] {
      SumKeepStep(ts, IsIncome, Magnitude);
      SumKeepStep(ts, IsExpense, Amount);
      SavingsIsNetFlow(ts[1..]);
    }
  }

  /** A transaction of amount zero is neither income nor expense. */
  lemma ZeroAmountIgnored(ts: seq<Transaction>, t: Transaction)
    requires t.amount == 0.0
    ensures Expenses(ts + [t]) == Expenses(ts)
    ensures Income(ts + [t]) == Income(ts) && TotalSpent(ts + [t]) == TotalSpent(ts)
  {
    KeepAppend(ts, [t], IsExpense);
    KeepAppend(ts, [t], IsIncome);
    KeepOne(t, IsExpense);
    KeepOne(t, IsIncome);
    assert Expenses(ts) + [] == Expenses(ts);
    assert Keep(ts, IsIncome) + [] == Keep(ts, IsIncome);
  }

  /** Every transaction in a bucket of fetched data is a positive-amount
      transaction that the classifier put in that bucket. */
  lemma FetchedBuckets(raws: seq<Raw>, c: Category, t: Transaction)
    requires t in Select(Expenses(Fetch(raws)), BucketKey, c)
    ensures exists r :: r in raws && t == ToTransaction(r) && Categorize(r) == c && r.amount > 0.0
  {
    var ts := Fetch(raws);
    assert t in ts;
    var i :| 0 <= i < |ts| && ts[i] == t;
    assert raws[i] in raws;
  }

  // The summary line.

  const UnableMessage := "Unable to calculate your financial chaos level."
  const EmergencyMessage := "\U{1F6A8} FINANCIAL EMERGENCY: You're basically playing financial Jenga with your bank account!"

  /** The institutions with their own quips, two each. */
  const QuipBanks: seq<string> := ["chase", "bank of america", "apple"]
  const BankQuipCount := 2
  const GeneralQuipCount := 8

  /** Which line `generateSassyMessage` returns; a quip is named by its list
      and position, its template text is not part of the model. */
  datatype Sassy =
    | Unable
    | Emergency
    | BankQuip(bank: string, index: nat)
    | GeneralQuip(index: nat)

  /** `generateSassyMessage`. `coin` and `draw` are the two values of
      `Math.random()` the function consumes. */
  function SassyMessage(categories: Option<Categories>, overdraftRisk: Option<real>,
                        bankName: Option<string>, coin: real, draw: real): (m: Sassy)
    requires 0.0 <= coin < 1.0 && 0.0 <= draw < 1.0
    ensures m.Unable? <==> categories.None?
    ensures m.Emergency? <==> categories.Some? && overdraftRisk.Some? && overdraftRisk.value > 80.0
    ensures m.BankQuip? ==> m.bank in QuipBanks && bankName.Some? && Lower(bankName.value) == m.bank
                            && m.index < BankQuipCount && coin > 0.5
    ensures m.GeneralQuip? ==> m.index < GeneralQuipCount
    ensures (categories.Some? && !m.Emergency? && bankName.Some? && Lower(bankName.value) in QuipBanks
             && coin > 0.5) ==> m == BankQuip(Lower(bankName.value), (draw * BankQuipCount as real).Floor)
    ensures (categories.Some? && !m.Emergency?
             && !(bankName.Some? && Lower(bankName.value) in QuipBanks && coin > 0.5))
            ==> m == GeneralQuip((draw * GeneralQuipCount as real).Floor)
  {
    if categories.None? then Unable
    else if overdraftRisk.Some? && overdraftRisk.value != 0.0 && overdraftRisk.value > 80.0 then Emergency
    else if bankName.Some? && Lower(bankName.value) in QuipBanks && coin > 0.5 then
      BankQuip(Lower(bankName.value), (draw * BankQuipCount as real).Floor)
    else GeneralQuip((draw * GeneralQuipCount as real).Floor)
  }

  /** Above 80% risk the emergency line is certain, whatever the draws. */
  lemma EmergencyDeterministic(cats: Categories, risk: real, bankName: Option<string>,
                               coin1: real, draw1: real, coin2: real, draw2: real)
    requires 0.0 <= coin1 < 1.0 && 0.0 <= draw1 < 1.0 && 0.0 <= coin2 < 1.0 && 0.0 <= draw2 < 1.0
    requires risk > 80.0
    ensures SassyMessage(Some(cats), Some(risk), bankName, coin1, draw1)
         == SassyMessage(Some(cats), Some(risk), bankName, coin2, draw2) == Emergency
  {
  }

  /** The result of `analyzeBudget`. */
  datatype BudgetAnalysis = BudgetAnalysis(
    totalSpent: real,
    income: real,
    categories: Categories,
    savings: real,
    overdraftRisk: real,
    sassyMessage: Sassy,
    matchasUntilOverdraft: int,
    bankName: string)

  /** `analyzeBudget` over the fetched transactions, accounts and institution
      name. */
  method AnalyzeBudget(transactions: seq<Transaction>, accounts: seq<Account>, bankName: string,
                       coin: real, draw: real) returns (a: BudgetAnalysis)
    requires 0.0 <= coin < 1.0 && 0.0 <= draw < 1.0
    ensures a.totalSpent == TotalSpent(transactions) && a.income == Income(transactions)
    ensures Filed(a.categories, Expenses(transactions), BucketKey, Amount, Same)
    ensures SharesOf(a.categories, a.totalSpent)
    ensures a.categories.AmountSum() == a.totalSpent
    ensures multiset(a.categories.rent.transactions) + multiset(a.categories.food.transactions)
      + multiset(a.categories.vices.transactions) + multiset(a.categories.vibes.transactions)
      + multiset(a.categories.other.transactions) == multiset(Expenses(transactions))
    ensures a.totalSpent > 0.0 ==> a.categories.PercentageSum() == 100.0
    ensures a.totalSpent == 0.0 ==> forall c :: a.categories.Get(c).percentage == Num(0.0)
    ensures a.savings == a.income - a.totalSpent == -SumOf(transactions, Amount)
    ensures a.overdraftRisk == GuardedRisk(CurrentBalance(accounts), a.totalSpent)
    ensures 0.0 <= a.overdraftRisk <= 100.0
    ensures a.matchasUntilOverdraft == Matchas(CurrentBalance(accounts)) >= 0
    ensures a.sassyMessage == SassyMessage(Some(a.categories), Some(a.overdraftRisk), Some(bankName), coin, draw)
    ensures a.bankName == bankName
  {
    var expenses := Expenses(transactions);
    var income := Income(transactions);
    var totalSpent := SumOf(expenses, Amount);

    // `forEach` files every expense under the bucket its `subcategory`
    // names (anything unknown under `other`).
    var categories := FileAll(expenses, BucketKey, Amount, Same);
    categories := SetPercentages(categories, amount => Num(Share(amount, totalSpent)));
    SharesOfAll(categories, totalSpent);

    var balance := CurrentBalance(accounts);
    var savings := income - totalSpent;
    var overdraftRisk := Clamp((1.0 - Abs(balance) / (if totalSpent == 0.0 then 1.0 else totalSpent)) * 100.0);
    var matchas := (Abs(balance) / MatchaPrice).Floor;

    FiledTotal(categories, expenses, BucketKey, Amount, Same);
    FiledPartition(categories, expenses, BucketKey, Amount);
    SharesSum(categories, totalSpent);
    SavingsIsNetFlow(transactions);
    a := BudgetAnalysis(totalSpent, income, categories, savings, overdraftRisk,
                        SassyMessage(Some(categories), Some(overdraftRisk), Some(bankName), coin, draw),
                        matchas, bankName);
  }
}
