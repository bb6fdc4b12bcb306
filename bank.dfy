/** The budget vocabulary shared by the three analysis copies and the two
    dashboards: the five spending categories, transaction records, category
    buckets, the keyword rules the classifier applies and the percentage
    thresholds behind the insights. */
module Bank {
  import opened Basics
  import opened Text

  datatype Category = Rent | Food | Vices | Vibes | Other

  /** The fixed order of the buckets: `Object.keys(categories)`. */
  const Order: seq<Category> := [Rent, Food, Vices, Vibes, Other]

  /** The bucket key, as stored in a transaction's `subcategory`. */
  function Name(c: Category): string {
    match c
    case Rent => "rent"
    case Food => "food"
    case Vices => "vices"
    case Vibes => "vibes"
    case Other => "other"
  }

  /** The `if (category === 'rent') … else` chain of the bucketing loops:
      any other subcategory lands in `other`. */
  function KeyOf(subcategory: string): (c: Category)
    ensures c != Other ==> subcategory == Name(c)
  {
    if subcategory == "rent" then Rent
    else if subcategory == "food" then Food
    else if subcategory == "vices" then Vices
    else if subcategory == "vibes" then Vibes
    else Other
  }

  lemma KeyOfName(c: Category)
    ensures KeyOf(Name(c)) == c
  {
  }

  /** A transaction as the banking provider's SDK returns it. */
  datatype Raw = Raw(
    transactionId: string,
    accountId: string,
    amount: real,
    date: string,
    name: Option<string>,
    merchantName: Option<string>,
    category: Option<seq<string>>)

  /** A transaction as the application stores it, with the bucket key in
      `subcategory`. */
  datatype Transaction = Transaction(
    id: string,
    accountId: string,
    amount: real,
    date: string,
    name: Option<string>,
    merchantName: Option<string>,
    category: Option<seq<string>>,
    subcategory: string)

  datatype Account = Account(accountId: string, current: Option<real>)

  /** `accounts[0]?.balances.current || 0`. */
  function CurrentBalance(accounts: seq<Account>): (b: real)
    ensures accounts == [] || accounts[0].current.None? ==> b == 0.0
  {
    if accounts != [] && accounts[0].current.Some? then accounts[0].current.value else 0.0
  }

  datatype Bucket = Bucket(amount: real, percentage: Number, transactions: seq<Transaction>)

  const EmptyBucket := Bucket(0.0, Num(0.0), [])

  /** The five buckets of an analysis. */
  datatype Categories = Categories(rent: Bucket, food: Bucket, vices: Bucket, vibes: Bucket, other: Bucket) {

    function Get(c: Category): Bucket {
      match c
      case Rent => rent
      case Food => food
      case Vices => vices
      case Vibes => vibes
      case Other => other
    }

    function With(c: Category, b: Bucket): (r: Categories)
      ensures r.Get(c) == b
      ensures forall d :: d != c ==> r.Get(d) == Get(d)
    {
      match c
      case Rent => this.(rent := b)
      case Food => this.(food := b)
      case Vices => this.(vices := b)
      case Vibes => this.(vibes := b)
      case Other => this.(other := b)
    }

    function AmountSum(): real {
      rent.amount + food.amount + vices.amount + vibes.amount + other.amount
    }

    function PercentageSum(): real
      requires rent.percentage.Num? && food.percentage.Num? && vices.percentage.Num?
      requires vibes.percentage.Num? && other.percentage.Num?
    {
      rent.percentage.value + food.percentage.value + vices.percentage.value
        + vibes.percentage.value + other.percentage.value
    }
  }

  const Empty := Categories(EmptyBucket, EmptyBucket, EmptyBucket, EmptyBucket, EmptyBucket)

  /** The bucket-by-bucket filter: the elements of `xs` whose key is `c`, in
      arrival order. */
  function Select<T>(xs: seq<T>, key: T -> Category, c: Category): (r: seq<T>)
    ensures |r| <= |xs|
    ensures forall x :: x in r ==> x in xs && key(x) == c
  {
    if xs == [] then [] else (if key(xs[0]) == c then [xs[0]] else []) + Select(xs[1..], key, c)
  }

  lemma {:induction false} SelectAppend<T>(xs: seq<T>, ys: seq<T>, key: T -> Category, c: Category)
    ensures Select(xs + ys, key, c) == Select(xs, key, c) + Select(ys, key, c)
  {
    if xs == [] {
      assert xs + ys == ys;
    } else {
      assert (xs + ys)[1..] == xs[1..] + ys;
      SelectAppend(xs[1..], ys, key, c);
    }
  }

  lemma SelectOne<T>(x: T, key: T -> Category, c: Category)
    ensures Select([x], key, c) == if key(x) == c then [x] else []
  {
    assert [x][1..] == [];
  }

  lemma SelectSumStep<T>(xs: seq<T>, key: T -> Category, w: T -> real, c: Category)
    requires xs != []
    ensures SumOf(Select(xs, key, c), w)
      == (if key(xs[0]) == c then w(xs[0]) else 0.0) + SumOf(Select(xs[1..], key, c), w)
  {
    var head := if key(xs[0]) == c then [xs[0]] else [];
    SumAppend(head, Select(xs[1..], key, c), w);
    if key(xs[0]) == c {
      SumOne(xs[0], w);
    }
  }

  /** Filing one more element extends its own bucket only. */
  lemma SelectStep<T>(xs: seq<T>, x: T, key: T -> Category, w: T -> real, c: Category)
    ensures Select(xs + [x], key, c) == Select(xs, key, c) + (if key(x) == c then [x] else [])
    ensures SumOf(Select(xs + [x], key, c), w)
         == SumOf(Select(xs, key, c), w) + (if key(x) == c then w(x) else 0.0)
  {
    SelectAppend(xs, [x], key, c);
    SelectOne(x, key, c);
    var last := if key(x) == c then [x] else [];
    SumAppend(Select(xs, key, c), last, w);
    if key(x) == c {
      SumOne(x, w);
    }
  }

  /** The elements of the five buckets, together. */
  ghost function Bucketed<T>(xs: seq<T>, key: T -> Category): multiset<T> {
    multiset(Select(xs, key, Rent)) + multiset(Select(xs, key, Food))
      + multiset(Select(xs, key, Vices)) + multiset(Select(xs, key, Vibes))
      + multiset(Select(xs, key, Other))
  }

  /** Adding one element to any one of five multisets adds it to their
      union. */
  lemma UnionAddOne<T>(x: T, a: multiset<T>, b: multiset<T>, c: multiset<T>, d: multiset<T>, e: multiset<T>)
    ensures (multiset{x} + a) + b + c + d + e == multiset{x} + (a + b + c + d + e)
    ensures a + (multiset{x} + b) + c + d + e == multiset{x} + (a + b + c + d + e)
    ensures a + b + (multiset{x} + c) + d + e == multiset{x} + (a + b + c + d + e)
    ensures a + b + c + (multiset{x} + d) + e == multiset{x} + (a + b + c + d + e)
    ensures a + b + c + d + (multiset{x} + e) == multiset{x} + (a + b + c + d + e)
  {
  }

  lemma SelectMultisetStep<T>(xs: seq<T>, key: T -> Category, c: Category)
    requires xs != []
    ensures key(xs[0]) == c ==> multiset(Select(xs, key, c)) == multiset{xs[0]} + multiset(Select(xs[1..], key, c))
    ensures key(xs[0]) != c ==> Select(xs, key, c) == Select(xs[1..], key, c)
  {
    if key(xs[0]) == c {
      assert Select(xs, key, c) == [xs[0]] + Select(xs[1..], key, c);
    } else {
      assert Select(xs, key, c) == [] + Select(xs[1..], key, c);
    }
  }

  lemma BucketedStep<T>(xs: seq<T>, key: T -> Category)
    requires xs != []
    ensures Bucketed(xs, key) == multiset{xs[0]} + Bucketed(xs[1..], key)
  {
    var t := xs[1..];
    var r, f, v, b, o := multiset(Select(t, key, Rent)), multiset(Select(t, key, Food)),
                         multiset(Select(t, key, Vices)), multiset(Select(t, key, Vibes)),
                         multiset(Select(t, key, Other));
    assert Bucketed(t, key) == r + f + v + b + o;
    SelectMultisetStep(xs, key, Rent);
    SelectMultisetStep(xs, key, Food);
    SelectMultisetStep(xs, key, Vices);
    SelectMultisetStep(xs, key, Vibes);
    SelectMultisetStep(xs, key, Other);
    UnionAddOne(xs[0], r, f, v, b, o);
  }

  lemma MultisetCons<T>(xs: seq<T>)
    requires xs != []
    ensures multiset(xs) == multiset{xs[0]} + multiset(xs[1..])
  {
    assert xs == [xs[0]] + xs[1..];
  }

  /** The five buckets partition `xs`: together they hold exactly its
      elements, as often as it does. */
  lemma {:induction false} SelectPartition<T>(xs: seq<T>, key: T -> Category)
    ensures Bucketed(xs, key) == multiset(xs)
  {
    if xs != [] {
      SelectPartition(xs[1..], key);
      BucketedStep(xs, key);
      MultisetCons(xs);
    }
  }

  /** The bucket sums add up to the sum over `xs`. */
  lemma {:induction false} SelectPartitionSum<T>(xs: seq<T>, key: T -> Category, w: T -> real)
    ensures SumOf(Select(xs, key, Rent), w) + SumOf(Select(xs, key, Food), w)
      + SumOf(Select(xs, key, Vices), w) + SumOf(Select(xs, key, Vibes), w)
      + SumOf(Select(xs, key, Other), w) == SumOf(xs, w)
  {
    if xs != [] {
      SelectPartitionSum(xs[1..], key, w);
      SelectSumStep(xs, key, w, Rent);
      SelectSumStep(xs, key, w, Food);
      SelectSumStep(xs, key, w, Vices);
      SelectSumStep(xs, key, w, Vibes);
      SelectSumStep(xs, key, w, Other);
    }
  }

  // ---------------------------------------------------------------------
  // The chart data both dashboards build from the buckets.

  /** The label a chart shows for each bucket. */
  function Label(c: Category): string {
    match c
    case Rent => "Rent"
    case Food => "Food"
    case Vices => "Vices"
    case Vibes => "Vibes"
    case Other => "Other"
  }

  /** A category's position in `Order`. */
  function Rank(c: Category): (n: nat)
    ensures n < |Order| && Order[n] == c
  {
    match c
    case Rent => 0
    case Food => 1
    case Vices => 2
    case Vibes => 3
    case Other => 4
  }

  /** One pie slice: `{ name, value: amount, percentage }`. */
  datatype Slice = Slice(name: string, category: Category, value: real, percentage: Number)

  function SliceOf(cats: Categories, c: Category): Slice {
    Slice(Label(c), c, cats.Get(c).amount, cats.Get(c).percentage)
  }

  function SliceRank(s: Slice): int { Rank(s.category) }

  predicate HasValue(s: Slice) { s.value > 0.0 }

  /** `pieData`: the five slices in the order rent, food, vices, vibes,
      other, keeping those whose value is positive. */
  function PieData(cats: Categories): (r: seq<Slice>)
    ensures forall s :: s in r ==> s.value > 0.0 && s == SliceOf(cats, s.category)
    ensures forall c :: SliceOf(cats, c) in r <==> cats.Get(c).amount > 0.0
    ensures Increasing(r, SliceRank)
  {
    var all := [SliceOf(cats, Rent), SliceOf(cats, Food), SliceOf(cats, Vices), SliceOf(cats, Vibes),
                SliceOf(cats, Other)];
    assert Increasing(all, SliceRank);
    KeepIncreasing(all, HasValue, SliceRank);
    forall c | cats.Get(c).amount > 0.0 ensures SliceOf(cats, c) in Keep(all, HasValue) {
      assert all[Rank(c)] == SliceOf(cats, c);
      KeepComplete(all, HasValue, SliceOf(cats, c));
    }
    Keep(all, HasValue)
  }

  /** The price of one matcha latte, the unit `matchasUntilOverdraft` counts. */
  const MatchaPrice: real := 7.5

  /** The guarded percentage of the two provider paths:
      `totalSpent > 0 ? amount / totalSpent * 100 : 0`. */
  function Share(amount: real, total: real): real {
    if total > 0.0 then amount / total * 100.0 else 0.0
  }

  /** The overdraft risk of the two provider paths:
      `max(0, min(100, (1 - |balance| / (totalSpent || 1)) * 100))`. */
  function GuardedRisk(balance: real, total: real): (r: real)
    ensures 0.0 <= r <= 100.0
  {
    Clamp((1.0 - Abs(balance) / (if total == 0.0 then 1.0 else total)) * 100.0)
  }

  /** `Math.floor(Math.abs(balance) / 7.50)`. */
  function Matchas(balance: real): (n: int)
    ensures n >= 0
    ensures n as real * MatchaPrice <= Abs(balance) < (n + 1) as real * MatchaPrice
  {
    (Abs(balance) / MatchaPrice).Floor
  }

  /** `xs.map(record)`: the record each filed element becomes. */
  function Records<T>(xs: seq<T>, record: T -> Transaction): (r: seq<Transaction>)
    ensures |r| == |xs|
    ensures forall i :: 0 <= i < |xs| ==> r[i] == record(xs[i])
  {
    seq(|xs|, i requires 0 <= i < |xs| => record(xs[i]))
  }

  lemma RecordsAppendOne<T>(xs: seq<T>, x: T, record: T -> Transaction)
    ensures Records(xs + [x], record) == Records(xs, record) + [record(x)]
  {
    var l, r := Records(xs + [x], record), Records(xs, record) + [record(x)];
    forall i | 0 <= i < |l| ensures l[i] == r[i] {
      if i < |xs| {
        assert (xs + [x])[i] == xs[i];
      }
    }
  }

  /** Bucketing the records by a key that reads back the original key is
      bucketing the originals. */
  lemma {:induction false} RecordsSelect<T>(xs: seq<T>, record: T -> Transaction, key: T -> Category,
                                            recordKey: Transaction -> Category, c: Category)
    requires forall x :: recordKey(record(x)) == key(x)
    ensures Select(Records(xs, record), recordKey, c) == Records(Select(xs, key, c), record)
  {
    if xs != [] {
      var head := if key(xs[0]) == c then [xs[0]] else [];
      assert xs == [xs[0]] + xs[1..];
      RecordsAppend([xs[0]], xs[1..], record);
      assert Records([xs[0]], record) == [record(xs[0])];
      SelectAppend([record(xs[0])], Records(xs[1..], record), recordKey, c);
      SelectOne(record(xs[0]), recordKey, c);
      RecordsSelect(xs[1..], record, key, recordKey, c);
      RecordsAppend(head, Select(xs[1..], key, c), record);
      assert Records(head, record) == if key(xs[0]) == c then [record(xs[0])] else [];
    }
  }

  lemma RecordsAppend<T>(xs: seq<T>, ys: seq<T>, record: T -> Transaction)
    ensures Records(xs + ys, record) == Records(xs, record) + Records(ys, record)
  {
    var l, r := Records(xs + ys, record), Records(xs, record) + Records(ys, record);
    forall i | 0 <= i < |l| ensures l[i] == r[i] {
      if i < |xs| {
        assert (xs + ys)[i] == xs[i];
      } else {
        assert (xs + ys)[i] == ys[i - |xs|];
      }
    }
  }

  /** A transaction filed as it is. */
  function Same(t: Transaction): Transaction { t }

  lemma RecordsSame(xs: seq<Transaction>)
    ensures Records(xs, Same) == xs
  {
  }

  /** Every bucket holds the records of the elements of `xs` whose key is its
      category, in arrival order, and its amount is the sum of their weights. */
  ghost predicate Filed<T>(cats: Categories, xs: seq<T>, key: T -> Category, w: T -> real,
                           record: T -> Transaction)
  {
    forall c :: cats.Get(c).transactions == Records(Select(xs, key, c), record)
             && cats.Get(c).amount == SumOf(Select(xs, key, c), w)
  }

  /** The `forEach` every copy of the aggregation runs: each element's amount
      is added to, and its record pushed onto, the bucket its key names. */
  method FileAll<T>(xs: seq<T>, key: T -> Category, w: T -> real, record: T -> Transaction)
    returns (categories: Categories)
    ensures Filed(categories, xs, key, w, record)
    ensures forall c :: categories.Get(c).percentage == Num(0.0)
  {
    categories := Empty;
    var i := 0;
    while i < |xs|
      invariant 0 <= i <= |xs|
      invariant Filed(categories, xs[..i], key, w, record)
      invariant forall c :: categories.Get(c).percentage == Num(0.0)
    {
      var x := xs[i];
      var k := key(x);
      var b := categories.Get(k);
      var next := categories.With(k, Bucket(b.amount + w(x), b.percentage, b.transactions + [record(x)]));
      assert xs[..i + 1] == xs[..i] + [x];
      forall c ensures next.Get(c).transactions == Records(Select(xs[..i + 1], key, c), record)
                    && next.Get(c).amount == SumOf(Select(xs[..i + 1], key, c), w)
      {
        SelectStep(xs[..i], x, key, w, c);
        if k == c {
          RecordsAppendOne(Select(xs[..i], key, c), x, record);
        } else {
          assert Select(xs[..i], key, c) + [] == Select(xs[..i], key, c);
        }
      }
      categories := next;
      i := i + 1;
    }
    assert xs[..i] == xs;
  }

  /** The percentage pass: every bucket's percentage becomes `share` of its
      amount; amounts and transactions are left as they are. */
  method SetPercentages(filed: Categories, share: real -> Number) returns (categories: Categories)
    ensures forall c :: categories.Get(c).amount == filed.Get(c).amount
                     && categories.Get(c).transactions == filed.Get(c).transactions
                     && categories.Get(c).percentage == share(filed.Get(c).amount)
  {
    categories := filed;
    var k := 0;
    while k < |Order|
      invariant 0 <= k <= |Order|
      invariant forall c :: categories.Get(c).amount == filed.Get(c).amount
                         && categories.Get(c).transactions == filed.Get(c).transactions
      invariant forall j :: 0 <= j < k ==>
                  categories.Get(Order[j]).percentage == share(filed.Get(Order[j]).amount)
    {
      var c := Order[k];
      var b := categories.Get(c);
      categories := categories.With(c, b.(percentage := share(b.amount)));
      k := k + 1;
    }
    forall c ensures categories.Get(c).percentage == share(filed.Get(c).amount) {
      assert c == Order[0] || c == Order[1] || c == Order[2] || c == Order[3] || c == Order[4];
    }
  }

  /** Filing loses nothing and counts nothing twice. */
  lemma FiledTotal<T>(cats: Categories, xs: seq<T>, key: T -> Category, w: T -> real,
                      record: T -> Transaction)
    requires Filed(cats, xs, key, w, record)
    ensures cats.AmountSum() == SumOf(xs, w)
  {
    SelectPartitionSum(xs, key, w);
    assert cats.rent == cats.Get(Rent) && cats.food == cats.Get(Food) && cats.vices == cats.Get(Vices);
    assert cats.vibes == cats.Get(Vibes) && cats.other == cats.Get(Other);
  }

  /** Filed as they are, the buckets together hold exactly the elements. */
  lemma FiledPartition(cats: Categories, xs: seq<Transaction>, key: Transaction -> Category,
                       w: Transaction -> real)
    requires Filed(cats, xs, key, w, Same)
    ensures multiset(cats.rent.transactions) + multiset(cats.food.transactions)
      + multiset(cats.vices.transactions) + multiset(cats.vibes.transactions)
      + multiset(cats.other.transactions) == multiset(xs)
  {
    SelectPartition(xs, key);
    RecordsSame(Select(xs, key, Rent));
    RecordsSame(Select(xs, key, Food));
    RecordsSame(Select(xs, key, Vices));
    RecordsSame(Select(xs, key, Vibes));
    RecordsSame(Select(xs, key, Other));
    assert cats.rent == cats.Get(Rent) && cats.food == cats.Get(Food) && cats.vices == cats.Get(Vices);
    assert cats.vibes == cats.Get(Vibes) && cats.other == cats.Get(Other);
  }

  /** Every percentage is the guarded share of the total. */
  ghost predicate SharesOf(cats: Categories, total: real) {
    ShareIs(cats.rent, total) && ShareIs(cats.food, total) && ShareIs(cats.vices, total)
    && ShareIs(cats.vibes, total) && ShareIs(cats.other, total)
  }

  ghost predicate ShareIs(b: Bucket, total: real) {
    b.percentage == Num(Share(b.amount, total))
  }

  lemma SharesOfAll(cats: Categories, total: real)
    requires forall c :: cats.Get(c).percentage == Num(Share(cats.Get(c).amount, total))
    ensures SharesOf(cats, total)
  {
    assert cats.rent == cats.Get(Rent) && cats.food == cats.Get(Food) && cats.vices == cats.Get(Vices);
    assert cats.vibes == cats.Get(Vibes) && cats.other == cats.Get(Other);
  }

  /** When anything was spent the percentages add up to 100; otherwise they
      are all zero. */
  lemma SharesSum(cats: Categories, total: real)
    requires SharesOf(cats, total) && cats.AmountSum() == total
    ensures total > 0.0 ==> cats.PercentageSum() == 100.0
    ensures total <= 0.0 ==> forall c :: cats.Get(c).percentage == Num(0.0)
  {
    if total > 0.0 {
      var a, b, c, d, e := cats.rent.amount, cats.food.amount, cats.vices.amount, cats.vibes.amount, cats.other.amount;
      calc {
        cats.PercentageSum();
        a / total * 100.0 + b / total * 100.0 + c / total * 100.0 + d / total * 100.0 + e / total * 100.0;
        (a + b + c + d + e) / total * 100.0;
        total / total * 100.0;
        100.0;
      }
    }
  }

  // ---------------------------------------------------------------------
  // The classifier's keyword rules, as a table.

  /** The three lower-cased fields the classifier reads. */
  datatype Fields = Fields(category: string, name: string, merchant: string)

  /** `category?.[0]?.toLowerCase() || ''`, `name?.toLowerCase() || ''` and
      `merchant_name?.toLowerCase() || ''`: only the first provider label is
      read, and a missing field reads as the empty string. */
  function FieldsOf(t: Raw): (f: Fields)
    ensures t.name.None? ==> f.name == ""
    ensures t.merchantName.None? ==> f.merchant == ""
    ensures (t.category.None? || t.category.value == []) ==> f.category == ""
    ensures LowerCased(f.category) && LowerCased(f.name) && LowerCased(f.merchant)
  {
    LowerIdempotent(if t.category.Some? && |t.category.value| > 0 then t.category.value[0] else "");
    LowerIdempotent(if t.name.Some? then t.name.value else "");
    LowerIdempotent(if t.merchantName.Some? then t.merchantName.value else "");
    Fields(
      if t.category.Some? && |t.category.value| > 0 then Lower(t.category.value[0]) else "",
      if t.name.Some? then Lower(t.name.value) else "",
      if t.merchantName.Some? then Lower(t.merchantName.value) else "")
  }

  /** A category rule: the keywords looked for in each field. */
  datatype Rule = Rule(assigns: Category, inCategory: seq<string>, inName: seq<string>, inMerchant: seq<string>)

  predicate AnyIn(s: string, words: seq<string>) {
    exists w :: w in words && Contains(s, w)
  }

  predicate Matches(rule: Rule, f: Fields) {
    AnyIn(f.category, rule.inCategory) || AnyIn(f.name, rule.inName) || AnyIn(f.merchant, rule.inMerchant)
  }

  const RentRule := Rule(Rent, ["rent", "mortgage"], ["rent", "apartment", "housing"], [])
  const FoodRule := Rule(Food, ["food", "restaurant", "grocery"], ["restaurant", "food", "grocery"], ["restaurant"])
  const VicesRule := Rule(Vices, [], ["starbucks", "coffee", "cafe", "bar", "liquor", "brewery", "matcha"], ["coffee", "starbucks"])
  const VibesRule := Rule(Vibes, ["entertainment", "recreation", "shops"], ["netflix", "spotify", "uber", "lyft", "cinema", "movie"], [])

  /** The rules in priority order; `other` is the fallback. */
  const Rules: seq<Rule> := [RentRule, FoodRule, VicesRule, VibesRule]

  /** The label of the first rule that matches, `Other` if none does. */
  function FirstMatch(rules: seq<Rule>, f: Fields): (c: Category)
    ensures c == Other || exists k :: 0 <= k < |rules| && Matches(rules[k], f) && rules[k].assigns == c
  {
    if rules == [] then Other
    else if Matches(rules[0], f) then rules[0].assigns
    else FirstMatch(rules[1..], f)
  }

  /** First match wins: the rule at `k` decides when it matches and no
      earlier rule does. */
  lemma {:induction false} FirstMatchAt(rules: seq<Rule>, f: Fields, k: nat)
    requires k < |rules| && Matches(rules[k], f)
    requires forall j :: 0 <= j < k ==> !Matches(rules[j], f)
    ensures FirstMatch(rules, f) == rules[k].assigns
  {
    if k > 0 {
      FirstMatchAt(rules[1..], f, k - 1);
    }
  }

  lemma {:induction false} FirstMatchNone(rules: seq<Rule>, f: Fields)
    requires forall j :: 0 <= j < |rules| ==> !Matches(rules[j], f)
    ensures FirstMatch(rules, f) == Other
  {
    if rules != [] {
      FirstMatchNone(rules[1..], f);
    }
  }

  /** The priority the table gives: rent, food, vices and vibes in that
      order, and other when no rule matches. */
  lemma RulesPriority(f: Fields)
    ensures FirstMatch(Rules, f) == Rent <==> Matches(RentRule, f)
    ensures FirstMatch(Rules, f) == Food <==> !Matches(RentRule, f) && Matches(FoodRule, f)
    ensures FirstMatch(Rules, f) == Vices
      <==> !Matches(RentRule, f) && !Matches(FoodRule, f) && Matches(VicesRule, f)
    ensures FirstMatch(Rules, f) == Vibes
      <==> !Matches(RentRule, f) && !Matches(FoodRule, f) && !Matches(VicesRule, f) && Matches(VibesRule, f)
  {
    if Matches(RentRule, f) {
      FirstMatchAt(Rules, f, 0);
    } else if Matches(FoodRule, f) {
      FirstMatchAt(Rules, f, 1);
    } else if Matches(VicesRule, f) {
      FirstMatchAt(Rules, f, 2);
    } else if Matches(VibesRule, f) {
      FirstMatchAt(Rules, f, 3);
    } else {
      FirstMatchNone(Rules, f);
    }
  }

  // ---------------------------------------------------------------------
  // Insight thresholds.

  /** The order in which insights are emitted. */
  const InsightOrder: seq<Category> := [Vices, Food, Vibes, Rent]

  /** The percentage a bucket must strictly exceed to raise its insight. */
  function Threshold(c: Category): real
    requires c != Other
  {
    match c
    case Vices => 15.0
    case Food => 25.0
    case Vibes => 20.0
    case Rent => 35.0
  }

  /** The categories, among `order`, whose percentage is above threshold. */
  function FlaggedAmong(order: seq<Category>, cats: Categories): (r: seq<Category>)
    requires Other !in order
    ensures |r| <= |order|
    ensures forall c :: c in r ==> c in order
  {
    if order == [] then []
    else
      (if Above(cats.Get(order[0]).percentage, Threshold(order[0])) then [order[0]] else [])
      + FlaggedAmong(order[1..], cats)
  }

  /** The categories whose insight is raised, in emission order. */
  function Flagged(cats: Categories): seq<Category> {
    FlaggedAmong(InsightOrder, cats)
  }

  /** A category is flagged exactly when it is among those checked and its
      percentage is strictly above its threshold (a NaN percentage is never
      flagged). */
  lemma {:induction false} FlaggedAmongIff(order: seq<Category>, cats: Categories, c: Category)
    requires Other !in order
    ensures c in FlaggedAmong(order, cats) <==> c in order && Above(cats.Get(c).percentage, Threshold(c))
  {
    if order != [] {
      FlaggedAmongIff(order[1..], cats, c);
      assert order == [order[0]] + order[1..];
    }
  }

  lemma FlaggedIff(cats: Categories, c: Category)
    requires c != Other
    ensures c in Flagged(cats) <==> Above(cats.Get(c).percentage, Threshold(c))
  {
    FlaggedAmongIff(InsightOrder, cats, c);
  }

  /** `[c]` when `c` is above its threshold, else nothing. */
  function Flag(cats: Categories, c: Category): seq<Category>
    requires c != Other
  {
    if Above(cats.Get(c).percentage, Threshold(c)) then [c] else []
  }

  lemma FlaggedAmongCons(order: seq<Category>, cats: Categories)
    requires order != [] && Other !in order
    ensures FlaggedAmong(order, cats) == Flag(cats, order[0]) + FlaggedAmong(order[1..], cats)
  {
  }

  /** `Flagged`, written out as the four checks in emission order. */
  lemma FlaggedUnfold(cats: Categories)
    ensures Flagged(cats) == Flag(cats, Vices) + Flag(cats, Food) + Flag(cats, Vibes) + Flag(cats, Rent)
  {
    var o3: seq<Category> := [Rent];
    var o2: seq<Category> := [Vibes, Rent];
    var o1: seq<Category> := [Food, Vibes, Rent];
    assert o3[1..] == [] && o2[1..] == o3 && o1[1..] == o2 && InsightOrder[1..] == o1;
    FlaggedAmongCons(o3, cats);
    FlaggedAmongCons(o2, cats);
    FlaggedAmongCons(o1, cats);
    FlaggedAmongCons(InsightOrder, cats);
    assert Flag(cats, Rent) + [] == Flag(cats, Rent);
  }

  /** An insight; the message template's parameters, not its text. */
  datatype Insight =
    | VicesInsight(percentage: Number, matchas: int)
    | FoodInsight(percentage: Number)
    | VibesInsight(percentage: Number)
    | RentInsight(percentage: Number)
  {
    function About(): (c: Category)
      ensures c != Other
    {
      match this
      case VicesInsight(_, _) => Vices
      case FoodInsight(_) => Food
      case VibesInsight(_) => Vibes
      case RentInsight(_) => Rent
    }
  }

  function Topics(insights: seq<Insight>): (r: seq<Category>)
    ensures |r| == |insights|
    ensures forall i :: 0 <= i < |r| ==> r[i] == insights[i].About()
  {
    seq(|insights|, i requires 0 <= i < |insights| => insights[i].About())
  }

  /** The insight a flagged category raises. */
  function InsightFor(c: Category, cats: Categories, matchas: int): (r: Insight)
    requires c != Other
    ensures r.About() == c && r.percentage == cats.Get(c).percentage
  {
    match c
    case Vices => VicesInsight(cats.vices.percentage, matchas)
    case Food => FoodInsight(cats.food.percentage)
    case Vibes => VibesInsight(cats.vibes.percentage)
    case Rent => RentInsight(cats.rent.percentage)
  }

  /** The insights raised by `cats`, in emission order. */
  function Insights(cats: Categories, matchas: int): (r: seq<Insight>)
    ensures Topics(r) == Flagged(cats)
  {
    var f := Flagged(cats);
    assert Other !in f;
    var r := seq(|f|, i requires 0 <= i < |f| => InsightFor(f[i], cats, matchas));
    assert Topics(r) == f;
    r
  }

  /** A percentage exactly at its threshold raises nothing; the flags are
      strict. */
  lemma FlaggedStrict(cats: Categories, c: Category)
    requires c in InsightOrder
    requires cats.Get(c).percentage == Num(Threshold(c))
    ensures c !in Flagged(cats)
  {
    FlaggedIff(cats, c);
  }

  /** The summary line chosen after the insights. */
  const AttentionMessage := "Looking at your last 3 months, here's what caught our attention:"
  const DoingWellMessage := "You're doing pretty well with your spending! Here are some ways to optimize further:"
}
