# N400 Naturalization Helper — budget engine and practice tests in Dafny

This project models the two parts of the N400 Naturalization Helper that hold real logic, and proves properties of them.

## The budget roast

The budget side takes a list of bank transactions and does four things:
- it sorts every expense into one of five buckets: rent, food, vices, vibes and other;
- it adds up the buckets and turns each one into a percentage of spending;
- it works out an overdraft risk and a "matchas until overdraft" count;
- it raises an insight for each bucket above its threshold.

The repository has three copies of this engine, and the model keeps all three:
- the client's banking service, `src/services/plaidService.ts`. It classifies a transaction when it fetches it, stores the label in `subcategory`, and later files by that label.
- the Express back end, `server/plaidServer.js`. It classifies while it aggregates.
- the demonstration service, `src/services/mockBankingData.ts`. Here money leaving the account is negative, and neither the percentages nor the risk are guarded against a month with no spending.

All three file the expenses through one loop, `Bank.FileAll`, which is proved against the specification predicate `Bank.Filed`. From that, the model proves the following:
- the five buckets partition the expenses, as multisets;
- the bucket amounts add up to the total spent;
- the percentages add up to 100 when anything was spent.

The client's classifier is proved equal to a first-match walk over a rule table (`Bank.Rules`). The server's copy is proved equal to the client's.

The keyword tests read only the first provider label and the lower-cased name and merchant. A missing field counts as the empty string.

The two dashboards are modelled as pure functions over an analysis:
- `src/components/ModernBudgetAnalyzer.tsx`: risk bands, insight cards, goal tips and the summer goal planner.
- `src/components/BudgetAnalyzer.tsx`: risk colours, bar chart and the Miami-trip verdict.

Risk values and percentages are JavaScript numbers, and in the demonstration path they can be NaN. `Basics.Number` models this: every comparison with NaN is false, so a NaN percentage never raises an insight and a NaN risk reads as LOW.

## The practice tests

Four React components are modelled as classes whose methods update the component's state in one atomic step:
- the civics test (`CivicsTest.tsx`);
- the English test (`EnglishTest.tsx`);
- the speaking test (`SpeakingTest.tsx`);
- the interview simulator (`InterviewSimulator.tsx`).

Each class keeps an invariant `Valid()`:
- the index stays inside the current list;
- no item is recorded as done twice;
- the score counts distinct credited items, so it never exceeds the number of items answered.

The scoring rules are pure functions, each paired with lemmas:
- case-insensitive substring matching;
- trimming;
- the speaking accuracy and its feedback bands;
- the interview rating and the weighted interview score.

Where the code and the general description of the engine disagree, the model follows the code:
- The demonstration path divides by the total spent without a guard. A month with no spending therefore gives NaN percentages, not 0 (`MockBanking.UnguardedShare`).
- In that path, the risk with no spending is 0, 100 or NaN depending on the sign of the balance (`MockBanking.MockRisk`).
- The client service files by the label stored at fetch time, not by classifying again.

Three things the model brings out:
- The provider paths take the magnitude of the balance for both the risk and the matcha count, so an overdrawn balance counts like a positive one.
- The civics categories "integrated-civics" and "symbols" have no questions in the bank. Choosing either leaves the test on its loading screen (`CivicsTest.Quiz.CurrentQuestion` is `None` exactly when the filtered list is empty).
- The interview cards promise 15 and 23 questions, and the requested counts do add up to that. The component's own bank, however, has five civics and two english questions, so a session is 14 questions long in the standard mode and 17 in the challenging one (`InterviewSimulator.InterviewBankSessions`).

## Model

Source paths are relative to the repository root `N400-Naturalization-Helper/n400-naturalization-helper/`, abbreviated below only in prose. The table gives them in full.

| member | source | states |
|---|---|---|
| `Basics.Clamp` | N400-Naturalization-Helper/n400-naturalization-helper/src/services/plaidService.ts:321 | `Math.max(0, Math.min(100, x))` lies in [0, 100], is x inside that range, and 0 below it or 100 above it |
| `Basics.Round` | N400-Naturalization-Helper/n400-naturalization-helper/src/components/InterviewSimulator.tsx:238 | `Math.round` gives the integer within one half of x, with halves rounded up |
| `Basics.Keep` | N400-Naturalization-Helper/n400-naturalization-helper/src/services/plaidService.ts:278 | `filter` keeps only elements that pass the test and never grows the list |
| `Basics.KeepMembers` | N400-Naturalization-Helper/n400-naturalization-helper/src/components/CivicsTest.tsx:194 | `filter` keeps exactly the elements that pass the test |
| `Basics.KeepAppend` | N400-Naturalization-Helper/n400-naturalization-helper/src/components/InterviewSimulator.tsx:176-180 | filtering a concatenation is the concatenation of the filtered parts, so order is kept |
| `Basics.SumNonNegative` | N400-Naturalization-Helper/n400-naturalization-helper/src/services/plaidService.ts:279-280 | a `reduce` sum of non-negative terms is non-negative, and is zero exactly when every term is |
| `Text.LowerChar` | N400-Naturalization-Helper/n400-naturalization-helper/src/components/CivicsTest.tsx:203-204 | `toLowerCase` on one character: a capital letter becomes the letter 32 code points on, a small letter; any other character is kept |
| `Text.LowerIdempotent` | N400-Naturalization-Helper/n400-naturalization-helper/src/components/CivicsTest.tsx:203-204 | no capital letter is left after `toLowerCase`, so lower-casing twice is lower-casing once |
| `Text.ContainsAt` | N400-Naturalization-Helper/n400-naturalization-helper/src/components/CivicsTest.tsx:204 | `includes` holds whenever the part occurs at some offset |
| `Text.ContainsOffset` | N400-Naturalization-Helper/n400-naturalization-helper/src/components/CivicsTest.tsx:204 | conversely, when `includes` holds, the part occurs at some offset |
| `Text.ContainsExtend` | N400-Naturalization-Helper/n400-naturalization-helper/src/components/InterviewSimulator.tsx:206-208 | a part found in a string is still found once text is added on either side |
| `Text.Trim` | N400-Naturalization-Helper/n400-naturalization-helper/src/components/EnglishTest.tsx:148 | `trim` leaves no white space at either end |
| `Text.TrimIsSlice` | N400-Naturalization-Helper/n400-naturalization-helper/src/components/EnglishTest.tsx:148 | `trim` removes only white space: the result is a slice with nothing but white space around it |
| `Text.TrimPadded` | N400-Naturalization-Helper/n400-naturalization-helper/src/components/InterviewSimulator.tsx:210-212 | padding a string with spaces does not change its trimmed form |
| `Text.Split` | N400-Naturalization-Helper/n400-naturalization-helper/src/components/SpeakingTest.tsx:150-151 | `split(' ')` yields at least one piece, and no piece contains the separator |
| `Text.JoinSplit` | N400-Naturalization-Helper/n400-naturalization-helper/src/components/SpeakingTest.tsx:150-151 | joining the pieces of a split gives the string back |
| `Bank.KeyOf` | N400-Naturalization-Helper/n400-naturalization-helper/src/services/plaidService.ts:293-310 | the `subcategory` chain names a bucket other than `other` only for that bucket's own key |
| `Bank.KeyOfName` | N400-Naturalization-Helper/n400-naturalization-helper/src/services/plaidService.ts:293-310 | every bucket's key is filed back into that bucket |
| `Bank.FieldsOf` | N400-Naturalization-Helper/n400-naturalization-helper/src/services/plaidService.ts:61-63 | only the first provider label is read; a missing name, merchant or label reads as the empty string; every field the rules see is lower-cased |
| `Bank.CurrentBalance` | N400-Naturalization-Helper/n400-naturalization-helper/src/services/plaidService.ts:319 | `accounts[0]?.balances.current \|\| 0` is 0 without accounts or without a current balance |
| `Bank.Select` | N400-Naturalization-Helper/n400-naturalization-helper/src/services/plaidService.ts:291-311 | a bucket holds only elements whose key names it and is never longer than the input (the order is stated by `Bank.SelectAppend` and `Bank.SelectStep`) |
| `Bank.SelectAppend` | N400-Naturalization-Helper/n400-naturalization-helper/src/services/plaidService.ts:291-311 | bucketing a concatenation gives the buckets of each part in turn, so arrival order is kept |
| `Bank.SelectStep` | N400-Naturalization-Helper/n400-naturalization-helper/server/plaidServer.js:229-246 | filing one more element appends it to its own bucket only, and adds its amount to that bucket's sum |
| `Bank.SelectPartition` | N400-Naturalization-Helper/n400-naturalization-helper/src/services/plaidService.ts:291-311 | the five buckets together hold exactly the filed elements, each as often as it occurs |
| `Bank.SelectPartitionSum` | N400-Naturalization-Helper/n400-naturalization-helper/src/services/plaidService.ts:291-311 | the bucket sums add up to the sum over all filed elements |
| `Bank.FileAll` | N400-Naturalization-Helper/n400-naturalization-helper/server/plaidServer.js:229-246 | the `forEach` adds each expense's amount to, and pushes its record onto, the bucket its key names (`Filed`), with every percentage still 0 |
| `Bank.SetPercentages` | N400-Naturalization-Helper/n400-naturalization-helper/src/services/plaidService.ts:314-317 | the percentage pass sets each bucket's percentage from its amount and changes nothing else |
| `Bank.FiledTotal` | N400-Naturalization-Helper/n400-naturalization-helper/src/services/plaidService.ts:280-311 | filing loses nothing and counts nothing twice: the bucket amounts add up to the total |
| `Bank.FiledPartition` | N400-Naturalization-Helper/n400-naturalization-helper/src/services/plaidService.ts:291-311 | the buckets' transaction lists are, as multisets, exactly the expenses |
| `Bank.SharesSum` | N400-Naturalization-Helper/n400-naturalization-helper/src/services/plaidService.ts:314-317 | with spending, the guarded percentages add up to 100; without it, all are 0 |
| `Bank.PieData` | N400-Naturalization-Helper/n400-naturalization-helper/src/components/ModernBudgetAnalyzer.tsx:206-212 | a slice is shown exactly for the buckets with a positive amount, in the order rent, food, vices, vibes, other |
| `Bank.GuardedRisk` | N400-Naturalization-Helper/n400-naturalization-helper/src/services/plaidService.ts:321 | the guarded overdraft risk always lies in [0, 100] |
| `Bank.Matchas` | N400-Naturalization-Helper/n400-naturalization-helper/src/services/plaidService.ts:322 | the matcha count is the number of whole $7.50 lattes that the balance's magnitude covers |
| `Bank.RecordsSelect` | N400-Naturalization-Helper/n400-naturalization-helper/src/services/plaidService.ts:235-245 | bucketing records by a label that reads back the original key is the same as bucketing the originals |
| `Bank.FirstMatchAt` | N400-Naturalization-Helper/n400-naturalization-helper/src/services/plaidService.ts:60-112 | the first matching rule decides the category |
| `Bank.FirstMatchNone` | N400-Naturalization-Helper/n400-naturalization-helper/src/services/plaidService.ts:111 | when no rule matches, the category is `other` |
| `Bank.FirstMatch` | N400-Naturalization-Helper/n400-naturalization-helper/src/services/plaidService.ts:60-112 | the category chosen is `other` or the label of a rule that matches |
| `Bank.RulesPriority` | N400-Naturalization-Helper/n400-naturalization-helper/src/services/plaidService.ts:60-112 | each category is chosen exactly when its rule matches and no earlier rule does (rent, food, vices, vibes) |
| `Bank.FlaggedAmong` | N400-Naturalization-Helper/n400-naturalization-helper/server/plaidServer.js:259-271 | the flagged categories are among those checked and no more numerous |
| `Bank.FlaggedAmongIff` | N400-Naturalization-Helper/n400-naturalization-helper/server/plaidServer.js:259-271 | a category is flagged exactly when it is checked and its percentage is strictly above its threshold |
| `Bank.FlaggedIff` | N400-Naturalization-Helper/n400-naturalization-helper/server/plaidServer.js:259-271 | vices > 15, food > 25, vibes > 20, rent > 35 each raise their insight; NaN raises none |
| `Bank.FlaggedUnfold` | N400-Naturalization-Helper/n400-naturalization-helper/server/plaidServer.js:259-271 | the insights are emitted in the order vices, food, vibes, rent |
| `Bank.FlaggedStrict` | N400-Naturalization-Helper/n400-naturalization-helper/server/plaidServer.js:260 | a percentage exactly at its threshold raises nothing |
| `Bank.InsightFor` | N400-Naturalization-Helper/n400-naturalization-helper/server/plaidServer.js:260-270 | an insight is about its category and carries that bucket's percentage |
| `Bank.Insights` | N400-Naturalization-Helper/n400-naturalization-helper/server/plaidServer.js:259-271 | the insights raised are exactly the flagged categories, in emission order |
| `PlaidService.Categorize` | N400-Naturalization-Helper/n400-naturalization-helper/src/services/plaidService.ts:60-112 | the keyword chain equals the first match over the rule table |
| `PlaidService.RentRuleIs` | N400-Naturalization-Helper/n400-naturalization-helper/src/services/plaidService.ts:66-72 | the rent rule tests exactly the keywords of the rent branch |
| `PlaidService.FoodRuleIs` | N400-Naturalization-Helper/n400-naturalization-helper/src/services/plaidService.ts:75-83 | the food rule tests exactly the keywords of the food branch |
| `PlaidService.VicesRuleIs` | N400-Naturalization-Helper/n400-naturalization-helper/src/services/plaidService.ts:86-96 | the vices rule tests exactly the keywords of the vices branch |
| `PlaidService.VibesRuleIs` | N400-Naturalization-Helper/n400-naturalization-helper/src/services/plaidService.ts:99-109 | the vibes rule tests exactly the keywords of the vibes branch |
| `PlaidService.ToTransaction` | N400-Naturalization-Helper/n400-naturalization-helper/src/services/plaidService.ts:235-245 | a fetched transaction keeps the provider's fields, drops an empty merchant name, and carries the classifier's label as `subcategory` |
| `PlaidService.Expenses` | N400-Naturalization-Helper/n400-naturalization-helper/src/services/plaidService.ts:278 | the expenses are exactly the transactions with a positive amount (as a set), and never more of them than there are transactions |
| `PlaidService.ExpensesInOrder` | N400-Naturalization-Helper/n400-naturalization-helper/src/services/plaidService.ts:278 | `filter` keeps each positive-amount transaction, every occurrence, in arrival order: none from an empty list, one exactly when it is an expense, and a concatenation filters part by part |
| `PlaidService.Income` | N400-Naturalization-Helper/n400-naturalization-helper/src/services/plaidService.ts:279 | income, the summed magnitudes of the negative amounts, is never negative |
| `PlaidService.TotalSpent` | N400-Naturalization-Helper/n400-naturalization-helper/src/services/plaidService.ts:280 | spending, the sum of the positive amounts, is never negative |
| `PlaidService.FlowsNonNegative` | N400-Naturalization-Helper/n400-naturalization-helper/src/services/plaidService.ts:278-280 | income and spending are never negative; spending is zero exactly when there are no expenses |
| `PlaidService.SavingsIsNetFlow` | N400-Naturalization-Helper/n400-naturalization-helper/src/services/plaidService.ts:320 | savings, income minus spending, is minus the sum of all amounts |
| `PlaidService.ZeroAmountIgnored` | N400-Naturalization-Helper/n400-naturalization-helper/src/services/plaidService.ts:278-279 | a zero-amount transaction is neither expense nor income |
| `PlaidService.FetchedBuckets` | N400-Naturalization-Helper/n400-naturalization-helper/src/services/plaidService.ts:291-311 | everything in a bucket of fetched data is a positive-amount transaction that the classifier put there |
| `PlaidService.SassyMessage` | N400-Naturalization-Helper/n400-naturalization-helper/src/services/plaidService.ts:114-157 | "unable" exactly without categories; the emergency line exactly above 80% risk; otherwise a bank quip exactly when the lower-cased bank is chase, bank of america or apple and the coin is above one half, else a general quip, the quip picked by `Math.floor(draw * count)` out of 2 or 8 |
| `PlaidService.EmergencyDeterministic` | N400-Naturalization-Helper/n400-naturalization-helper/src/services/plaidService.ts:145-147 | above 80% risk the emergency line is returned whatever the random draws |
| `PlaidService.AnalyzeBudget` | N400-Naturalization-Helper/n400-naturalization-helper/src/services/plaidService.ts:270-337 | the analysis files the positive amounts by stored label into a partition of the expenses, with guarded percentages summing to 100, savings as the net flow, risk in [0, 100], the matcha count, and the sassy line |
| `PlaidServer.Categorize` | N400-Naturalization-Helper/n400-naturalization-helper/server/plaidServer.js:27-79 | the server's classifier always agrees with the client's |
| `PlaidServer.Stamp` | N400-Naturalization-Helper/n400-naturalization-helper/server/plaidServer.js:235-244 | the pushed record keeps the provider's fields and carries the label as `subcategory` |
| `PlaidServer.Expenses` | N400-Naturalization-Helper/n400-naturalization-helper/server/plaidServer.js:216 | the expenses are exactly the provider transactions with a positive amount (as a set), and never more of them than there are transactions |
| `PlaidServer.ExpensesInOrder` | N400-Naturalization-Helper/n400-naturalization-helper/server/plaidServer.js:216 | `filter` keeps each positive-amount transaction, every occurrence, in arrival order: none from an empty list, one exactly when it is an expense, and a concatenation filters part by part |
| `PlaidServer.Income` | N400-Naturalization-Helper/n400-naturalization-helper/server/plaidServer.js:217 | income is never negative |
| `PlaidServer.TotalSpent` | N400-Naturalization-Helper/n400-naturalization-helper/server/plaidServer.js:218 | spending is never negative |
| `PlaidServer.CollectInsights` | N400-Naturalization-Helper/n400-naturalization-helper/server/plaidServer.js:258-271 | the four checks push exactly the flagged insights, in order, each with its bucket's percentage |
| `PlaidServer.AnalyzeBudget` | N400-Naturalization-Helper/n400-naturalization-helper/server/plaidServer.js:212-287 | the response files classified expenses with stamped records, guarded percentages summing to 100, risk and matcha count, exactly the flagged insights in order, each carrying its bucket's percentage (and, for vices, the matcha count), and the attention line exactly when there are insights |
| `PlaidServer.FetchAppend` | N400-Naturalization-Helper/n400-naturalization-helper/src/services/plaidService.ts:235-245 | fetching a concatenation concatenates the fetched parts |
| `PlaidServer.RecordsExpenses` | N400-Naturalization-Helper/n400-naturalization-helper/src/services/plaidService.ts:235-245 | taking the expenses commutes with any record map that keeps the amount, as the fetch mapping does |
| `PlaidServer.FetchExpenses` | N400-Naturalization-Helper/n400-naturalization-helper/server/plaidServer.js:216 | taking the expenses commutes with fetching |
| `PlaidServer.FetchIsRecords` | N400-Naturalization-Helper/n400-naturalization-helper/src/services/plaidService.ts:235-245 | fetching is mapping each transaction to its record |
| `PlaidServer.FetchSelect` | N400-Naturalization-Helper/n400-naturalization-helper/server/plaidServer.js:229-246 | bucketing by the stored label commutes with fetching |
| `PlaidServer.FetchSum` | N400-Naturalization-Helper/n400-naturalization-helper/server/plaidServer.js:218 | fetching keeps the sum of the amounts |
| `PlaidServer.ServerAgreesWithClient` | N400-Naturalization-Helper/n400-naturalization-helper/server/plaidServer.js:216-246 | on the same provider data, client and server compute the same total and the same amount in every bucket |
| `MockBanking.SumOfNegatives` | N400-Naturalization-Helper/n400-naturalization-helper/src/services/mockBankingData.ts:212 | over negative amounts, the magnitude of the sum is the sum of the magnitudes, and it is positive when there are any |
| `MockBanking.TotalSpentIsMagnitudes` | N400-Naturalization-Helper/n400-naturalization-helper/src/services/mockBankingData.ts:210-224 | `Math.abs` of the summed expenses equals what the `forEach` adds to the buckets, and is zero exactly without expenses |
| `MockBanking.UnguardedShare` | N400-Naturalization-Helper/n400-naturalization-helper/src/services/mockBankingData.ts:246-249 | the unguarded percentage is NaN exactly when nothing was spent, and otherwise equals the guarded one |
| `MockBanking.MockRisk` | N400-Naturalization-Helper/n400-naturalization-helper/src/services/mockBankingData.ts:253 | the unguarded risk lies in [0, 100] unless NaN; it is NaN exactly with no spending and a zero balance, and 100 for an overdrawn balance |
| `MockBanking.MockRiskAgrees` | N400-Naturalization-Helper/n400-naturalization-helper/src/services/mockBankingData.ts:253 | for a balance that is not negative and some spending, the mock risk equals the provider paths' guarded risk |
| `MockBanking.SignedMatchas` | N400-Naturalization-Helper/n400-naturalization-helper/src/services/mockBankingData.ts:254 | `Math.floor(balance / 7.50)` is negative exactly for an overdrawn balance, and otherwise equals the provider paths' count |
| `MockBanking.Expenses` | N400-Naturalization-Helper/n400-naturalization-helper/src/services/mockBankingData.ts:210 | the expenses are exactly the transactions with a negative amount (as a set), and never more of them than there are transactions |
| `MockBanking.ExpensesInOrder` | N400-Naturalization-Helper/n400-naturalization-helper/src/services/mockBankingData.ts:210 | `filter` keeps each negative-amount transaction, every occurrence, in arrival order: none from an empty list, one exactly when it is an expense, and a concatenation filters part by part |
| `MockBanking.Income` | N400-Naturalization-Helper/n400-naturalization-helper/src/services/mockBankingData.ts:211 | income, the sum of the positive amounts, is never negative |
| `MockBanking.TotalSpent` | N400-Naturalization-Helper/n400-naturalization-helper/src/services/mockBankingData.ts:212 | `Math.abs` of the summed negative amounts is the sum of their magnitudes, never negative |
| `MockBanking.TipsForAppend` | N400-Naturalization-Helper/n400-naturalization-helper/src/services/mockBankingData.ts:150-171 | a new insight adds exactly its own tip at the end |
| `MockBanking.TipForDistinct` | N400-Naturalization-Helper/n400-naturalization-helper/src/services/mockBankingData.ts:150-171 | each flagged category pushes its own tip: two categories never share one |
| `MockBanking.CollectInsights` | N400-Naturalization-Helper/n400-naturalization-helper/src/services/mockBankingData.ts:146-171 | insights and tips are pushed in step: exactly the flagged categories, in order, each with its tip |
| `MockBanking.PersonalizedInsights` | N400-Naturalization-Helper/n400-naturalization-helper/src/services/mockBankingData.ts:137-178 | without categories, the fixed message and no lists; otherwise the flagged insights with their tips, and the attention line exactly when any were raised |
| `MockBanking.AnalyzeBudget` | N400-Naturalization-Helper/n400-naturalization-helper/src/services/mockBankingData.ts:206-270 | the negative amounts are filed by magnitude into a partition of the expenses; percentages sum to 100 with spending and are all NaN without it, with unguarded risk, signed matcha count, and the summary line |
| `MockBanking.NothingFlagged` | N400-Naturalization-Helper/n400-naturalization-helper/src/services/mockBankingData.ts:150-171 | NaN percentages raise no insight |
| `ModernBudgetAnalyzer.RiskLevelOf` | N400-Naturalization-Helper/n400-naturalization-helper/src/components/ModernBudgetAnalyzer.tsx:222-227 | CRITICAL above 80, HIGH above 60, MEDIUM above 40, LOW otherwise (NaN included), each an if-and-only-if |
| `ModernBudgetAnalyzer.RiskLevelMonotone` | N400-Naturalization-Helper/n400-naturalization-helper/src/components/ModernBudgetAnalyzer.tsx:222-227 | the band never falls as the risk rises |
| `ModernBudgetAnalyzer.KeyInsightCards` | N400-Naturalization-Helper/n400-naturalization-helper/src/components/ModernBudgetAnalyzer.tsx:493-516 | the cards shown are exactly the services' flagged insights, in the same order |
| `ModernBudgetAnalyzer.TravelMonthly` | N400-Naturalization-Helper/n400-naturalization-helper/src/components/ModernBudgetAnalyzer.tsx:539 | the travel set-aside is at least 50, and is the rounded tenth of spending whenever that exceeds 50 |
| `ModernBudgetAnalyzer.Tips` | N400-Naturalization-Helper/n400-naturalization-helper/src/components/ModernBudgetAnalyzer.tsx:522-548 | each goal tip is shown exactly under its goal and percentage conditions, each at most once, in display order (savings, dining, travel, coffee) |
| `ModernBudgetAnalyzer.CoffeeTipWithVicesCard` | N400-Naturalization-Helper/n400-naturalization-helper/src/components/ModernBudgetAnalyzer.tsx:493-548 | the coffee tip is shown exactly when the vices card is |
| `ModernBudgetAnalyzer.GoalFactor` | N400-Naturalization-Helper/n400-naturalization-helper/src/components/ModernBudgetAnalyzer.tsx:559-566 | the six known goals have a share between 0 and 20%; any other goal has none |
| `ModernBudgetAnalyzer.GoalCardFor` | N400-Naturalization-Helper/n400-naturalization-helper/src/components/ModernBudgetAnalyzer.tsx:558-570 | an unknown goal renders nothing; a known goal's budget is the rounded share of spending, achievable exactly when savings cover it |
| `ModernBudgetAnalyzer.GoalPlanner` | N400-Naturalization-Helper/n400-naturalization-helper/src/components/ModernBudgetAnalyzer.tsx:558-572 | one card per chosen goal, in the order chosen; a card exactly for the known goals, each for its own goal; with spending not negative, savings that cover the savings goal make every card achievable |
| `ModernBudgetAnalyzer.SavingsGoalMostDemanding` | N400-Naturalization-Helper/n400-naturalization-helper/src/components/ModernBudgetAnalyzer.tsx:560-570 | savings that cover the savings goal cover every goal |
| `ModernBudgetAnalyzer.AffordableStaysAffordable` | N400-Naturalization-Helper/n400-naturalization-helper/src/components/ModernBudgetAnalyzer.tsx:570 | more savings never make a goal unaffordable |
| `BudgetAnalyzer.RiskColor` | N400-Naturalization-Helper/n400-naturalization-helper/src/components/BudgetAnalyzer.tsx:108-113 | the classic colour follows the same bands as the modern dashboard |
| `BudgetAnalyzer.RiskBg` | N400-Naturalization-Helper/n400-naturalization-helper/src/components/BudgetAnalyzer.tsx:115-120 | the classic background follows the same bands |
| `BudgetAnalyzer.RiskStylesAgree` | N400-Naturalization-Helper/n400-naturalization-helper/src/components/BudgetAnalyzer.tsx:108-120 | two risks share a colour exactly when they share a background, and exactly when they fall in the same band |
| `BudgetAnalyzer.ColorsDistinct` | N400-Naturalization-Helper/n400-naturalization-helper/src/components/BudgetAnalyzer.tsx:108-120 | different bands have different colours and backgrounds |
| `BudgetAnalyzer.BarData` | N400-Naturalization-Helper/n400-naturalization-helper/src/components/BudgetAnalyzer.tsx:95-99 | the bars are the pie slices one for one, in order, all positive |
| `BudgetAnalyzer.Ticks` | N400-Naturalization-Helper/n400-naturalization-helper/src/components/BudgetAnalyzer.tsx:270-280 | the lines are ticked from the flight up: at least one exactly when the flight is affordable, at least two exactly when the hotel is, all three exactly when the full trip is |
| `BudgetAnalyzer.VerdictOf` | N400-Naturalization-Helper/n400-naturalization-helper/src/components/BudgetAnalyzer.tsx:286-289 | each verdict is chosen exactly on its savings band: 1500, 1000, 400 |
| `BudgetAnalyzer.VerdictMatchesLines` | N400-Naturalization-Helper/n400-naturalization-helper/src/components/BudgetAnalyzer.tsx:270-289 | the verdict is always the one matching the number of ticked lines |
| `CivicsTest.Filter` | N400-Naturalization-Helper/n400-naturalization-helper/src/components/CivicsTest.tsx:192-194 | "all" gives the whole bank; any other category gives exactly its questions |
| `CivicsTest.Correct` | N400-Naturalization-Helper/n400-naturalization-helper/src/components/CivicsTest.tsx:203-204 | the equality test is subsumed: an answer is correct exactly when its lower-cased form occurs in the lower-cased key, so a correct answer is never longer than the key |
| `CivicsTest.FragmentAccepted` | N400-Naturalization-Helper/n400-naturalization-helper/src/components/CivicsTest.tsx:203-204 | any single letter of the key is scored as correct |
| `Basics.CreditedWithin` | N400-Naturalization-Helper/n400-naturalization-helper/src/components/CivicsTest.tsx:394 | a score counting distinct credited ids of the answered record never exceeds the number answered (the civics, English and speaking tests keep their scores this way) |
| `CivicsTest.Quiz.constructor` | N400-Naturalization-Helper/n400-naturalization-helper/src/components/CivicsTest.tsx:15-20 | the initial state: category "all", index 0, nothing answered |
| `CivicsTest.Quiz.CurrentQuestion` | N400-Naturalization-Helper/n400-naturalization-helper/src/components/CivicsTest.tsx:238-242 | there is a current question exactly when the filtered list is not empty |
| `CivicsTest.Quiz.AccuracyPercent` | N400-Naturalization-Helper/n400-naturalization-helper/src/components/CivicsTest.tsx:394 | the accuracy line lies in [0, 100] |
| `CivicsTest.Quiz.HandleAnswer` | N400-Naturalization-Helper/n400-naturalization-helper/src/components/CivicsTest.tsx:196-208 | the first answer to a question records its id and scores it once; a repeat changes neither |
| `CivicsTest.Quiz.Next` | N400-Naturalization-Helper/n400-naturalization-helper/src/components/CivicsTest.tsx:210-216 | move forward and clear the selection, except on the last question |
| `CivicsTest.Quiz.Previous` | N400-Naturalization-Helper/n400-naturalization-helper/src/components/CivicsTest.tsx:218-224 | move back and clear the selection, except on the first question |
| `CivicsTest.Quiz.Reset` | N400-Naturalization-Helper/n400-naturalization-helper/src/components/CivicsTest.tsx:226-232 | back to the first question with score and answers cleared |
| `CivicsTest.Quiz.SetCategoryAsWritten` | N400-Naturalization-Helper/n400-naturalization-helper/src/components/CivicsTest.tsx:272 | the category button only sets the category; the index is unchanged |
| `CivicsTest.Quiz.SelectCategory` | N400-Naturalization-Helper/n400-naturalization-helper/src/components/CivicsTest.tsx:234-236 | a category switch with its reset leaves a valid state at index 0 |
| `CivicsTest.StaleIndexAfterSwitch` | N400-Naturalization-Helper/n400-naturalization-helper/src/components/CivicsTest.tsx:242 | an index valid under "all" can lie past the end of a non-empty category |
| `CivicsTest.StaleQuizAfterSwitch` | N400-Naturalization-Helper/n400-naturalization-helper/src/components/CivicsTest.tsx:242-272 | two steps forward under "all", then the category button as written, leave the quiz with an index at or past the end of a non-empty filtered list |
| `EnglishTest.Filter` | N400-Naturalization-Helper/n400-naturalization-helper/src/components/EnglishTest.tsx:137 | exactly the exercises of the section |
| `EnglishTest.PaddingIgnored` | N400-Naturalization-Helper/n400-naturalization-helper/src/components/EnglishTest.tsx:148-149 | spaces typed around an answer never change the verdict |
| `EnglishTest.Correct` | N400-Naturalization-Helper/n400-naturalization-helper/src/components/EnglishTest.tsx:148-149 | typing the key itself, in any letter case, is correct; a correct answer, trimmed, is never longer than the key |
| `EnglishTest.Credited` | N400-Naturalization-Helper/n400-naturalization-helper/src/components/EnglishTest.tsx:147-156 | a writing exercise (no key, or an empty one) is credited for any attempt; the key in any case is credited; an answer longer than a non-empty key, once trimmed, never is |
| `EnglishTest.Practice.constructor` | N400-Naturalization-Helper/n400-naturalization-helper/src/components/EnglishTest.tsx:17-22 | the initial state: reading section, index 0, nothing completed |
| `EnglishTest.Practice.Progress` | N400-Naturalization-Helper/n400-naturalization-helper/src/components/EnglishTest.tsx:188 | progress lies in (0, 100] |
| `EnglishTest.Practice.HandleAnswer` | N400-Naturalization-Helper/n400-naturalization-helper/src/components/EnglishTest.tsx:140-158 | the first submission records the id and scores it once (any attempt for an exercise without a key); a repeat changes neither |
| `EnglishTest.Practice.Next` | N400-Naturalization-Helper/n400-naturalization-helper/src/components/EnglishTest.tsx:160-166 | move forward and clear the answer, except on the last exercise |
| `EnglishTest.Practice.Previous` | N400-Naturalization-Helper/n400-naturalization-helper/src/components/EnglishTest.tsx:168-174 | move back and clear the answer, except on the first exercise |
| `EnglishTest.Practice.Reset` | N400-Naturalization-Helper/n400-naturalization-helper/src/components/EnglishTest.tsx:176-182 | back to the first exercise with score and completions cleared |
| `EnglishTest.Practice.SetSectionAsWritten` | N400-Naturalization-Helper/n400-naturalization-helper/src/components/EnglishTest.tsx:219 | the section button only sets the section; the index is unchanged |
| `EnglishTest.Practice.SelectSection` | N400-Naturalization-Helper/n400-naturalization-helper/src/components/EnglishTest.tsx:184-186 | a section switch with its reset leaves a valid state at index 0 |
| `EnglishTest.StalePracticeAfterSwitch` | N400-Naturalization-Helper/n400-naturalization-helper/src/components/EnglishTest.tsx:137-219 | three steps forward through vocabulary, then the reading button as written, leave the practice at index 3 of a three-exercise section |
| `EnglishTest.StaleIndexAfterSwitch` | N400-Naturalization-Helper/n400-naturalization-helper/src/components/EnglishTest.tsx:137-138 | vocabulary has four exercises and reading three, so index 3 is past the end of reading |
| `EnglishTest.SectionBlocks` | N400-Naturalization-Helper/n400-naturalization-helper/src/components/EnglishTest.tsx:30-135 | the reading and vocabulary filters of the exercise list are its first and last blocks |
| `InterviewSimulator.CategoryRank` | N400-Naturalization-Helper/n400-naturalization-helper/src/components/InterviewSimulator.tsx:170-176 | each category has exactly one place in the visiting order |
| `InterviewSimulator.QuestionCounts` | N400-Naturalization-Helper/n400-naturalization-helper/src/components/InterviewSimulator.tsx:170-172 | each category is asked 2 to 10 questions, the oath always 2 and civics the most; the requested counts add up to 15 in the standard mode and 23 in the challenging one, the totals the mode cards show at lines 281 and 305; a session reaches them only when the bank has enough questions |
| `InterviewSimulator.ChallengingAsksMore` | N400-Naturalization-Helper/n400-naturalization-helper/src/components/InterviewSimulator.tsx:170-172 | the challenging mode asks at least as many questions of every category, and more civics questions |
| `InterviewSimulator.Take` | N400-Naturalization-Helper/n400-naturalization-helper/src/components/InterviewSimulator.tsx:177-179 | a category contributes `min(count, available)` of its own questions |
| `InterviewSimulator.SessionLength` | N400-Naturalization-Helper/n400-naturalization-helper/src/components/InterviewSimulator.tsx:169-183 | a session is as long as the five categories' contributions together |
| `InterviewSimulator.BankCount` | N400-Naturalization-Helper/n400-naturalization-helper/src/components/InterviewSimulator.tsx:22-167 | the component's bank holds exactly as many questions of a category as that category's block: five personal, four background, five civics, two english and two oath |
| `InterviewSimulator.InterviewBankSessions` | N400-Naturalization-Helper/n400-naturalization-helper/src/components/InterviewSimulator.tsx:22-183 | on the component's own bank a session is 14 questions long in the standard mode and 17 in the challenging one |
| `InterviewSimulator.GenerateQuestions` | N400-Naturalization-Helper/n400-naturalization-helper/src/components/InterviewSimulator.tsx:169-183 | the loop's selection is the category-by-category selection, drawn from the bank |
| `InterviewSimulator.SelectionByCategory` | N400-Naturalization-Helper/n400-naturalization-helper/src/components/InterviewSimulator.tsx:176-180 | after k categories, a category's questions in the selection are its own contribution if visited, else none |
| `InterviewSimulator.SessionByCategory` | N400-Naturalization-Helper/n400-naturalization-helper/src/components/InterviewSimulator.tsx:176-180 | a session asks exactly `min(count, available)` questions of each category |
| `InterviewSimulator.MentionsExpected` | N400-Naturalization-Helper/n400-naturalization-helper/src/components/InterviewSimulator.tsx:205-208 | an answer that mentions an expected answer is at least as long as one of them |
| `InterviewSimulator.ExpectedAccepted` | N400-Naturalization-Helper/n400-naturalization-helper/src/components/InterviewSimulator.tsx:205-208 | giving an expected answer itself, in any letter case, counts as mentioning it |
| `InterviewSimulator.Rate` | N400-Naturalization-Helper/n400-naturalization-helper/src/components/InterviewSimulator.tsx:202-216 | civics answers are good exactly when they mention an expected answer, else poor; others are good above 10 trimmed characters and poor at 3 or fewer |
| `InterviewSimulator.RateIgnoresPadding` | N400-Naturalization-Helper/n400-naturalization-helper/src/components/InterviewSimulator.tsx:210-216 | spaces around a non-civics answer never change its rating |
| `InterviewSimulator.RateLengthMonotone` | N400-Naturalization-Helper/n400-naturalization-helper/src/components/InterviewSimulator.tsx:210-216 | a longer non-civics answer never rates worse |
| `InterviewSimulator.CivicsCreditKept` | N400-Naturalization-Helper/n400-naturalization-helper/src/components/InterviewSimulator.tsx:205-209 | a good civics answer stays good whatever is added around it |
| `InterviewSimulator.RatedPartition` | N400-Naturalization-Helper/n400-naturalization-helper/src/components/InterviewSimulator.tsx:233-236 | good, fair and poor counts add up to the total |
| `InterviewSimulator.WeightedScore` | N400-Naturalization-Helper/n400-naturalization-helper/src/components/InterviewSimulator.tsx:238 | the weighted score lies in [33, 100]; all good gives 100 and all poor gives 33 |
| `InterviewSimulator.CalculateResults` | N400-Naturalization-Helper/n400-naturalization-helper/src/components/InterviewSimulator.tsx:232-241 | the counts partition the rated questions; the score is NaN exactly for an empty record, and otherwise in [33, 100] |
| `InterviewSimulator.UniformScores` | N400-Naturalization-Helper/n400-naturalization-helper/src/components/InterviewSimulator.tsx:238 | an all-good record scores 100; an all-poor one scores 33 |
| `InterviewSimulator.IdsSize` | N400-Naturalization-Helper/n400-naturalization-helper/src/components/InterviewSimulator.tsx:233 | a session has no more distinct ids than questions |
| `InterviewSimulator.Simulator.constructor` | N400-Naturalization-Helper/n400-naturalization-helper/src/components/InterviewSimulator.tsx:15-21 | the initial state: intro phase, standard mode, empty session and records |
| `InterviewSimulator.Simulator.SetMode` | N400-Naturalization-Helper/n400-naturalization-helper/src/components/InterviewSimulator.tsx:289 | sets the mode and nothing else; the mode buttons also call `startInterview` in the same handler, which `InterviewSimulator.Simulator.ChooseModeAsWritten` models |
| `InterviewSimulator.Simulator.ChooseModeAsWritten` | N400-Naturalization-Helper/n400-naturalization-helper/src/components/InterviewSimulator.tsx:288-291 | a mode button as written: the session is built in the mode from before the click, and only then does the clicked mode show |
| `InterviewSimulator.Simulator.ChooseMode` | N400-Naturalization-Helper/n400-naturalization-helper/src/components/InterviewSimulator.tsx:288-291 | a mode button that starts the session in the mode it names |
| `InterviewSimulator.StaleModeOnFirstClick` | N400-Naturalization-Helper/n400-naturalization-helper/src/components/InterviewSimulator.tsx:312-315 | the first click on "Start Challenging Interview" starts a 14-question standard session, shorter than the 17-question challenging one |
| `InterviewSimulator.Simulator.StartInterview` | N400-Naturalization-Helper/n400-naturalization-helper/src/components/InterviewSimulator.tsx:185-193 | a fresh session in the chosen mode, at its first question, with no answers |
| `InterviewSimulator.Simulator.HandleAnswer` | N400-Naturalization-Helper/n400-naturalization-helper/src/components/InterviewSimulator.tsx:195-222 | the answer and its rating are stored under the current id; every other entry is kept |
| `InterviewSimulator.Simulator.NextQuestion` | N400-Naturalization-Helper/n400-naturalization-helper/src/components/InterviewSimulator.tsx:224-230 | move on, or go to the results after the last question |
| `InterviewSimulator.Simulator.Summarize` | N400-Naturalization-Helper/n400-naturalization-helper/src/components/InterviewSimulator.tsx:443 | the results count no more questions than the session asked |
| `SpeakingTest.Filter` | N400-Naturalization-Helper/n400-naturalization-helper/src/components/SpeakingTest.tsx:124 | exactly the exercises of the section |
| `SpeakingTest.Percent` | N400-Naturalization-Helper/n400-naturalization-helper/src/components/SpeakingTest.tsx:139 | a share lies in [0, 100] and is 100 exactly when everything counted |
| `SpeakingTest.PercentMonotone` | N400-Naturalization-Helper/n400-naturalization-helper/src/components/SpeakingTest.tsx:139 | a larger count never gives a smaller share |
| `SpeakingTest.Accuracy` | N400-Naturalization-Helper/n400-naturalization-helper/src/components/SpeakingTest.tsx:127-153 | accuracy is NaN exactly for a drill with an empty target list, and otherwise in [0, 100] |
| `SpeakingTest.MoreSpeechNeverHurts` | N400-Naturalization-Helper/n400-naturalization-helper/src/components/SpeakingTest.tsx:136-139 | saying more never lowers a drill's accuracy |
| `SpeakingTest.ReadingBackScoresFull` | N400-Naturalization-Helper/n400-naturalization-helper/src/components/SpeakingTest.tsx:150-153 | reading the text back scores 100 on reading and conversation exercises |
| `SpeakingTest.AllTargetsHeard` | N400-Naturalization-Helper/n400-naturalization-helper/src/components/SpeakingTest.tsx:134-139 | a drill scores 100 exactly when every target word is heard |
| `SpeakingTest.FeedbackFor` | N400-Naturalization-Helper/n400-naturalization-helper/src/components/SpeakingTest.tsx:141-161 | the "focus on" message only follows a drill |
| `SpeakingTest.FeedbackBands` | N400-Naturalization-Helper/n400-naturalization-helper/src/components/SpeakingTest.tsx:141-161 | the message bands are 80/60 for drills and 70/50 otherwise, each an if-and-only-if; "focus on" lists exactly the targets not heard |
| `SpeakingTest.EmptyTargetsNeverScore` | N400-Naturalization-Helper/n400-naturalization-helper/src/components/SpeakingTest.tsx:139-169 | an empty target list is never credited and is always told to keep practising |
| `SpeakingTest.PassingAttempts` | N400-Naturalization-Helper/n400-naturalization-helper/src/components/SpeakingTest.tsx:169 | a point needs accuracy of at least 60: a drill whose every target is heard always earns it, and reading a text back on any other exercise always does (an empty target list never does, by `EmptyTargetsNeverScore`) |
| `SpeakingTest.Practice.constructor` | N400-Naturalization-Helper/n400-naturalization-helper/src/components/SpeakingTest.tsx:24-31 | the initial state: pronunciation section, index 0, nothing completed |
| `SpeakingTest.Practice.AnalyzeSpeech` | N400-Naturalization-Helper/n400-naturalization-helper/src/components/SpeakingTest.tsx:127-173 | shows the attempt's feedback; the first attempt records the id and scores a point at accuracy 60 or more |
| `SpeakingTest.Practice.Complete` | N400-Naturalization-Helper/n400-naturalization-helper/src/components/SpeakingTest.tsx:166-172 | an id is recorded once, with at most one point |
| `SpeakingTest.Practice.OnResult` | N400-Naturalization-Helper/n400-naturalization-helper/src/components/SpeakingTest.tsx:247-251 | the transcript is stored and analysed |
| `SpeakingTest.Practice.Next` | N400-Naturalization-Helper/n400-naturalization-helper/src/components/SpeakingTest.tsx:210-216 | move forward and clear transcript and feedback, except on the last exercise |
| `SpeakingTest.Practice.Previous` | N400-Naturalization-Helper/n400-naturalization-helper/src/components/SpeakingTest.tsx:218-224 | move back and clear, except on the first exercise |
| `SpeakingTest.Practice.Reset` | N400-Naturalization-Helper/n400-naturalization-helper/src/components/SpeakingTest.tsx:226-232 | back to the first exercise with score and completions cleared |
| `SpeakingTest.Practice.SelectSection` | N400-Naturalization-Helper/n400-naturalization-helper/src/components/SpeakingTest.tsx:267-269 | the section button with its reset leaves a valid state at index 0 |

## Left out

- Network and provider I/O is outside the model:
  - link tokens, token exchange, the account, transaction and institution lookups, the Express routes and their error responses;
  - the server's health check;
  - the dashboards' loading, refresh and demo-mode flows.
- The institution name, the accounts and the transactions are parameters.
- Randomness is outside the model:
  - the two `Math.random()` draws of the sassy line are the parameters `coin` and `draw`;
  - the mock transaction generator is not modelled, and its transactions are a parameter.
- `InterviewSimulator.GenerateQuestions`: takes the first `min(count, available)` questions of each category, not a random choice, and leaves out the final shuffle, so a session comes grouped by category.
- Message texts are not reproduced: template text, `toFixed` and currency formatting. Insights, tips, quips and speaking feedback are datatypes carrying the values their templates show.
- `PlaidService.SassyMessage`: a bank name that is an inherited object property (such as "constructor") is not modelled as a bank with quips.
- Numbers are exact reals, not IEEE doubles. Rounding error is not modelled, and neither is Infinity, except where `MockBanking.MockRisk` resolves it to 0 or 100.
- `Text.Lower` folds ASCII letters only.
- `Text.Trim` removes ASCII white space, the no-break space and the byte-order mark, but not the other Unicode space characters.
- The question banks of the civics test, the interview and the speaking test are parameters. Only the scoring fields are kept: ids, categories, keys and target words.
- The English exercise list keeps only ids, sections and answer keys. Titles, passages, options and explanations are not modelled.
- Rendering is not modelled: answer highlighting, progress bars, disabled buttons and tabs.
- The interview's start time and elapsed-time display, and the dashboards' timers and animations, are not modelled.
- Speech recognition, synthesis, recording and playback are not modelled. The recogniser's transcript is the input of `SpeakingTest.Practice.OnResult`.
- React state is updated as one atomic step per handler. Stale closures are not modelled, except the stale index and the stale interview mode recorded under Findings.
- `PlaidService.ToTransaction`: the `account_owner` field is not modelled.
- Other components, routing, forms and file handling are not part of this model.

## Findings

| source | as written | input that shows it | evidently intended | confidence | as-written member | corrected member |
|---|---|---|---|---|---|---|
| N400-Naturalization-Helper/n400-naturalization-helper/src/components/CivicsTest.tsx:272 | The category button only sets the category. The reset that returns the index to 0 runs in an effect after the render, and that render already reads `filteredQuestions[currentQuestion]` with the old index. | On question 4 or later of "All Questions", choose "American History", which has 3 questions. `currentQ` is undefined and `currentQ.category` (line 304) throws. | Switching category restarts at the first question before the new list is shown. | not executed | `CivicsTest.Quiz.SetCategoryAsWritten`, `CivicsTest.StaleIndexAfterSwitch`, `CivicsTest.StaleQuizAfterSwitch` | `CivicsTest.Quiz.SelectCategory` |
| N400-Naturalization-Helper/n400-naturalization-helper/src/components/EnglishTest.tsx:219 | The section button only sets the section. The reset runs in an effect after a render that indexes the new section with the old index. | On the fourth vocabulary exercise (index 3), choose "Reading", which has 3 exercises. `currentEx` is undefined and `currentEx.title` (line 269) throws. | Switching section restarts at the first exercise before the new list is shown. | not executed | `EnglishTest.Practice.SetSectionAsWritten`, `EnglishTest.StaleIndexAfterSwitch`, `EnglishTest.StalePracticeAfterSwitch` | `EnglishTest.Practice.SelectSection` |
| N400-Naturalization-Helper/n400-naturalization-helper/src/components/InterviewSimulator.tsx:288-291 | Each mode button calls `setInterviewMode` and then `startInterview` in the same handler. `startInterview` reads `interviewMode` from the render before the click (line 186), so the session is built in the previous mode. | From the start screen (mode "standard"), click "Start Challenging Interview" (lines 312-315). The session is a standard one of 14 questions, not the challenging one of 17. | The session is built in the mode of the button clicked. | not executed | `InterviewSimulator.Simulator.ChooseModeAsWritten`, `InterviewSimulator.StaleModeOnFirstClick` | `InterviewSimulator.Simulator.ChooseMode` |
