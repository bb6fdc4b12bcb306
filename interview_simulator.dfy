/** The mock interview (`src/components/InterviewSimulator.tsx`): a session
    drawn from the question bank category by category, a rating for each
    answer, and a weighted score over the ratings. */
module InterviewSimulator {
  import opened Basics
  import opened Text

  datatype Category = Personal | Background | Civics | English | Oath

  /** `Object.entries(questionCounts)` visits the categories in this order. */
  const CategoryOrder: seq<Category> := [Personal, Background, Civics, English, Oath]

  function CategoryRank(c: Category): (n: nat)
    ensures n < |CategoryOrder| && CategoryOrder[n] == c
    ensures forall k :: 0 <= k < |CategoryOrder| && CategoryOrder[k] == c ==> k == n
  {
    match c
    case Personal => 0
    case Background => 1
    case Civics => 2
    case English => 3
    case Oath => 4
  }

  datatype Question = Question(id: string, category: Category, expectedAnswers: seq<string>)

  datatype Mode = Standard | Challenging

  datatype Phase = Intro | Interview | Results

  datatype Rating = Good | Fair | Poor {
    /** The weight of a rating in the score. */
    function Points(): (p: int)
      ensures 1 <= p <= 3
    {
      match this
      case Good => 3
      case Fair => 2
      case Poor => 1
    }
  }

  /** `questionCounts`: how many questions of each category a session asks. */
  function QuestionCount(mode: Mode, c: Category): nat {
    match (mode, c)
    case (Standard, Personal) => 3
    case (Standard, Background) => 2
    case (Standard, Civics) => 6
    case (Standard, English) => 2
    case (Standard, Oath) => 2
    case (Challenging, Personal) => 4
    case (Challenging, Background) => 4
    case (Challenging, Civics) => 10
    case (Challenging, English) => 3
    case (Challenging, Oath) => 2
  }

  /** Every category is asked between two and ten questions, the oath always
      two, civics the most; a session is 15 questions long in the standard
      mode and 23 in the challenging one when the bank has enough. */
  lemma QuestionCounts(mode: Mode, c: Category)
    ensures 2 <= QuestionCount(mode, c) <= 10
    ensures c == Oath ==> QuestionCount(mode, c) == 2
    ensures QuestionCount(mode, c) <= QuestionCount(mode, Civics)
    ensures QuestionCount(mode, Personal) + QuestionCount(mode, Background) + QuestionCount(mode, Civics)
            + QuestionCount(mode, English) + QuestionCount(mode, Oath)
            == if mode == Standard then 15 else 23
  {
  }

  /** The challenging interview asks at least as many questions of every
      category as the standard one. */
  lemma ChallengingAsksMore(c: Category)
    ensures QuestionCount(Standard, c) <= QuestionCount(Challenging, c)
    ensures QuestionCount(Standard, Civics) < QuestionCount(Challenging, Civics)
  {
  }

  function InCategory(c: Category): Question -> bool {
    (q: Question) => q.category == c
  }

  /** What one category contributes to a session: the first
      `min(count, available)` of its questions (the shuffle before the slice
      is not modelled). */
  function Take(bank: seq<Question>, mode: Mode, c: Category): (r: seq<Question>)
    ensures |r| == Min(QuestionCount(mode, c) as real, |Keep(bank, InCategory(c))| as real) as int
    ensures forall q :: q in r ==> q in bank && q.category == c
  {
    var pool := Keep(bank, InCategory(c));
    var n := if QuestionCount(mode, c) <= |pool| then QuestionCount(mode, c) else |pool|;
    assert forall q :: q in pool[..n] ==> q in pool;
    pool[..n]
  }

  /** The questions selected after visiting the first `k` categories. */
  function SelectionUpTo(bank: seq<Question>, mode: Mode, k: nat): seq<Question>
    requires k <= |CategoryOrder|
  {
    if k == 0 then [] else SelectionUpTo(bank, mode, k - 1) + Take(bank, mode, CategoryOrder[k - 1])
  }

  /** `generateInterviewQuestions` without its shuffles. */
  method GenerateQuestions(bank: seq<Question>, mode: Mode) returns (selected: seq<Question>)
    ensures selected == SelectionUpTo(bank, mode, |CategoryOrder|)
    ensures forall q :: q in selected ==> q in bank
  {
    selected := [];
    var k := 0;
    while k < |CategoryOrder|
      invariant 0 <= k <= |CategoryOrder|
      invariant selected == SelectionUpTo(bank, mode, k)
      invariant forall q :: q in selected ==> q in bank
    {
      var part := Take(bank, mode, CategoryOrder[k]);
      selected := selected + part;
      k := k + 1;
    }
  }

  /** The questions of one category in a session are exactly that
      category's contribution, however many the other categories add. */
  lemma {:induction false} SelectionByCategory(bank: seq<Question>, mode: Mode, c: Category, k: nat)
    requires k <= |CategoryOrder|
    ensures Keep(SelectionUpTo(bank, mode, k), InCategory(c)) ==
            if CategoryRank(c) < k then Take(bank, mode, c) else []
  {
    if k > 0 {
      var d := CategoryOrder[k - 1];
      var prev, part := SelectionUpTo(bank, mode, k - 1), Take(bank, mode, d);
      assert SelectionUpTo(bank, mode, k) == prev + part;
      SelectionByCategory(bank, mode, c, k - 1);
      KeepAppend(prev, part, InCategory(c));
      KeepTake(bank, mode, d, c);
      assert d == c <==> CategoryRank(c) == k - 1;
      JoinCases(Keep(prev, InCategory(c)), Keep(part, InCategory(c)), Take(bank, mode, c),
                CategoryRank(c) < k - 1, d == c);
    }
  }

  /** Two parts of which at most one is `t` and the other empty join to `t`
      or to nothing. */
  lemma JoinCases<T>(x: seq<T>, y: seq<T>, t: seq<T>, before: bool, here: bool)
    requires !(before && here)
    requires x == (if before then t else [])
    requires y == (if here then t else [])
    ensures x + y == (if before || here then t else [])
  {
    if before {
      assert x + y == t + [];
    } else if here {
      assert x + y == [] + t;
    } else {
      assert x + y == [] + [];
    }
  }

  /** A category's contribution passes its own filter whole and every
      other category's filter not at all. */
  lemma KeepTake(bank: seq<Question>, mode: Mode, d: Category, c: Category)
    ensures Keep(Take(bank, mode, d), InCategory(c)) == if d == c then Take(bank, mode, d) else []
  {
    if d == c {
      KeepAll(Take(bank, mode, d), InCategory(c));
    } else {
      KeepNone(Take(bank, mode, d), InCategory(c));
    }
  }

  /** A generated session asks `min(count, available)` questions of each
      category, each taken from that category of the bank. */
  lemma SessionByCategory(bank: seq<Question>, mode: Mode, c: Category)
    ensures Keep(SelectionUpTo(bank, mode, |CategoryOrder|), InCategory(c)) == Take(bank, mode, c)
    ensures |Keep(SelectionUpTo(bank, mode, |CategoryOrder|), InCategory(c))|
            == Min(QuestionCount(mode, c) as real, |Keep(bank, InCategory(c))| as real) as int
  {
    SelectionByCategory(bank, mode, c, |CategoryOrder|);
  }

  /** The component's own question bank (`allQuestions`), one block per
      category: five personal, four background, five civics, two english
      and two oath questions. */
  function BlockOf(c: Category): seq<Question> {
    match c
    case Personal => [
      Question("personal-1", Personal, ["State your full legal name as it appears on your application"]),
      Question("personal-2", Personal, ["State your complete date of birth"]),
      Question("personal-3", Personal, ["State your current physical address"]),
      Question("personal-4", Personal, ["State your current phone number"]),
      Question("personal-5", Personal, ["Yes/No and explain your marital status"])]
    case Background => [
      Question("background-1", Background, ["Personal reasons for wanting citizenship"]),
      Question("background-2", Background, ["Number of years as a permanent resident"]),
      Question("background-3", Background, ["Yes/No and details if yes"]),
      Question("background-4", Background, ["Yes/No and details of travel"])]
    case Civics => [
      Question("civics-1", Civics, ["The Constitution"]),
      Question("civics-2", Civics, ["Sets up the government", "Defines the government", "Protects basic rights of Americans"]),
      Question("civics-3", Civics, ["We the People"]),
      Question("civics-4", Civics, ["Speech", "Religion", "Assembly", "Press", "Petition the government"]),
      Question("civics-5", Civics, ["Twenty-seven", "27"])]
    case English => [
      Question("english-1", English, ["Read the sentence clearly"]),
      Question("english-2", English, ["Write the sentence correctly"])]
    case Oath => [
      Question("oath-1", Oath, ["Yes"]),
      Question("oath-2", Oath, ["Yes"])]
  }

  function InterviewBank(): seq<Question> {
    BlockOf(Personal) + BlockOf(Background) + BlockOf(Civics) + BlockOf(English) + BlockOf(Oath)
  }

  /** Every question of a block belongs to that block's category. */
  lemma BlockCategory(d: Category)
    ensures forall q :: q in BlockOf(d) ==> q.category == d
  {
    match d
    case Personal =>
    case Background =>
    case Civics =>
    case English =>
    case Oath =>
  }

  /** Filtering five blocks in a row keeps as many elements as filtering
      each block does, together. */
  lemma KeepFiveCount<T>(a: seq<T>, b: seq<T>, c: seq<T>, d: seq<T>, e: seq<T>, p: T -> bool)
    ensures |Keep(a + b + c + d + e, p)|
            == |Keep(a, p)| + |Keep(b, p)| + |Keep(c, p)| + |Keep(d, p)| + |Keep(e, p)|
  {
    KeepAppend(a + b + c + d, e, p);
    KeepAppend(a + b + c, d, p);
    KeepAppend(a + b, c, p);
    KeepAppend(a, b, p);
  }

  /** A bank made of one block per category, in the order of
      `CategoryOrder`, holds as many questions of a category as its block. */
  lemma CountByBlocks(blockOf: Category -> seq<Question>, c: Category)
    requires forall d: Category, q :: q in blockOf(d) ==> q.category == d
    ensures |Keep(blockOf(Personal) + blockOf(Background) + blockOf(Civics) + blockOf(English) + blockOf(Oath),
                  InCategory(c))| == |blockOf(c)|
  {
    KeepFiveCount(blockOf(Personal), blockOf(Background), blockOf(Civics), blockOf(English), blockOf(Oath),
                  InCategory(c));
    forall d: Category
      ensures |Keep(blockOf(d), InCategory(c))| == if d == c then |blockOf(d)| else 0
    {
      if d == c {
        KeepAll(blockOf(d), InCategory(c));
      } else {
        KeepNone(blockOf(d), InCategory(c));
      }
    }
  }

  /** The component's bank holds exactly as many questions of a category as
      that category's block. */
  lemma BankCount(c: Category)
    ensures |Keep(InterviewBank(), InCategory(c))| == |BlockOf(c)|
  {
    forall d: Category
      ensures forall q :: q in BlockOf(d) ==> q.category == d
    {
      BlockCategory(d);
    }
    CountByBlocks(BlockOf, c);
  }

  lemma BlockSizes()
    ensures |BlockOf(Personal)| == 5 && |BlockOf(Background)| == 4 && |BlockOf(Civics)| == 5
    ensures |BlockOf(English)| == 2 && |BlockOf(Oath)| == 2
  {
  }

  /** On the component's own bank a session is 14 questions long in the
      standard mode and 17 in the challenging one, short of the 15 and 23
      the requested counts add up to: the bank has five civics questions
      and two english ones. */
  lemma InterviewBankSessions()
    ensures |SelectionUpTo(InterviewBank(), Standard, |CategoryOrder|)| == 14
    ensures |SelectionUpTo(InterviewBank(), Challenging, |CategoryOrder|)| == 17
  {
    SessionLength(InterviewBank(), Standard);
    SessionLength(InterviewBank(), Challenging);
    BlockSizes();
    BankCount(Personal);
    BankCount(Background);
    BankCount(Civics);
    BankCount(English);
    BankCount(Oath);
  }

  /** A session is as long as the five categories' contributions together. */
  lemma SessionLength(bank: seq<Question>, mode: Mode)
    ensures |SelectionUpTo(bank, mode, |CategoryOrder|)|
            == |Take(bank, mode, Personal)| + |Take(bank, mode, Background)| + |Take(bank, mode, Civics)|
               + |Take(bank, mode, English)| + |Take(bank, mode, Oath)|
  {
    assert SelectionUpTo(bank, mode, 1) == Take(bank, mode, Personal);
    assert SelectionUpTo(bank, mode, 2) == SelectionUpTo(bank, mode, 1) + Take(bank, mode, Background);
    assert SelectionUpTo(bank, mode, 3) == SelectionUpTo(bank, mode, 2) + Take(bank, mode, Civics);
    assert SelectionUpTo(bank, mode, 4) == SelectionUpTo(bank, mode, 3) + Take(bank, mode, English);
    assert SelectionUpTo(bank, mode, 5) == SelectionUpTo(bank, mode, 4) + Take(bank, mode, Oath);
  }

  /** Some expected answer, lower-cased, occurs in the lower-cased answer. */
  predicate MentionsExpected(answer: string, expected: seq<string>)
    ensures MentionsExpected(answer, expected) ==> exists e :: e in expected && |e| <= |answer|
  {
    exists e :: e in expected && Contains(Lower(answer), Lower(e))
  }

  /** Giving an expected answer itself, in any letter case, is accepted. */
  lemma ExpectedAccepted(answer: string, expected: seq<string>, e: string)
    requires e in expected && Lower(answer) == Lower(e)
    ensures MentionsExpected(answer, expected)
  {
    ContainsSelf(Lower(e));
  }

  /** The rating of `handleAnswer`: civics answers by keyword, the others by
      the length of the trimmed answer. */
  function Rate(q: Question, answer: string): (r: Rating)
    ensures q.category == Civics ==> r != Fair && (r == Good <==> MentionsExpected(answer, q.expectedAnswers))
    ensures q.category != Civics ==> (r == Good <==> |Trim(answer)| > 10) && (r == Poor <==> |Trim(answer)| <= 3)
  {
    if q.category == Civics then
      if MentionsExpected(answer, q.expectedAnswers) then Good else Poor
    else if |Trim(answer)| > 10 then Good
    else if |Trim(answer)| > 3 then Fair
    else Poor
  }

  /** Spaces typed around an answer never change the rating of a
      non-civics question. */
  lemma RateIgnoresPadding(q: Question, answer: string)
    requires q.category != Civics
    ensures Rate(q, [' '] + answer + [' ']) == Rate(q, answer)
  {
    TrimPadded(answer);
  }

  /** A longer answer never rates worse on a non-civics question. */
  lemma RateLengthMonotone(q: Question, a: string, b: string)
    requires q.category != Civics && |Trim(a)| <= |Trim(b)|
    ensures Rate(q, a).Points() <= Rate(q, b).Points()
  {
  }

  /** A civics answer that earned "good" keeps it whatever is added before
      or after it. */
  lemma CivicsCreditKept(q: Question, answer: string, more: string)
    requires q.category == Civics && Rate(q, answer) == Good
    ensures Rate(q, answer + more) == Good && Rate(q, more + answer) == Good
  {
    var e :| e in q.expectedAnswers && Contains(Lower(answer), Lower(e));
    LowerAppend(answer, more);
    LowerAppend(more, answer);
    ContainsExtend(Lower(answer), Lower(more), Lower(e));
  }

  datatype Summary = Summary(total: nat, good: nat, fair: nat, poor: nat, score: Number)

  function RatedAs(feedback: map<string, Rating>, r: Rating): set<string> {
    set k | k in feedback && feedback[k] == r
  }

  /** Every rated question is good, fair or poor, and only one of them. */
  lemma RatedPartition(feedback: map<string, Rating>)
    ensures |RatedAs(feedback, Good)| + |RatedAs(feedback, Fair)| + |RatedAs(feedback, Poor)| == |feedback|
  {
    var good, fair, poor := RatedAs(feedback, Good), RatedAs(feedback, Fair), RatedAs(feedback, Poor);
    assert feedback.Keys == good + fair + poor;
    assert good * fair == {};
    assert (good + fair) * poor == {};
  }

  /** `Math.round((3 good + 2 fair + poor) / (3 total) * 100)`: a third of
      the points at worst, all of them at best. */
  function WeightedScore(good: nat, fair: nat, poor: nat): (r: int)
    requires good + fair + poor > 0
    ensures 33 <= r <= 100
    ensures fair == 0 && poor == 0 ==> r == 100
    ensures good == 0 && fair == 0 ==> r == 33
  {
    var total := (good + fair + poor) as real;
    var weighted := (good * 3 + fair * 2 + poor) as real;
    var x := weighted / (total * 3.0) * 100.0;
    ScoreBounds(weighted, total);
    RoundMonotone(33.0, x);
    RoundMonotone(x, 100.0);
    RoundOfInt(33);
    RoundOfInt(100);
    UniformRatios(good, fair, poor);
    Round(x)
  }

  lemma UniformRatios(good: nat, fair: nat, poor: nat)
    requires good + fair + poor > 0
    ensures var t := (good + fair + poor) as real;
            var x := (good * 3 + fair * 2 + poor) as real / (t * 3.0) * 100.0;
            (fair == 0 && poor == 0 ==> x == 100.0) && (good == 0 && fair == 0 ==> x == 100.0 / 3.0)
  {
    var t := (good + fair + poor) as real;
    if fair == 0 && poor == 0 {
      assert (good * 3) as real == t * 3.0;
    }
    if good == 0 && fair == 0 {
      assert poor as real / (t * 3.0) * 3.0 == 1.0;
    }
  }

  lemma ScoreBounds(weighted: real, total: real)
    requires total > 0.0 && total <= weighted <= 3.0 * total
    ensures 33.0 <= weighted / (total * 3.0) * 100.0 <= 100.0
  {
    var ratio := weighted / (total * 3.0);
    assert ratio * (total * 3.0) == weighted;
    assert ratio <= 1.0;
    assert ratio * 3.0 >= 1.0;
  }

  /** `calculateResults`: the count of each rating and the weighted score,
      NaN for an empty record (`0 / 0`). */
  function CalculateResults(feedback: map<string, Rating>): (s: Summary)
    ensures s.total == |feedback| && s.good + s.fair + s.poor == s.total
    ensures s.good == |RatedAs(feedback, Good)| && s.fair == |RatedAs(feedback, Fair)|
            && s.poor == |RatedAs(feedback, Poor)|
    ensures s.total == 0 <==> s.score.NaN?
    ensures s.total > 0 ==> 33.0 <= s.score.value <= 100.0
  {
    RatedPartition(feedback);
    var good, fair, poor := |RatedAs(feedback, Good)|, |RatedAs(feedback, Fair)|, |RatedAs(feedback, Poor)|;
    if |feedback| == 0 then Summary(0, good, fair, poor, NaN)
    else Summary(|feedback|, good, fair, poor, Num(WeightedScore(good, fair, poor) as real))
  }

  /** A record of "good" answers only scores 100, one of "poor" answers
      only scores 33. */
  lemma UniformScores(feedback: map<string, Rating>)
    requires |feedback| > 0
    ensures (forall k :: k in feedback ==> feedback[k] == Good) ==> CalculateResults(feedback).score == Num(100.0)
    ensures (forall k :: k in feedback ==> feedback[k] == Poor) ==> CalculateResults(feedback).score == Num(33.0)
  {
    if forall k :: k in feedback ==> feedback[k] == Good {
      assert RatedAs(feedback, Fair) == {} && RatedAs(feedback, Poor) == {};
    }
    if forall k :: k in feedback ==> feedback[k] == Poor {
      assert RatedAs(feedback, Fair) == {} && RatedAs(feedback, Good) == {};
    }
  }

  function Ids(session: seq<Question>): set<string> {
    set q | q in session :: q.id
  }

  lemma {:induction false} IdsSize(session: seq<Question>)
    ensures |Ids(session)| <= |session|
  {
    if session != [] {
      IdsSize(session[1..]);
      assert Ids(session) == {session[0].id} + Ids(session[1..]);
    }
  }

  class Simulator {
    const bank: seq<Question>
    var phase: Phase
    var index: int
    var answers: map<string, string>
    var session: seq<Question>
    var feedback: map<string, Rating>
    var mode: Mode

    /** The index stays inside the session, and the answers and ratings
        are recorded for the same questions, all of them in the session. */
    ghost predicate Valid()
      reads this
    {
      0 <= index && (|session| == 0 ==> index == 0) && (|session| > 0 ==> index < |session|)
      && answers.Keys == feedback.Keys && feedback.Keys <= Ids(session)
    }

    constructor(bank: seq<Question>)
      ensures Valid() && this.bank == bank
      ensures phase == Intro && index == 0 && answers == map[] && session == [] && feedback == map[]
      ensures mode == Standard
    {
      this.bank := bank;
      phase := Intro;
      index := 0;
      answers := map[];
      session := [];
      feedback := map[];
      mode := Standard;
    }

    method SetMode(m: Mode)
      modifies this
      ensures mode == m
      ensures phase == old(phase) && index == old(index) && session == old(session)
      ensures answers == old(answers) && feedback == old(feedback)
    {
      mode := m;
    }

    /** A mode button as the component writes it: `setInterviewMode(m)`
        and `startInterview()` in one handler, where `startInterview` still
        sees the mode of the render before the click. The session is built
        in the old mode; only then does the new mode show. */
    method ChooseModeAsWritten(m: Mode)
      modifies this
      ensures Valid() && mode == m
      ensures session == SelectionUpTo(bank, old(mode), |CategoryOrder|)
      ensures phase == Interview && index == 0 && answers == map[] && feedback == map[]
    {
      StartInterview();
      mode := m;
    }

    /** A mode button that starts the session in the mode it names. */
    method ChooseMode(m: Mode)
      modifies this
      ensures Valid() && mode == m
      ensures session == SelectionUpTo(bank, m, |CategoryOrder|)
      ensures phase == Interview && index == 0 && answers == map[] && feedback == map[]
    {
      mode := m;
      StartInterview();
    }

    /** `startInterview`: a fresh session in the chosen mode, on its first
        question, with nothing answered (the start time is not modelled). */
    method StartInterview()
      modifies this
      ensures Valid()
      ensures session == SelectionUpTo(bank, mode, |CategoryOrder|)
      ensures phase == Interview && index == 0 && answers == map[] && feedback == map[]
      ensures mode == old(mode)
    {
      session := GenerateQuestions(bank, mode);
      phase := Interview;
      index := 0;
      answers := map[];
      feedback := map[];
    }

    /** `handleAnswer`: record the answer and its rating under the current
        question's id; every other entry stays as it was. */
    method HandleAnswer(answer: string)
      requires Valid() && |session| > 0
      modifies this
      ensures Valid()
      ensures answers == old(answers)[old(session[index]).id := answer]
      ensures feedback == old(feedback)[old(session[index]).id := Rate(old(session[index]), answer)]
      ensures forall k :: k != old(session[index]).id && k in old(feedback) ==>
                k in feedback && feedback[k] == old(feedback)[k] && answers[k] == old(answers)[k]
      ensures phase == old(phase) && index == old(index) && session == old(session) && mode == old(mode)
    {
      var q := session[index];
      answers := answers[q.id := answer];
      feedback := feedback[q.id := Rate(q, answer)];
    }

    /** `nextQuestion`: move on, or show the results after the last question. */
    method NextQuestion()
      requires Valid()
      modifies this
      ensures Valid()
      ensures old(index) < |session| - 1 ==> index == old(index) + 1 && phase == old(phase)
      ensures old(index) >= |session| - 1 ==> index == old(index) && phase == Results
      ensures session == old(session) && answers == old(answers) && feedback == old(feedback)
    {
      if index < |session| - 1 {
        index := index + 1;
      } else {
        phase := Results;
      }
    }

    /** The results count no more questions than the session asked. */
    function Summarize(): (s: Summary)
      reads this
      requires Valid()
      ensures s == CalculateResults(feedback)
      ensures s.total <= |session|
    {
      IdsSize(session);
      SubsetSize(feedback.Keys, Ids(session));
      CalculateResults(feedback)
    }
  }

  /** The first click on "Start Challenging Interview", as written, starts
      a standard session: 14 questions of the component's bank where the
      challenging mode asks 17. */
  method StaleModeOnFirstClick() returns (s: Simulator)
    ensures s.mode == Challenging && s.phase == Interview
    ensures |s.session| == 14
    ensures |s.session| < |SelectionUpTo(InterviewBank(), Challenging, |CategoryOrder|)|
  {
    s := new Simulator(InterviewBank());
    s.ChooseModeAsWritten(Challenging);
    InterviewBankSessions();
  }
}
