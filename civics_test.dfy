/** The civics practice test (`src/components/CivicsTest.tsx`): a question
    index moved by next/previous, a score that counts each question at most
    once, and a category filter that restarts the test. */
module CivicsTest {
  import opened Basics
  import opened Text

  datatype Question = Question(id: int, question: string, answer: string, category: string)

  /** `filteredQuestions`: the whole bank for "all", otherwise the questions
      of the chosen category in bank order. */
  function Filter(bank: seq<Question>, category: string): (r: seq<Question>)
    ensures category == "all" ==> r == bank
    ensures category != "all" ==> forall q :: q in r <==> q in bank && q.category == category
    ensures |r| <= |bank|
  {
    if category == "all" then bank
    else
      var inCategory := (q: Question) => q.category == category;
      KeepMembers(bank, inCategory);
      Keep(bank, inCategory)
  }

  /** The lenient comparison of `handleAnswer`: the lower-cased answer equals
      the lower-cased key or occurs inside it. The equality test is subsumed:
      an answer is correct exactly when it occurs in the key, ignoring case,
      so it is never longer than the key. */
  predicate Correct(answer: string, key: string)
    ensures Correct(answer, key) <==> Contains(Lower(key), Lower(answer))
    ensures Correct(answer, key) ==> |answer| <= |key|
  {
    ContainsSelf(Lower(key));
    Lower(answer) == Lower(key) || Contains(Lower(key), Lower(answer))
  }

  /** The comparison accepts any fragment of the key: a single letter that
      occurs in it is scored as a correct answer. */
  lemma FragmentAccepted(key: string, i: nat)
    requires i < |key|
    ensures Correct([key[i]], key)
  {
    assert Lower(key)[i..i + 1] == Lower([key[i]]);
    ContainsAt(Lower(key), Lower([key[i]]), i);
  }

  class Quiz {
    const bank: seq<Question>
    var category: string
    var current: int
    var selected: string
    var showAnswer: bool
    var score: int
    var answered: seq<int>
    /** The ids answered correctly; the score counts them. */
    ghost var correct: set<int>

    function Filtered(): seq<Question>
      reads this
    {
      Filter(bank, category)
    }

    /** The index stays on a question when there is one, no id is recorded
        twice, and the score counts distinct answered ids. */
    ghost predicate Valid()
      reads this
    {
      0 <= current && (|Filtered()| == 0 ==> current == 0) && (|Filtered()| > 0 ==> current < |Filtered()|)
      && Distinct(answered) && correct <= Elements(answered) && score == |correct|
    }

    constructor(bank: seq<Question>)
      ensures Valid() && this.bank == bank && category == "all"
      ensures current == 0 && selected == "" && !showAnswer && score == 0 && answered == []
    {
      this.bank := bank;
      category := "all";
      current := 0;
      selected := "";
      showAnswer := false;
      score := 0;
      answered := [];
      correct := {};
    }

    /** The question on screen; none while the filtered list is empty (the
        "Loading" screen). */
    function CurrentQuestion(): (q: Option<Question>)
      reads this
      requires Valid()
      ensures q.Some? <==> |Filtered()| > 0
      ensures q.Some? ==> q.value in Filtered()
    {
      if |Filtered()| == 0 then None else Some(Filtered()[current])
    }

    /** The accuracy line, `Math.round(score / answered * 100)`. */
    function AccuracyPercent(): (p: int)
      reads this
      requires Valid() && |answered| > 0
      ensures 0 <= p <= 100
    {
      CreditedWithin(answered, correct);
      RoundMonotone(score as real / |answered| as real * 100.0, 100.0);
      RoundOfInt(100);
      Round(score as real / |answered| as real * 100.0)
    }

    /** `handleAnswer`: show the answer; on the first answer to this
        question record its id and score it. */
    method HandleAnswer(answer: string)
      requires Valid() && |Filtered()| > 0
      modifies this
      ensures Valid()
      ensures selected == answer && showAnswer
      ensures category == old(category) && current == old(current)
      ensures old(Filtered()[current].id) in old(answered) ==>
                answered == old(answered) && score == old(score)
      ensures old(Filtered()[current].id) !in old(answered) ==>
                answered == old(answered) + [old(Filtered()[current].id)]
                && score == old(score) + (if Correct(answer, old(Filtered()[current].answer)) then 1 else 0)
    {
      selected := answer;
      showAnswer := true;
      var q := Filtered()[current];
      if q.id !in answered {
        DistinctAppend(answered, q.id);
        answered := answered + [q.id];
        var key := Lower(q.answer);
        if Lower(answer) == key || Contains(key, Lower(answer)) {
          score := score + 1;
          correct := correct + {q.id};
        }
      }
    }

    /** `nextQuestion`: forward while not on the last question, clearing the
        selection only when it moves. */
    method Next()
      requires Valid()
      modifies this
      ensures Valid()
      ensures old(current) < |Filtered()| - 1 ==> current == old(current) + 1 && selected == "" && !showAnswer
      ensures old(current) >= |Filtered()| - 1 ==>
                current == old(current) && selected == old(selected) && showAnswer == old(showAnswer)
      ensures category == old(category) && score == old(score) && answered == old(answered)
    {
      if current < |Filtered()| - 1 {
        current := current + 1;
        selected := "";
        showAnswer := false;
      }
    }

    /** `previousQuestion`: back while not on the first question. */
    method Previous()
      requires Valid()
      modifies this
      ensures Valid()
      ensures old(current) > 0 ==> current == old(current) - 1 && selected == "" && !showAnswer
      ensures old(current) == 0 ==> current == 0 && selected == old(selected) && showAnswer == old(showAnswer)
      ensures category == old(category) && score == old(score) && answered == old(answered)
    {
      if current > 0 {
        current := current - 1;
        selected := "";
        showAnswer := false;
      }
    }

    /** `resetTest`. */
    method Reset()
      modifies this
      ensures Valid()
      ensures current == 0 && selected == "" && !showAnswer && score == 0 && answered == []
      ensures category == old(category)
    {
      current := 0;
      selected := "";
      showAnswer := false;
      score := 0;
      answered := [];
      correct := {};
    }

    /** A category button as the component writes it: `setCurrentCategory`
        alone; the reset only follows from an effect after the next render. */
    method SetCategoryAsWritten(c: string)
      modifies this
      ensures category == c
      ensures current == old(current) && score == old(score) && answered == old(answered)
      ensures selected == old(selected) && showAnswer == old(showAnswer) && correct == old(correct)
    {
      category := c;
    }

    /** A category switch that restarts the test in the same step, so the
        next render already sees a valid index. */
    method SelectCategory(c: string)
      modifies this
      ensures Valid() && category == c
      ensures current == 0 && selected == "" && !showAnswer && score == 0 && answered == []
    {
      category := c;
      Reset();
    }
  }

  /** The render after `SetCategoryAsWritten` can index past the filtered
      list: on the third question of "all", switching to a category with
      one question leaves the index at 2 while the list is not empty, so the
      component reads a question that does not exist. */
  lemma StaleIndexAfterSwitch()
    ensures var bank := [Question(1, "", "", "american-government"), Question(2, "", "", "american-government"),
                         Question(3, "", "", "geography")];
            2 < |Filter(bank, "all")|
            && 0 < |Filter(bank, "geography")| <= 2
  {
    var bank := [Question(1, "", "", "american-government"), Question(2, "", "", "american-government"),
                 Question(3, "", "", "geography")];
    assert bank[2] in Filter(bank, "geography");
  }

  /** The same stale index on the quiz itself: two steps forward under
      "all", then the category button as written, leaves the index on a
      question the non-empty filtered list does not have. */
  method StaleQuizAfterSwitch() returns (q: Quiz)
    ensures q.category == "geography" && q.current == 2
    ensures 0 < |q.Filtered()| <= q.current
  {
    var bank := [Question(1, "", "", "american-government"), Question(2, "", "", "american-government"),
                 Question(3, "", "", "geography")];
    q := new Quiz(bank);
    q.Next();
    q.Next();
    q.SetCategoryAsWritten("geography");
    assert bank[2] in Filter(bank, "geography");
  }
}
