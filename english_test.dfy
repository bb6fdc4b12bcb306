/** The English practice test (`src/components/EnglishTest.tsx`): three
    sections of exercises, an index moved by next/previous, and a score that
    credits each exercise at most once, writing exercises for any attempt. */
module EnglishTest {
  import opened Basics
  import opened Text

  datatype Section = Reading | Writing | Vocabulary

  /** An exercise as far as scoring goes; `correctAnswer` is absent on the
      free writing exercises. */
  datatype Exercise = Exercise(id: int, kind: Section, correctAnswer: Option<string>)

  /** The component's exercise list (titles, passages and options are not
      modelled): three reading, three writing and four vocabulary exercises. */
  const ReadingExercises: seq<Exercise> := [
    Exercise(1, Reading, Some("July 4, 1776")),
    Exercise(2, Reading, Some("The Bill of Rights")),
    Exercise(3, Reading, Some("Three"))
  ]
  const WritingExercises: seq<Exercise> := [
    Exercise(4, Writing, None), Exercise(5, Writing, None), Exercise(6, Writing, None)
  ]
  const VocabularyExercises: seq<Exercise> := [
    Exercise(7, Vocabulary, Some("Government by the people")),
    Exercise(8, Vocabulary, Some("A change or addition to the Constitution")),
    Exercise(9, Vocabulary, Some("A person who belongs to a country and has rights and responsibilities")),
    Exercise(10, Vocabulary, Some("Freedom"))
  ]
  const Exercises: seq<Exercise> := ReadingExercises + WritingExercises + VocabularyExercises

  /** `filteredExercises`: the exercises of one section, in list order. */
  function Filter(exercises: seq<Exercise>, section: Section): (r: seq<Exercise>)
    ensures forall e :: e in r <==> e in exercises && e.kind == section
    ensures |r| <= |exercises|
  {
    KeepMembers(exercises, InSection(section));
    Keep(exercises, InSection(section))
  }

  function InSection(section: Section): Exercise -> bool {
    (e: Exercise) => e.kind == section
  }

  /** The comparison of `handleAnswer`: after lower-casing and trimming, the
      answer equals the key or occurs inside the (untrimmed) lower-cased key. */
  /** Typing the key itself, in any letter case, is always correct, and a
      correct answer, once trimmed, is never longer than the key. */
  predicate Correct(answer: string, key: string)
    ensures Lower(answer) == Lower(key) ==> Correct(answer, key)
    ensures Correct(answer, key) ==> |Trim(Lower(answer))| <= |key|
  {
    Trim(Lower(answer)) == Trim(Lower(key)) || Contains(Lower(key), Trim(Lower(answer)))
  }

  /** Whether a first submission earns a point: an exercise with a
      non-empty key is checked with `Correct`, any other is credited for the
      attempt (an empty key is falsy and counts as no key). */
  predicate Credited(answer: string, key: Option<string>)
    ensures (key.None? || key.value == "") ==> Credited(answer, key)
    ensures key.Some? && Lower(answer) == Lower(key.value) ==> Credited(answer, key)
    ensures key.Some? && key.value != "" && |Trim(Lower(answer))| > |key.value| ==> !Credited(answer, key)
  {
    if key.Some? && key.value != "" then Correct(answer, key.value) else true
  }

  lemma LowerPadded(s: string)
    ensures Lower([' '] + s + [' ']) == [' '] + Lower(s) + [' ']
  {
  }

  /** White space typed around an answer never changes the verdict. */
  lemma PaddingIgnored(answer: string, key: string)
    ensures Correct([' '] + answer + [' '], key) <==> Correct(answer, key)
  {
    LowerPadded(answer);
    TrimPadded(Lower(answer));
  }

  class Practice {
    /** The exercise list (the component's own is `Exercises`). */
    const exercises: seq<Exercise>
    var section: Section
    var current: int
    var userAnswer: string
    var showAnswer: bool
    var score: int
    var completed: seq<int>
    /** The ids that earned a point; the score counts them. */
    ghost var credited: set<int>

    function Filtered(): seq<Exercise>
      reads this
    {
      Filter(exercises, section)
    }

    /** The index stays on an exercise of the section when it has one, no
        id is completed twice, and the score counts distinct completed ids. */
    ghost predicate Valid()
      reads this
    {
      0 <= current && (|Filtered()| == 0 ==> current == 0) && (|Filtered()| > 0 ==> current < |Filtered()|)
      && Distinct(completed) && credited <= Elements(completed) && score == |credited|
    }

    constructor(exercises: seq<Exercise>)
      ensures Valid() && this.exercises == exercises && section == Reading
      ensures current == 0 && userAnswer == "" && !showAnswer && score == 0 && completed == []
    {
      this.exercises := exercises;
      section := Reading;
      current := 0;
      userAnswer := "";
      showAnswer := false;
      score := 0;
      completed := [];
      credited := {};
    }

    /** `progress`: the share of the section reached, in percent. */
    function Progress(): (p: real)
      reads this
      requires Valid() && |Filtered()| > 0
      ensures 0.0 < p <= 100.0
    {
      var reached := (current + 1) as real;
      var total := |Filtered()| as real;
      assert reached / total <= 1.0 by {
        assert reached <= total;
      }
      reached / total * 100.0
    }

    /** `handleAnswer`: show the feedback; on the first submission for this
        exercise record its id and add a point when it is credited. */
    method HandleAnswer(answer: string)
      requires Valid() && |Filtered()| > 0
      modifies this
      ensures Valid()
      ensures userAnswer == answer && showAnswer
      ensures section == old(section) && current == old(current)
      ensures old(Filtered()[current].id) in old(completed) ==>
                completed == old(completed) && score == old(score)
      ensures old(Filtered()[current].id) !in old(completed) ==>
                completed == old(completed) + [old(Filtered()[current].id)]
                && score == old(score) + (if Credited(answer, old(Filtered()[current].correctAnswer)) then 1 else 0)
    {
      userAnswer := answer;
      showAnswer := true;
      var e := Filtered()[current];
      if e.id !in completed {
        DistinctAppend(completed, e.id);
        completed := completed + [e.id];
        if Credited(answer, e.correctAnswer) {
          score := score + 1;
          credited := credited + {e.id};
        }
      }
    }

    /** `nextExercise`: forward while not on the last exercise. */
    method Next()
      requires Valid()
      modifies this
      ensures Valid()
      ensures old(current) < |Filtered()| - 1 ==> current == old(current) + 1 && userAnswer == "" && !showAnswer
      ensures old(current) >= |Filtered()| - 1 ==>
                current == old(current) && userAnswer == old(userAnswer) && showAnswer == old(showAnswer)
      ensures section == old(section) && score == old(score) && completed == old(completed)
    {
      if current < |Filtered()| - 1 {
        current := current + 1;
        userAnswer := "";
        showAnswer := false;
      }
    }

    /** `previousExercise`: back while not on the first exercise. */
    method Previous()
      requires Valid()
      modifies this
      ensures Valid()
      ensures old(current) > 0 ==> current == old(current) - 1 && userAnswer == "" && !showAnswer
      ensures old(current) == 0 ==> current == 0 && userAnswer == old(userAnswer) && showAnswer == old(showAnswer)
      ensures section == old(section) && score == old(score) && completed == old(completed)
    {
      if current > 0 {
        current := current - 1;
        userAnswer := "";
        showAnswer := false;
      }
    }

    /** `resetSection`. */
    method Reset()
      modifies this
      ensures Valid()
      ensures current == 0 && userAnswer == "" && !showAnswer && score == 0 && completed == []
      ensures section == old(section)
    {
      current := 0;
      userAnswer := "";
      showAnswer := false;
      score := 0;
      completed := [];
      credited := {};
    }

    /** A section button as the component writes it: `setCurrentSection`
        alone; the reset only follows from an effect after the next render. */
    method SetSectionAsWritten(s: Section)
      modifies this
      ensures section == s
      ensures current == old(current) && score == old(score) && completed == old(completed)
      ensures userAnswer == old(userAnswer) && showAnswer == old(showAnswer) && credited == old(credited)
    {
      section := s;
    }

    /** A section switch that resets in the same step, so the next render
        already sees an index inside the new section. */
    method SelectSection(s: Section)
      modifies this
      ensures Valid() && section == s
      ensures current == 0 && userAnswer == "" && !showAnswer && score == 0 && completed == []
    {
      section := s;
      Reset();
    }
  }

  /** The render after `SetSectionAsWritten` can index past the section:
      on the last vocabulary exercise (index 3), switching to reading keeps
      index 3 while reading has three exercises, so `currentEx` is
      undefined and the page dereferences it. */
  lemma StaleIndexAfterSwitch()
    ensures |Filter(Exercises, Vocabulary)| == 4
    ensures |Filter(Exercises, Reading)| == 3
  {
    SectionBlocks();
  }

  /** The same stale index on the practice itself: three steps forward
      through vocabulary, then the reading button as written, leaves the
      index on a fourth exercise that reading does not have. */
  method StalePracticeAfterSwitch() returns (p: Practice)
    ensures p.section == Reading && p.current == 3
    ensures |p.Filtered()| == 3
  {
    SectionBlocks();
    p := new Practice(Exercises);
    p.SelectSection(Vocabulary);
    p.Next();
    p.Next();
    p.Next();
    p.SetSectionAsWritten(Reading);
  }

  /** The reading and vocabulary exercises of the list are exactly its
      first and last blocks. */
  lemma SectionBlocks()
    ensures Filter(Exercises, Reading) == ReadingExercises
    ensures Filter(Exercises, Vocabulary) == VocabularyExercises
  {
    BlockKinds();
    BlockKeep(ReadingExercises, WritingExercises, VocabularyExercises, Reading, true);
    BlockKeep(ReadingExercises, WritingExercises, VocabularyExercises, Vocabulary, false);
  }

  lemma BlockKinds()
    ensures forall e :: e in ReadingExercises ==> e.kind == Reading
    ensures forall e :: e in WritingExercises ==> e.kind == Writing
    ensures forall e :: e in VocabularyExercises ==> e.kind == Vocabulary
  {
  }

  /** Filtering a list of three blocks by a section that only the first
      (`first`) or only the last block holds yields that block. */
  lemma BlockKeep(a: seq<Exercise>, b: seq<Exercise>, c: seq<Exercise>, s: Section, first: bool)
    requires forall e :: e in (if first then a else c) ==> e.kind == s
    requires forall e :: e in b + (if first then c else a) ==> e.kind != s
    ensures Keep(a + b + c, InSection(s)) == if first then a else c
  {
    var p := InSection(s);
    KeepAppend(a + b, c, p);
    KeepAppend(a, b, p);
    KeepNone(b, p);
    if first {
      KeepAll(a, p);
      KeepNone(c, p);
    } else {
      KeepNone(a, p);
      KeepAll(c, p);
    }
  }
}
