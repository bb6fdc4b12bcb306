/** The speaking practice (`src/components/SpeakingTest.tsx`): the accuracy
    of a transcript against an exercise, the feedback band it falls in, and
    a score that counts each exercise at most once. The transcript is an
    input; the browser's speech recognition and synthesis are not modelled. */
module SpeakingTest {
  import opened Basics
  import opened Text

  datatype Section = Pronunciation | ReadingAloud | Conversation

  /** An exercise as far as scoring goes: its id, section, text and, for
      pronunciation drills, the words to be heard. */
  datatype Exercise = Exercise(id: int, kind: Section, text: string, targetWords: Option<seq<string>>)

  function InSection(section: Section): Exercise -> bool {
    (e: Exercise) => e.kind == section
  }

  /** `filteredExercises`: the exercises of one section, in list order. */
  function Filter(exercises: seq<Exercise>, section: Section): (r: seq<Exercise>)
    ensures forall e :: e in r <==> e in exercises && e.kind == section
    ensures |r| <= |exercises|
  {
    KeepMembers(exercises, InSection(section));
    Keep(exercises, InSection(section))
  }

  /** `k / n * 100` for a count out of a non-zero total. */
  function Percent(k: nat, n: nat): (p: real)
    requires k <= n && n > 0
    ensures 0.0 <= p <= 100.0
    ensures p == 100.0 <==> k == n
  {
    assert k as real / n as real <= 1.0;
    assert k < n ==> k as real / n as real < 1.0;
    k as real / n as real * 100.0
  }

  /** The target words whose lower-cased form occurs in the (lower-cased)
      transcript. */
  function SaidBy(spoken: string): string -> bool {
    (w: string) => Contains(spoken, Lower(w))
  }

  function MissedBy(spoken: string): string -> bool {
    (w: string) => !Contains(spoken, Lower(w))
  }

  function InWords(words: seq<string>): string -> bool {
    (w: string) => w in words
  }

  /** Whether an exercise is scored word by word against its target list
      (a present list, even an empty one, is truthy). */
  predicate ByTargets(e: Exercise) {
    e.kind == Pronunciation && e.targetWords.Some?
  }

  /** `accuracy` of `analyzeSpeech`: the share of target words heard in the
      transcript, or else the share of the text's space-separated words that
      are among the transcript's words. */
  function Accuracy(e: Exercise, spokenText: string): (a: Number)
    ensures a.NaN? <==> ByTargets(e) && e.targetWords.value == []
    ensures a.Num? ==> 0.0 <= a.value <= 100.0
  {
    var spoken := Lower(spokenText);
    if ByTargets(e) then
      var targets := e.targetWords.value;
      if |targets| == 0 then NaN
      else Num(Percent(|Keep(targets, SaidBy(spoken))|, |targets|))
    else
      var words := Split(Lower(e.text), ' ');
      Num(Percent(|Keep(words, InWords(Split(spoken, ' ')))|, |words|))
  }

  /** Saying more never lowers a pronunciation score: every target heard in
      a transcript is still heard once words are added to it. */
  lemma MoreSpeechNeverHurts(e: Exercise, spoken: string, more: string)
    requires ByTargets(e) && e.targetWords.value != []
    ensures Accuracy(e, spoken).value <= Accuracy(e, spoken + more).value
  {
    var targets := e.targetWords.value;
    LowerAppend(spoken, more);
    forall w | w in targets && SaidBy(Lower(spoken))(w) ensures SaidBy(Lower(spoken + more))(w) {
      ContainsExtend(Lower(spoken), Lower(more), Lower(w));
    }
    KeepWeaker(targets, SaidBy(Lower(spoken)), SaidBy(Lower(spoken + more)));
    PercentMonotone(|Keep(targets, SaidBy(Lower(spoken)))|, |Keep(targets, SaidBy(Lower(spoken + more)))|, |targets|);
  }

  lemma PercentMonotone(k: nat, m: nat, n: nat)
    requires k <= m <= n && n > 0
    ensures Percent(k, n) <= Percent(m, n)
  {
    var a, b := k as real / n as real, m as real / n as real;
    assert a * n as real == k as real && b * n as real == m as real;
    assert (b - a) * n as real >= 0.0;
  }

  /** Reading the text back word for word scores 100 on a reading or
      conversation exercise. */
  lemma ReadingBackScoresFull(e: Exercise, spoken: string)
    requires !ByTargets(e) && Lower(spoken) == Lower(e.text)
    ensures Accuracy(e, spoken) == Num(100.0)
  {
    var words := Split(Lower(e.text), ' ');
    KeepAll(words, InWords(words));
  }

  /** A pronunciation drill scores 100 exactly when every target word is
      heard. */
  lemma AllTargetsHeard(e: Exercise, spoken: string)
    requires ByTargets(e) && e.targetWords.value != []
    ensures Accuracy(e, spoken) == Num(100.0) <==>
            forall w :: w in e.targetWords.value ==> Contains(Lower(spoken), Lower(w))
  {
    var targets := e.targetWords.value;
    var heard := SaidBy(Lower(spoken));
    if forall w :: w in targets ==> Contains(Lower(spoken), Lower(w)) {
      KeepAll(targets, heard);
    } else {
      var w :| w in targets && !Contains(Lower(spoken), Lower(w));
      KeepShorter(targets, heard, w);
    }
  }

  /** The message shown after an attempt; the texts of the component's
      messages are the constructors' names. */
  datatype Feedback =
    | Excellent(heard: nat, total: nat)
    | FocusOn(missed: seq<string>)
    | KeepPracticingEachWord
    | GreatJob
    | GoodEffort
    | KeepPracticingClearly

  /** The message of `analyzeSpeech` for an attempt. */
  function FeedbackFor(e: Exercise, spokenText: string): (f: Feedback)
    ensures f.FocusOn? ==> ByTargets(e)
  {
    var accuracy := Accuracy(e, spokenText);
    var spoken := Lower(spokenText);
    if ByTargets(e) then
      var targets := e.targetWords.value;
      if AtLeast(accuracy, 80.0) then Excellent(|Keep(targets, SaidBy(spoken))|, |targets|)
      else if AtLeast(accuracy, 60.0) then FocusOn(Keep(targets, MissedBy(spoken)))
      else KeepPracticingEachWord
    else if AtLeast(accuracy, 70.0) then GreatJob
    else if AtLeast(accuracy, 50.0) then GoodEffort
    else KeepPracticingClearly
  }

  /** The feedback bands: 80 and 60 for pronunciation drills, 70 and 50
      otherwise; a NaN accuracy falls below every band. The middle band of a
      drill names exactly the target words not heard. */
  lemma FeedbackBands(e: Exercise, spokenText: string)
    ensures var a, f := Accuracy(e, spokenText), FeedbackFor(e, spokenText);
            (ByTargets(e) ==> (f.Excellent? <==> AtLeast(a, 80.0))
                              && (f.FocusOn? <==> AtLeast(a, 60.0) && !AtLeast(a, 80.0))
                              && (f == KeepPracticingEachWord <==> !AtLeast(a, 60.0)))
            && (!ByTargets(e) ==> (f == GreatJob <==> AtLeast(a, 70.0))
                                  && (f == GoodEffort <==> AtLeast(a, 50.0) && !AtLeast(a, 70.0))
                                  && (f == KeepPracticingClearly <==> !AtLeast(a, 50.0)))
    ensures var f := FeedbackFor(e, spokenText);
            f.FocusOn? ==> forall w :: w in f.missed <==> w in e.targetWords.value && !Contains(Lower(spokenText), Lower(w))
  {
    if ByTargets(e) {
      KeepMembers(e.targetWords.value, MissedBy(Lower(spokenText)));
    }
  }

  /** A NaN accuracy (a drill with an empty target list) is never credited
      and always told to keep practising. */
  lemma EmptyTargetsNeverScore(e: Exercise, spokenText: string)
    requires ByTargets(e) && e.targetWords.value == []
    ensures !Passes(e, spokenText)
    ensures FeedbackFor(e, spokenText) == KeepPracticingEachWord
  {
  }

  /** An attempt earns a point when its accuracy is at least 60 (never when
      it is NaN). */
  predicate Passes(e: Exercise, spokenText: string) {
    AtLeast(Accuracy(e, spokenText), 60.0)
  }

  /** A drill whose every target is heard always earns its point, and so
      does reading the text back on any other exercise. */
  lemma PassingAttempts(e: Exercise, spokenText: string)
    ensures ByTargets(e) && e.targetWords.value != []
            && (forall w :: w in e.targetWords.value ==> Contains(Lower(spokenText), Lower(w)))
            ==> Passes(e, spokenText)
    ensures !ByTargets(e) && Lower(spokenText) == Lower(e.text) ==> Passes(e, spokenText)
  {
    if ByTargets(e) && e.targetWords.value != [] {
      AllTargetsHeard(e, spokenText);
    } else if !ByTargets(e) && Lower(spokenText) == Lower(e.text) {
      ReadingBackScoresFull(e, spokenText);
    }
  }

  class Practice {
    const exercises: seq<Exercise>
    var section: Section
    var current: int
    var transcript: string
    /** The feedback line; none while it is the empty string. */
    var feedback: Option<Feedback>
    var score: int
    var completed: seq<int>
    /** The ids that earned a point; the score counts them. */
    ghost var credited: set<int>

    function Filtered(): seq<Exercise>
      reads this
    {
      Filter(exercises, section)
    }

    /** The index stays on an exercise of the section when it has one, no
        id is completed twice, and the score counts distinct completed ids. */
    ghost predicate Valid()
      reads this
    {
      0 <= current && (|Filtered()| == 0 ==> current == 0) && (|Filtered()| > 0 ==> current < |Filtered()|)
      && Distinct(completed) && credited <= Elements(completed) && score == |credited|
    }

    constructor(exercises: seq<Exercise>)
      ensures Valid() && this.exercises == exercises && section == Pronunciation
      ensures current == 0 && transcript == "" && feedback == None && score == 0 && completed == []
    {
      this.exercises := exercises;
      section := Pronunciation;
      current := 0;
      transcript := "";
      feedback := None;
      score := 0;
      completed := [];
      credited := {};
    }

    /** `analyzeSpeech`: show the feedback; on the first attempt at this
        exercise record its id and add a point when the accuracy is at
        least 60. */
    method AnalyzeSpeech(spokenText: string)
      requires Valid() && |Filtered()| > 0
      modifies this
      ensures Valid()
      ensures feedback == Some(FeedbackFor(old(Filtered()[current]), spokenText))
      ensures section == old(section) && current == old(current) && transcript == old(transcript)
      ensures old(Filtered()[current].id) in old(completed) ==>
                completed == old(completed) && score == old(score)
      ensures old(Filtered()[current].id) !in old(completed) ==>
                completed == old(completed) + [old(Filtered()[current].id)]
                && score == old(score) + (if Passes(old(Filtered()[current]), spokenText) then 1 else 0)
    {
      var e := Filtered()[current];
      feedback := Some(FeedbackFor(e, spokenText));
      Complete(e.id, Passes(e, spokenText));
    }

    /** The bookkeeping of a first attempt: record the id once and count a
        point for it when it was earned. */
    method Complete(id: int, earned: bool)
      requires Valid()
      modifies this
      ensures Valid()
      ensures section == old(section) && current == old(current)
      ensures transcript == old(transcript) && feedback == old(feedback)
      ensures id in old(completed) ==> completed == old(completed) && score == old(score)
      ensures id !in old(completed) ==>
                completed == old(completed) + [id] && score == old(score) + (if earned then 1 else 0)
    {
      if id !in completed {
        DistinctAppend(completed, id);
        completed := completed + [id];
        if earned {
          score := score + 1;
          credited := credited + {id};
        }
      }
    }

    /** The recogniser's `onresult`: keep the transcript, then analyse it. */
    method OnResult(speechResult: string)
      requires Valid() && |Filtered()| > 0
      modifies this
      ensures Valid()
      ensures transcript == speechResult
      ensures feedback == Some(FeedbackFor(old(Filtered()[current]), speechResult))
      ensures section == old(section) && current == old(current)
      ensures old(Filtered()[current].id) !in old(completed) ==>
                completed == old(completed) + [old(Filtered()[current].id)]
                && score == old(score) + (if Passes(old(Filtered()[current]), speechResult) then 1 else 0)
      ensures old(Filtered()[current].id) in old(completed) ==>
                completed == old(completed) && score == old(score)
    {
      transcript := speechResult;
      AnalyzeSpeech(speechResult);
    }

    /** `nextExercise`: forward while not on the last exercise. */
    method Next()
      requires Valid()
      modifies this
      ensures Valid()
      ensures old(current) < |Filtered()| - 1 ==> current == old(current) + 1 && transcript == "" && feedback == None
      ensures old(current) >= |Filtered()| - 1 ==>
                current == old(current) && transcript == old(transcript) && feedback == old(feedback)
      ensures section == old(section) && score == old(score) && completed == old(completed)
    {
      if current < |Filtered()| - 1 {
        current := current + 1;
        transcript := "";
        feedback := None;
      }
    }

    /** `previousExercise`: back while not on the first exercise. */
    method Previous()
      requires Valid()
      modifies this
      ensures Valid()
      ensures old(current) > 0 ==> current == old(current) - 1 && transcript == "" && feedback == None
      ensures old(current) == 0 ==> current == 0 && transcript == old(transcript) && feedback == old(feedback)
      ensures section == old(section) && score == old(score) && completed == old(completed)
    {
      if current > 0 {
        current := current - 1;
        transcript := "";
        feedback := None;
      }
    }

    /** `resetSection`. */
    method Reset()
      modifies this
      ensures Valid()
      ensures current == 0 && transcript == "" && feedback == None && score == 0 && completed == []
      ensures section == old(section)
    {
      current := 0;
      transcript := "";
      feedback := None;
      score := 0;
      completed := [];
      credited := {};
    }

    /** A section button followed by the reset its effect performs. */
    method SelectSection(s: Section)
      modifies this
      ensures Valid() && section == s
      ensures current == 0 && transcript == "" && feedback == None && score == 0 && completed == []
    {
      section := s;
      Reset();
    }
  }
}
