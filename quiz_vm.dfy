/** The daily quiz's view model (QuizViewModel.kt): building a true/false or a
    multiple-choice question from a handful of dictionary entries, and
    grading the answer.

    Every random draw (`random()`, `Random.nextBoolean()`, `shuffled()`) is a
    parameter (`Draws`): a list's `random()` takes the raw number modulo the
    list's size and throws on an empty list, which the catch in
    `loadNewQuiz` turns into an `Error` state. */
module QuizVM {
  import opened Common
  import W = Writer

  /** `DictionaryEntryDetail`: an entry with the rows the DAO returns for it. */
  datatype EntryDetail = EntryDetail(
    entry: W.DictionaryEntryRow,
    kanji: seq<W.KanjiRow>,
    readings: seq<W.ReadingRow>,
    senses: seq<W.SenseRow>,
    examples: seq<W.ExampleRow>)

  /** The multiple-choice form's `isCorrect` is `isCorrectChoice` here: a
      field name shared by two constructors must have one type, and the
      true/false form's is a plain Boolean. */
  datatype QuizState =
    | Loading
    | Error(message: string)
    | TrueFalseQuiz(entry: EntryDetail, displayMeaning: string, isCorrect: bool, isAnswered: bool,
                    correctMeaning: string)
    | MultipleChoiceQuiz(entry: EntryDetail, choices: seq<string>, correctAnswer: int, isAnswered: bool,
                         selectedAnswer: Option<int>, isCorrectChoice: Option<bool>)

  datatype QuizType = TrueFalse | MultipleChoice

  /** `QuizType.entries`, in declaration order. */
  const QUIZ_TYPES: seq<QuizType> := [TrueFalse, MultipleChoice]

  /** The message of the exception `random()` throws on an empty collection. */
  const EMPTY_COLLECTION := "Collection is empty."

  /** The random numbers one call of `generateNewQuiz` consumes: the correct
      entry, the quiz type, the correct entry's gloss, the wrong entry and its
      gloss (true/false), the coin, the gloss of the `k`-th other entry
      (multiple choice) and the order `shuffled()` puts the choices in. */
  datatype Draws = Draws(
    entry: nat, quizType: nat, correctGloss: nat, wrongEntry: nat, wrongGloss: nat,
    isMeaningCorrect: bool, otherGloss: nat -> nat, shuffle: seq<nat>)

  /** `random()` on a list, given the raw number drawn. */
  function Pick<T>(s: seq<T>, draw: nat): (r: Option<T>)
    ensures r.None? <==> s == []
    ensures r.Some? ==> r.value in s
  {
    if s == [] then None else Some(s[draw % |s|])
  }

  /** `senses.flatMap { it.glosses }` */
  function Glosses(d: EntryDetail): seq<string>
  {
    FlatMap(d.senses, (s: W.SenseRow) => s.glosses)
  }

  /** `getRandomGloss()` */
  function RandomGloss(d: EntryDetail, draw: nat): (r: Option<string>)
    ensures r.None? <==> Glosses(d) == []
    ensures r.Some? ==> r.value in Glosses(d)
  {
    Pick(Glosses(d), draw)
  }

  // ---------------------------------------------------------------------------
  // Building a question
  // ---------------------------------------------------------------------------

  /** `currentEntries.filter { it != correctEntry }`, by the data class's
      structural equality. */
  function OtherEntries(entries: seq<EntryDetail>, correct: EntryDetail): (r: seq<EntryDetail>)
    ensures forall e :: e in r <==> e in entries && e != correct
    ensures r == [] <==> forall k :: 0 <= k < |entries| ==> entries[k] == correct
  {
    if forall k :: 0 <= k < |entries| ==> entries[k] == correct then
      FilterNone(entries, (e: EntryDetail) => e != correct);
      Filter(entries, (e: EntryDetail) => e != correct)
    else
      var k :| 0 <= k < |entries| && entries[k] != correct;
      assert entries[k] in entries;
      Filter(entries, (e: EntryDetail) => e != correct)
  }

  function TrueFalseQuizFor(entries: seq<EntryDetail>, correct: EntryDetail, r: Draws): QuizState
  {
    match RandomGloss(correct, r.correctGloss)
    case None => Error(EMPTY_COLLECTION)
    case Some(correctMeaning) =>
      match Pick(OtherEntries(entries, correct), r.wrongEntry)
      case None => Error(EMPTY_COLLECTION)
      case Some(wrong) =>
        match RandomGloss(wrong, r.wrongGloss)
        case None => Error(EMPTY_COLLECTION)
        case Some(wrongMeaning) =>
          TrueFalseQuiz(correct, if r.isMeaningCorrect then correctMeaning else wrongMeaning,
                        r.isMeaningCorrect, false, correctMeaning)
  }

  /** The choices before shuffling: `correctMeaning` for every entry equal to
      the correct one, a random gloss of every other entry; `None` when one of
      those has no gloss to draw. */
  function Meanings(entries: seq<EntryDetail>, correct: EntryDetail, correctMeaning: string,
                    otherGloss: nat -> nat): (r: Option<seq<string>>)
    ensures r.None? <==> exists k :: 0 <= k < |entries| && entries[k] != correct && Glosses(entries[k]) == []
    ensures r.Some? ==> (|r.value| == |entries| &&
      forall k :: 0 <= k < |entries| ==>
        if entries[k] == correct then r.value[k] == correctMeaning
        else RandomGloss(entries[k], otherGloss(k)) == Some(r.value[k]))
    decreases |entries|
  {
    if entries == [] then Some([])
    else
      var p, e := entries[..|entries| - 1], entries[|entries| - 1];
      assert forall k :: 0 <= k < |p| ==> p[k] == entries[k];
      match Meanings(p, correct, correctMeaning, otherGloss)
      case None => None
      case Some(ms) =>
        if e == correct then Some(ms + [correctMeaning])
        else
          match RandomGloss(e, otherGloss(|p|))
          case None => None
          case Some(g) => Some(ms + [g])
  }

  /** `perm` is a rearrangement of the positions 0..n-1. */
  predicate IsPermutationOf(perm: seq<nat>, n: nat)
  {
    multiset(perm) == multiset(Positions(n))
  }

  function Positions(n: nat): (r: seq<nat>)
    ensures |r| == n && forall k :: 0 <= k < n ==> r[k] == k
  {
    seq(n, k => k)
  }

  /** `shuffled()`, given the permutation it drew. */
  function Permute<T>(s: seq<T>, perm: seq<nat>): (r: seq<T>)
    requires IsPermutationOf(perm, |s|)
    ensures |r| == |s|
  {
    PermutationInRange(perm, |s|);
    seq(|s|, j requires 0 <= j < |s| => s[perm[j]])
  }

  lemma PermutationInRange(perm: seq<nat>, n: nat)
    requires IsPermutationOf(perm, n)
    ensures |perm| == n && forall j :: 0 <= j < |perm| ==> perm[j] < n
  {
    var ps := Positions(n);
    assert |perm| == |multiset(perm)| == |multiset(ps)| == n;
    forall j | 0 <= j < |perm| ensures perm[j] < n {
      assert perm[j] in multiset(perm);
      assert perm[j] in ps;
    }
  }

  /** Shuffling neither loses nor invents an element. */
  lemma {:induction false} PermuteMembers<T>(s: seq<T>, perm: seq<nat>)
    requires IsPermutationOf(perm, |s|)
    ensures forall x :: x in Permute(s, perm) <==> x in s
  {
    var r := Permute(s, perm);
    PermutationInRange(perm, |s|);
    forall x | x in s ensures x in r {
      var i :| 0 <= i < |s| && s[i] == x;
      assert Positions(|s|)[i] == i;
      assert i in multiset(perm);
      var j :| 0 <= j < |perm| && perm[j] == i;
      assert r[j] == x;
    }
  }

  function MultipleChoiceQuizFor(entries: seq<EntryDetail>, correct: EntryDetail, r: Draws): QuizState
    requires IsPermutationOf(r.shuffle, |entries|)
  {
    match RandomGloss(correct, r.correctGloss)
    case None => Error(EMPTY_COLLECTION)
    case Some(correctMeaning) =>
      match Meanings(entries, correct, correctMeaning, r.otherGloss)
      case None => Error(EMPTY_COLLECTION)
      case Some(meanings) =>
        var choices := Permute(meanings, r.shuffle);
        MultipleChoiceQuiz(correct, choices, IndexOf(choices, correctMeaning), false, None, None)
  }

  /** The state `generateNewQuiz` leaves, `Error` included when a draw hits an
      empty list. */
  function NewQuiz(entries: seq<EntryDetail>, r: Draws): QuizState
    requires IsPermutationOf(r.shuffle, |entries|)
  {
    match Pick(entries, r.entry)
    case None => Error(EMPTY_COLLECTION)
    case Some(correct) =>
      if QUIZ_TYPES[r.quizType % |QUIZ_TYPES|] == TrueFalse then TrueFalseQuizFor(entries, correct, r)
      else MultipleChoiceQuizFor(entries, correct, r)
  }

  /** A new true/false question is unanswered, its `isCorrect` is the coin,
      and it shows the correct meaning on heads and a gloss of a different
      entry on tails. */
  lemma NewTrueFalseQuizFacts(entries: seq<EntryDetail>, r: Draws)
    requires IsPermutationOf(r.shuffle, |entries|)
    ensures var s := NewQuiz(entries, r);
      s.TrueFalseQuiz? ==>
        s.entry in entries && !s.isAnswered && s.isCorrect == r.isMeaningCorrect &&
        RandomGloss(s.entry, r.correctGloss) == Some(s.correctMeaning) &&
        (s.isCorrect ==> s.displayMeaning == s.correctMeaning) &&
        (!s.isCorrect ==> exists e :: e in entries && e != s.entry && s.displayMeaning in Glosses(e))
  {
  }

  /** A new multiple-choice question has one choice per entry, the correct
      meaning among them at `correctAnswer`, its first position, and no
      answer yet; every other choice is a gloss of an entry other than the
      correct one. */
  lemma NewMultipleChoiceQuizFacts(entries: seq<EntryDetail>, r: Draws)
    requires IsPermutationOf(r.shuffle, |entries|)
    ensures var s := NewQuiz(entries, r);
      s.MultipleChoiceQuiz? ==>
        s.entry in entries && |s.choices| == |entries| &&
        0 <= s.correctAnswer < |s.choices| &&
        RandomGloss(s.entry, r.correctGloss) == Some(s.choices[s.correctAnswer]) &&
        (forall k :: 0 <= k < s.correctAnswer ==> s.choices[k] != s.choices[s.correctAnswer]) &&
        !s.isAnswered && s.selectedAnswer.None? && s.isCorrectChoice.None?
    ensures var s := NewQuiz(entries, r);
      s.MultipleChoiceQuiz? ==>
        forall c :: c in s.choices ==>
          c == s.choices[s.correctAnswer] || exists e :: e in OtherEntries(entries, s.entry) && c in Glosses(e)
  {
    var s := NewQuiz(entries, r);
    if s.MultipleChoiceQuiz? {
      var correct := Pick(entries, r.entry).value;
      var cm := RandomGloss(correct, r.correctGloss).value;
      var ms := Meanings(entries, correct, cm, r.otherGloss).value;
      var i :| 0 <= i < |entries| && entries[i] == correct;
      assert ms[i] == cm && cm in ms;
      PermuteMembers(ms, r.shuffle);
      forall c | c in s.choices
        ensures c == cm || exists e :: e in OtherEntries(entries, correct) && c in Glosses(e)
      {
        var k :| 0 <= k < |ms| && ms[k] == c;
        if entries[k] != correct {
          assert entries[k] in OtherEntries(entries, correct);
        }
      }
    }
  }

  /** When the question cannot be built: with no entries at all; for a
      true/false question, whatever the coin, exactly when the chosen entry
      has no gloss, no other entry exists (a single entry, say) or the drawn
      other entry has no gloss; for a multiple-choice question exactly when
      some entry has no gloss. The message is always that of the empty
      collection. */
  lemma NewQuizErrors(entries: seq<EntryDetail>, r: Draws)
    requires IsPermutationOf(r.shuffle, |entries|)
    ensures NewQuiz(entries, r).Error? ==> NewQuiz(entries, r).message == EMPTY_COLLECTION
    ensures entries == [] ==> NewQuiz(entries, r).Error?
    ensures entries != [] && QUIZ_TYPES[r.quizType % |QUIZ_TYPES|] == TrueFalse ==>
      var correct := entries[r.entry % |entries|];
      var others := OtherEntries(entries, correct);
      (NewQuiz(entries, r).Error? <==>
         || Glosses(correct) == []
         || others == []
         || Glosses(others[r.wrongEntry % |others|]) == [])
    ensures (entries != [] && QUIZ_TYPES[r.quizType % |QUIZ_TYPES|] == TrueFalse &&
      forall k :: 0 <= k < |entries| ==> entries[k] == entries[0]) ==> NewQuiz(entries, r).Error?
    ensures entries != [] && QUIZ_TYPES[r.quizType % |QUIZ_TYPES|] == MultipleChoice ==>
      (NewQuiz(entries, r).Error? <==> exists k :: 0 <= k < |entries| && Glosses(entries[k]) == [])
  {
    if entries != [] {
      var correct := Pick(entries, r.entry).value;
      if forall k :: 0 <= k < |entries| ==> entries[k] == entries[0] {
        assert correct == entries[0];
      }
      if QUIZ_TYPES[r.quizType % |QUIZ_TYPES|] == MultipleChoice {
        if exists k :: 0 <= k < |entries| && Glosses(entries[k]) == [] {
          var k :| 0 <= k < |entries| && Glosses(entries[k]) == [];
          if entries[k] == correct {
            assert RandomGloss(correct, r.correctGloss).None?;
          }
        }
      }
    }
  }

  // ---------------------------------------------------------------------------
  // Grading
  // ---------------------------------------------------------------------------

  /** The state after `checkAnswer(selected: Boolean)`. */
  function AnsweredTrueFalse(s: QuizState, selected: bool): QuizState
  {
    if s.TrueFalseQuiz? then s.(isAnswered := true, isCorrect := selected == s.isCorrect) else s
  }

  /** The state after `checkAnswer(selectedIndex: Int)`. */
  function AnsweredMultipleChoice(s: QuizState, selectedIndex: int): QuizState
  {
    if s.MultipleChoiceQuiz? then
      s.(isAnswered := true, selectedAnswer := Some(selectedIndex), isCorrectChoice := Some(selectedIndex == s.correctAnswer))
    else s
  }

  /** Answering a true/false question marks it answered and records whether
      the answer matched; the question itself stays. Every other state is
      left as it is. */
  lemma AnsweredTrueFalseFacts(s: QuizState, selected: bool)
    ensures var a := AnsweredTrueFalse(s, selected);
      s.TrueFalseQuiz? ==>
        a.TrueFalseQuiz? && a.isAnswered && (a.isCorrect <==> selected == s.isCorrect) &&
        a.entry == s.entry && a.displayMeaning == s.displayMeaning && a.correctMeaning == s.correctMeaning
    ensures !s.TrueFalseQuiz? ==> AnsweredTrueFalse(s, selected) == s
  {
  }

  /** Answering a multiple-choice question records the index and whether it
      is the correct one; the question itself stays. Every other state is
      left as it is. */
  lemma AnsweredMultipleChoiceFacts(s: QuizState, selectedIndex: int)
    ensures var a := AnsweredMultipleChoice(s, selectedIndex);
      s.MultipleChoiceQuiz? ==>
        a.MultipleChoiceQuiz? && a.isAnswered && a.selectedAnswer == Some(selectedIndex) &&
        a.isCorrectChoice == Some(selectedIndex == s.correctAnswer) &&
        a.entry == s.entry && a.choices == s.choices && a.correctAnswer == s.correctAnswer
    ensures !s.MultipleChoiceQuiz? ==> AnsweredMultipleChoice(s, selectedIndex) == s
  {
  }

  /** On a fresh question, "true" is the right answer exactly when the coin
      chose the correct meaning, and the right choice is the first one showing
      the correct entry's drawn gloss: a later choice with the same text is
      graded wrong. */
  lemma GradingFreshQuiz(entries: seq<EntryDetail>, r: Draws, selected: bool, selectedIndex: int)
    requires IsPermutationOf(r.shuffle, |entries|)
    ensures var s := NewQuiz(entries, r);
      s.TrueFalseQuiz? ==> (AnsweredTrueFalse(s, selected).isCorrect <==> selected == r.isMeaningCorrect)
    ensures var s := NewQuiz(entries, r);
      s.MultipleChoiceQuiz? && 0 <= selectedIndex < |s.choices| ==>
        (AnsweredMultipleChoice(s, selectedIndex).isCorrectChoice == Some(true) <==>
           RandomGloss(s.entry, r.correctGloss) == Some(s.choices[selectedIndex]) &&
           forall k :: 0 <= k < selectedIndex ==> s.choices[k] != s.choices[selectedIndex])
  {
    NewTrueFalseQuizFacts(entries, r);
    NewMultipleChoiceQuizFacts(entries, r);
  }

  // ---------------------------------------------------------------------------
  // The view model
  // ---------------------------------------------------------------------------

  class QuizViewModel {
    var quizState: QuizState
    var currentEntries: seq<EntryDetail>
    var correctEntry: Option<EntryDetail>
    var currentQuizType: QuizType

    /** The initial values; the `loadNewQuiz()` of the init block is a
        separate call here. */
    constructor ()
      ensures quizState == Loading && currentEntries == [] && correctEntry == None && currentQuizType == TrueFalse
    {
      quizState := Loading;
      currentEntries := [];
      correctEntry := None;
      currentQuizType := TrueFalse;
    }

    /** `loadNewQuiz()`, given the entries the DAO returned. */
    method LoadNewQuiz(entries: seq<EntryDetail>, r: Draws)
      requires IsPermutationOf(r.shuffle, |entries|)
      modifies this
      ensures currentEntries == entries
      ensures quizState == NewQuiz(entries, r)
      ensures entries != [] ==>
        correctEntry == Pick(entries, r.entry) && currentQuizType == QUIZ_TYPES[r.quizType % |QUIZ_TYPES|]
      ensures entries == [] ==> correctEntry == old(correctEntry) && currentQuizType == old(currentQuizType)
    {
      quizState := Loading;
      currentEntries := entries;
      GenerateNewQuiz(r);
    }

    /** `generateNewQuiz()`. The correct entry and the type are assigned before
        anything can throw, unless the entry list itself is empty. */
    method GenerateNewQuiz(r: Draws)
      requires IsPermutationOf(r.shuffle, |currentEntries|)
      modifies this`quizState, this`correctEntry, this`currentQuizType
      ensures quizState == NewQuiz(currentEntries, r)
      ensures currentEntries != [] ==>
        correctEntry == Pick(currentEntries, r.entry) && currentQuizType == QUIZ_TYPES[r.quizType % |QUIZ_TYPES|]
      ensures currentEntries == [] ==> correctEntry == old(correctEntry) && currentQuizType == old(currentQuizType)
    {
      var picked := Pick(currentEntries, r.entry);
      if picked.None? {
        quizState := Error(EMPTY_COLLECTION);
        return;
      }
      correctEntry := picked;
      currentQuizType := QUIZ_TYPES[r.quizType % |QUIZ_TYPES|];
      if currentQuizType == TrueFalse {
        quizState := TrueFalseQuizFor(currentEntries, picked.value, r);
      } else {
        quizState := MultipleChoiceQuizFor(currentEntries, picked.value, r);
      }
    }

    /** `checkAnswer(selected: Boolean)`, without the reload it schedules. */
    method CheckTrueFalseAnswer(selected: bool)
      modifies this`quizState
      ensures quizState == AnsweredTrueFalse(old(quizState), selected)
    {
      if quizState.TrueFalseQuiz? {
        quizState := quizState.(isAnswered := true, isCorrect := selected == quizState.isCorrect);
      }
    }

    /** `checkAnswer(selectedIndex: Int)`, without the reload it schedules. */
    method CheckMultipleChoiceAnswer(selectedIndex: int)
      modifies this`quizState
      ensures quizState == AnsweredMultipleChoice(old(quizState), selectedIndex)
    {
      if quizState.MultipleChoiceQuiz? {
        quizState := quizState.(isAnswered := true, selectedAnswer := Some(selectedIndex),
                                isCorrectChoice := Some(selectedIndex == quizState.correctAnswer));
      }
    }
  }
}
