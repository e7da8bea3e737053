/**
 * The typing-practice page (src/pages/TypingPractice.jsx): a course, topic
 * and subtopic are picked from a catalogue, the subtopic's exercises are
 * stepped through one at a time, and every keystroke recomputes the accuracy
 * of what has been typed against the exercise's example text.
 *
 * The catalogue is a parameter; its text does not matter here.
 */
module TypingPractice {
  import opened Wrappers

  datatype Exercise = Exercise(description: string, example: string)
  datatype Subtopic = Subtopic(name: string, exercises: seq<Exercise>)
  datatype Topic = Topic(id: string, name: string, subtopics: seq<Subtopic>)
  datatype Course = Course(title: string, topics: seq<Topic>)

  /** `topics.find(t => t.id === id)` */
  function FindTopic(topics: seq<Topic>, id: string): (r: Option<Topic>)
    ensures r.Some? ==> r.value in topics && r.value.id == id
    ensures r.None? ==> forall t :: t in topics ==> t.id != id
  {
    if topics == [] then None
    else if topics[0].id == id then Some(topics[0])
    else FindTopic(topics[1..], id)
  }

  /** `subtopics.find(st => st.name === name)` */
  function FindSubtopic(subtopics: seq<Subtopic>, name: string): (r: Option<Subtopic>)
    ensures r.Some? ==> r.value in subtopics && r.value.name == name
    ensures r.None? ==> forall st :: st in subtopics ==> st.name != name
  {
    if subtopics == [] then None
    else if subtopics[0].name == name then Some(subtopics[0])
    else FindSubtopic(subtopics[1..], name)
  }

  /** `find` returns the first topic with the id, whatever follows it. */
  lemma {:induction false} FindTopicFirst(topics: seq<Topic>, id: string, i: nat)
    requires i < |topics| && topics[i].id == id
    requires forall j :: 0 <= j < i ==> topics[j].id != id
    ensures FindTopic(topics, id) == Some(topics[i])
  {
    if i > 0 {
      FindTopicFirst(topics[1..], id, i - 1);
    }
  }

  /** `find` returns the first subtopic with the name, whatever follows it. */
  lemma {:induction false} FindSubtopicFirst(subtopics: seq<Subtopic>, name: string, k: nat)
    requires k < |subtopics| && subtopics[k].name == name
    requires forall j :: 0 <= j < k ==> subtopics[j].name != name
    ensures FindSubtopic(subtopics, name) == Some(subtopics[k])
  {
    if k > 0 {
      FindSubtopicFirst(subtopics[1..], name, k - 1);
    }
  }

  /**
   * The exercise list the page derives from its three selections: empty
   * while any selection is empty or names nothing in the catalogue.
   */
  function ExercisesFor(courseData: map<string, Course>, course: string, topic: string, subtopic: string): (r: seq<Exercise>)
    requires course == "" || course in courseData
    ensures course == "" || topic == "" || subtopic == "" ==> r == []
  {
    var topics := if course != "" then courseData[course].topics else [];
    var subtopics :=
      if topic == "" then []
      else match FindTopic(topics, topic)
        case Some(t) => t.subtopics
        case None => [];
    if subtopic == "" then []
    else match FindSubtopic(subtopics, subtopic)
      case Some(st) => st.exercises
      case None => []
  }

  /** A non-empty exercise list is that of a subtopic, named as selected, of a topic with the selected id in the selected course. */
  lemma ExercisesForSource(courseData: map<string, Course>, course: string, topic: string, subtopic: string)
    requires course == "" || course in courseData
    requires ExercisesFor(courseData, course, topic, subtopic) != []
    ensures course in courseData
    ensures exists t, st :: t in courseData[course].topics && t.id == topic
                         && st in t.subtopics && st.name == subtopic
                         && st.exercises == ExercisesFor(courseData, course, topic, subtopic)
  {
    var t := FindTopic(courseData[course].topics, topic).value;
    var st := FindSubtopic(t.subtopics, subtopic).value;
    assert st.exercises == ExercisesFor(courseData, course, topic, subtopic);
  }

  /**
   * A selection that names something in the catalogue yields the exercises
   * of the first subtopic with the selected name in the first topic with the
   * selected id.
   */
  lemma ExercisesForFirstMatch(courseData: map<string, Course>, course: string, topic: string, subtopic: string,
                               i: nat, k: nat)
    requires course != "" && course in courseData && topic != "" && subtopic != ""
    requires i < |courseData[course].topics| && courseData[course].topics[i].id == topic
    requires forall j :: 0 <= j < i ==> courseData[course].topics[j].id != topic
    requires k < |courseData[course].topics[i].subtopics|
    requires courseData[course].topics[i].subtopics[k].name == subtopic
    requires forall j :: 0 <= j < k ==> courseData[course].topics[i].subtopics[j].name != subtopic
    ensures ExercisesFor(courseData, course, topic, subtopic) == courseData[course].topics[i].subtopics[k].exercises
  {
    var t := courseData[course].topics[i];
    FindTopicFirst(courseData[course].topics, topic, i);
    FindSubtopicFirst(t.subtopics, subtopic, k);
    assert FindSubtopic(t.subtopics, subtopic) == Some(t.subtopics[k]);
  }

  // ---------------------------------------------------------------------
  // Accuracy
  // ---------------------------------------------------------------------

  /** `example.substring(0, n)`: the first `n` characters, or all of them if there are fewer. */
  function ExpectedText(example: string, n: nat): (r: string)
    ensures r <= example
    ensures |r| == if n <= |example| then n else |example|
  {
    if n <= |example| then example[..n] else example
  }

  /** `s[i]` in JavaScript: the character at `i`, or `undefined` (None) past the end. */
  function CharAt(s: string, i: nat): (c: Option<char>)
    ensures c.Some? <==> i < |s|
    ensures c.Some? ==> c.value == s[i]
  {
    if i < |s| then Some(s[i]) else None
  }

  /**
   * Position `i` of the typed text is an error: nothing is expected there, or
   * something else is. This is `value[i] !== expectedText[i]`, where reading
   * past the end of the expected text gives `undefined`.
   */
  function Mismatch(value: string, expected: string, i: int): (m: bool)
    requires 0 <= i < |value|
    ensures m <==> CharAt(value, i) != CharAt(expected, i)
  {
    i >= |expected| || value[i] != expected[i]
  }

  /** The number of errors among the first `k` typed characters. */
  function ErrorsUpTo(value: string, expected: string, k: nat): (e: nat)
    requires k <= |value|
    ensures e <= k
  {
    if k == 0 then 0
    else ErrorsUpTo(value, expected, k - 1) + (if Mismatch(value, expected, k - 1) then 1 else 0)
  }

  /** The error count the keystroke handler computes for typed text `value`. */
  function Errors(value: string, example: string): (e: nat)
    ensures e <= |value|
  {
    ErrorsUpTo(value, ExpectedText(example, |value|), |value|)
  }

  /**
   * `Math.round(100 * part / whole)`: the integer nearest to the exact
   * percentage, halves rounded up.
   */
  function RoundPercent(part: int, whole: int): (r: int)
    requires 0 <= part <= whole && whole > 0
    ensures 2 * whole * r <= 200 * part + whole < 2 * whole * (r + 1)
    ensures 0 <= r <= 100
  {
    var a, b := 200 * part + whole, 2 * whole;
    DivisionBounds(a, b);
    MulLess(b, a / b, 101);
    MulLess(b, -1, a / b + 1);
    a / b
  }

  lemma MulLess(k: int, x: int, y: int)
    requires k > 0
    ensures k * x < k * y <==> x < y
  {
    if x < y {
      assert k * y == k * x + k * (y - x);
      assert k * (y - x) > 0;
    } else {
      assert k * x == k * y + k * (x - y);
      assert k * (x - y) >= 0;
    }
  }

  lemma DivisionBounds(a: int, b: int)
    requires a >= 0 && b > 0
    ensures b * (a / b) <= a < b * (a / b + 1)
  {
    assert a == b * (a / b) + a % b;
    assert b * (a / b + 1) == b * (a / b) + b;
  }

  /**
   * The accuracy shown after typing `value`: 100 for an empty input (where
   * the division gives NaN), otherwise the rounded share of correct characters.
   */
  function Accuracy(value: string, example: string): (r: int)
    ensures 0 <= r <= 100
    ensures |value| == 0 ==> r == 100
  {
    if |value| == 0 then 100 else RoundPercent(|value| - Errors(value, example), |value|)
  }

  /** The accuracy figure the keystroke handler computes from the counting loop. */
  method MeasureAccuracy(value: string, example: string) returns (accuracy: int)
    ensures accuracy == Accuracy(value, example)
  {
    var errors := CountErrors(value, ExpectedText(example, |value|));
    accuracy := if |value| == 0 then 100 else RoundPercent(|value| - errors, |value|);
  }

  /** The counting loop of the keystroke handler. */
  method CountErrors(value: string, expected: string) returns (errors: nat)
    ensures errors == ErrorsUpTo(value, expected, |value|)
  {
    errors := 0;
    var i := 0;
    while i < |value|
      invariant 0 <= i <= |value|
      invariant errors == ErrorsUpTo(value, expected, i)
    {
      if i >= |expected| || value[i] != expected[i] {
        errors := errors + 1;
      }
      i := i + 1;
    }
  }

  /** No error among the first `k` characters exactly when none of them mismatches. */
  lemma {:induction false} ErrorsUpToZero(value: string, expected: string, k: nat)
    requires k <= |value|
    ensures ErrorsUpTo(value, expected, k) == 0 <==> forall i :: 0 <= i < k ==> !Mismatch(value, expected, i)
  {
    if k > 0 {
      ErrorsUpToZero(value, expected, k - 1);
    }
  }

  /** Every typed character past the end of the example is an error. */
  lemma {:induction false} ErrorsUpToBeyond(value: string, expected: string, k: nat)
    requires k <= |value|
    ensures ErrorsUpTo(value, expected, k) >= k - |expected|
  {
    if k > 0 {
      ErrorsUpToBeyond(value, expected, k - 1);
    }
  }

  /** Typing a prefix of the example makes no error and gives accuracy 100. */
  lemma PrefixIsAccurate(value: string, example: string)
    requires value <= example
    ensures Errors(value, example) == 0
    ensures Accuracy(value, example) == 100
  {
    var expected := ExpectedText(example, |value|);
    assert expected == value;
    ErrorsUpToZero(value, expected, |value|);
    if |value| > 0 {
      FullAccuracyIff(value, example);
    }
  }

  /** Characters typed beyond the example's length each count as an error. */
  lemma OverflowCountsAsErrors(value: string, example: string)
    ensures Errors(value, example) >= |value| - |example|
  {
    ErrorsUpToBeyond(value, ExpectedText(example, |value|), |value|);
  }

  /** Accuracy 100 is shown exactly when at most one character in 200 is wrong (99.5 rounds up). */
  lemma FullAccuracyIff(value: string, example: string)
    requires |value| > 0
    ensures Accuracy(value, example) == 100 <==> 200 * Errors(value, example) <= |value|
  {
    RoundPercentFull(|value|, Errors(value, example));
  }

  lemma RoundPercentFull(n: int, e: int)
    requires 0 <= e <= n && n > 0
    ensures RoundPercent(n - e, n) == 100 <==> 200 * e <= n
  {
    var r := RoundPercent(n - e, n);
    MulLess(2 * n, 99, r);
    MulLess(2 * n, r, 101);
  }

  // ---------------------------------------------------------------------
  // Navigation and keyboard shortcuts
  // ---------------------------------------------------------------------

  /** The index after "Next": one further unless the last exercise is showing. */
  function NextIndex(index: int, count: int): (r: int)
    ensures index < count - 1 ==> r == index + 1
    ensures index >= count - 1 ==> r == index
  {
    if index < count - 1 then index + 1 else index
  }

  /** The index after "Previous": one back unless the first exercise is showing. */
  function PrevIndex(index: int): (r: int)
    ensures index > 0 ==> r == index - 1
    ensures index <= 0 ==> r == index
  {
    if index > 0 then index - 1 else index
  }

  /** Both moves keep an index of a non-empty list inside the list. */
  lemma NavigationStaysInRange(index: int, count: int)
    requires 0 <= index < count
    ensures 0 <= NextIndex(index, count) < count
    ensures 0 <= PrevIndex(index) < count
  {
  }

  /** "Previous" undoes a "Next" that moved. */
  lemma PrevUndoesNext(index: int, count: int)
    requires 0 <= index < count - 1
    ensures PrevIndex(NextIndex(index, count)) == index
  {
  }

  datatype KeyAction = GoNext | GoPrevious | Ignore

  /** Ctrl+Enter goes to the next exercise; Shift+Enter (without Ctrl) to the previous one. */
  function KeyDownAction(key: string, ctrlKey: bool, shiftKey: bool): (a: KeyAction)
    ensures a == GoNext <==> key == "Enter" && ctrlKey
    ensures a == GoPrevious <==> key == "Enter" && !ctrlKey && shiftKey
  {
    if key == "Enter" && ctrlKey then GoNext
    else if key == "Enter" && shiftKey then GoPrevious
    else Ignore
  }

  /** JavaScript truthiness of the start time: `null` and `0` both read as "not started". */
  predicate StartTimeSet(t: Option<int>) {
    t.Some? && t.value != 0
  }

  // ---------------------------------------------------------------------
  // The page's state
  // ---------------------------------------------------------------------

  class TypingSession {
    const courseData: map<string, Course>
    var selectedCourse: string
    var selectedTopic: string
    var selectedSubtopic: string
    var exerciseIndex: int
    var userInput: string
    var startTime: Option<int>
    var wpm: int
    var accuracy: int
    var isComplete: bool

    /** The selected course is empty or in the catalogue; the index lies within a non-empty exercise list. */
    ghost predicate Valid()
      reads this
    {
      && (selectedCourse == "" || selectedCourse in courseData)
      && 0 <= exerciseIndex
      && (Exercises() != [] ==> exerciseIndex < |Exercises()|)
      && 0 <= accuracy <= 100
    }

    function Exercises(): seq<Exercise>
      reads this
      requires selectedCourse == "" || selectedCourse in courseData
    {
      ExercisesFor(courseData, selectedCourse, selectedTopic, selectedSubtopic)
    }

    /** `exercises[currentExerciseIndex]`, which is `undefined` when the list is empty. */
    function CurrentExercise(): (r: Option<Exercise>)
      reads this
      requires Valid()
      ensures r.Some? <==> Exercises() != []
    {
      if Exercises() == [] then None else Some(Exercises()[exerciseIndex])
    }

    /** The page's first render: the JavaScript course, nothing else chosen, a fresh session. */
    constructor (courseData: map<string, Course>)
      requires "javascript" in courseData
      ensures Valid() && this.courseData == courseData
      ensures selectedCourse == "javascript" && selectedTopic == "" && selectedSubtopic == ""
      ensures exerciseIndex == 0 && userInput == "" && startTime == None
      ensures wpm == 0 && accuracy == 100 && !isComplete
      ensures CurrentExercise() == None
    {
      this.courseData := courseData;
      selectedCourse := "javascript";
      selectedTopic := "";
      selectedSubtopic := "";
      exerciseIndex := 0;
      userInput := "";
      startTime := None;
      wpm := 0;
      accuracy := 100;
      isComplete := false;
    }

    /**
     * A keystroke in the text area (which only exists while an exercise is
     * showing). `now` stands for `Date.now()`; `computedWpm` for the
     * floating-point words-per-minute figure, which is not modelled.
     */
    method HandleInputChange(value: string, now: int, computedWpm: int)
      requires Valid() && CurrentExercise().Some?
      modifies this
      ensures Valid()
      ensures userInput == value
      ensures startTime == if !StartTimeSet(old(startTime)) && |value| > 0 then Some(now) else old(startTime)
      ensures accuracy == Accuracy(value, old(CurrentExercise()).value.example)
      ensures isComplete == (old(isComplete) || value == old(CurrentExercise()).value.example)
      ensures wpm == if value == old(CurrentExercise()).value.example then computedWpm else old(wpm)
      ensures selectedCourse == old(selectedCourse) && selectedTopic == old(selectedTopic)
      ensures selectedSubtopic == old(selectedSubtopic) && exerciseIndex == old(exerciseIndex)
    {
      var example := CurrentExercise().value.example;
      var measured := MeasureAccuracy(value, example);
      userInput := value;
      if !StartTimeSet(startTime) && |value| > 0 {
        startTime := Some(now);
      }
      accuracy := measured;
      if value == example {
        wpm := computedWpm;
        isComplete := true;
      }
    }

    /** The Reset button: a fresh attempt at the same exercise. */
    method Reset()
      requires Valid()
      modifies this
      ensures Valid()
      ensures userInput == "" && startTime == None && wpm == 0 && accuracy == 100 && !isComplete
      ensures selectedCourse == old(selectedCourse) && selectedTopic == old(selectedTopic)
      ensures selectedSubtopic == old(selectedSubtopic) && exerciseIndex == old(exerciseIndex)
    {
      userInput := "";
      startTime := None;
      wpm := 0;
      accuracy := 100;
      isComplete := false;
    }

    /** The Next button; `lastReached` is the "completed all exercises" notice. */
    method NextExercise() returns (lastReached: bool)
      requires Valid()
      modifies this
      ensures Valid()
      ensures exerciseIndex == NextIndex(old(exerciseIndex), |Exercises()|)
      ensures lastReached <==> old(exerciseIndex) >= |Exercises()| - 1
      ensures !lastReached ==> userInput == "" && startTime == None && wpm == 0 && accuracy == 100 && !isComplete
      ensures lastReached ==> userInput == old(userInput) && startTime == old(startTime) && wpm == old(wpm)
                              && accuracy == old(accuracy) && isComplete == old(isComplete)
      ensures selectedCourse == old(selectedCourse) && selectedTopic == old(selectedTopic)
      ensures selectedSubtopic == old(selectedSubtopic)
    {
      if exerciseIndex < |Exercises()| - 1 {
        exerciseIndex := exerciseIndex + 1;
        Reset();
        lastReached := false;
      } else {
        lastReached := true;
      }
    }

    /** The Previous button. */
    method PrevExercise()
      requires Valid()
      modifies this
      ensures Valid()
      ensures exerciseIndex == PrevIndex(old(exerciseIndex))
      ensures old(exerciseIndex) > 0 ==> userInput == "" && startTime == None && wpm == 0 && accuracy == 100 && !isComplete
      ensures old(exerciseIndex) <= 0 ==> userInput == old(userInput) && startTime == old(startTime) && wpm == old(wpm)
                                          && accuracy == old(accuracy) && isComplete == old(isComplete)
      ensures selectedCourse == old(selectedCourse) && selectedTopic == old(selectedTopic)
      ensures selectedSubtopic == old(selectedSubtopic)
    {
      if exerciseIndex > 0 {
        exerciseIndex := exerciseIndex - 1;
        Reset();
      }
    }

    /** Keyboard shortcuts of the text area. */
    method HandleKeyDown(key: string, ctrlKey: bool, shiftKey: bool)
      requires Valid()
      modifies this
      ensures Valid()
      ensures exerciseIndex == match KeyDownAction(key, ctrlKey, shiftKey)
        case GoNext => NextIndex(old(exerciseIndex), |Exercises()|)
        case GoPrevious => PrevIndex(old(exerciseIndex))
        case Ignore => old(exerciseIndex)
      ensures exerciseIndex != old(exerciseIndex) ==>
        userInput == "" && startTime == None && wpm == 0 && accuracy == 100 && !isComplete
      ensures exerciseIndex == old(exerciseIndex) ==>
        userInput == old(userInput) && startTime == old(startTime) && wpm == old(wpm)
        && accuracy == old(accuracy) && isComplete == old(isComplete)
      ensures selectedCourse == old(selectedCourse) && selectedTopic == old(selectedTopic)
      ensures selectedSubtopic == old(selectedSubtopic)
    {
      match KeyDownAction(key, ctrlKey, shiftKey)
      case GoNext =>
        var _ := NextExercise();
      case GoPrevious =>
        PrevExercise();
      case Ignore =>
    }

    /** The course selector: the topic and subtopic are cleared, nothing else changes. */
    method SelectCourse(course: string)
      requires Valid()
      requires course == "" || course in courseData
      modifies this
      ensures Valid()
      ensures selectedCourse == course && selectedTopic == "" && selectedSubtopic == ""
      ensures Exercises() == []
      ensures exerciseIndex == old(exerciseIndex) && userInput == old(userInput) && startTime == old(startTime)
      ensures wpm == old(wpm) && accuracy == old(accuracy) && isComplete == old(isComplete)
    {
      selectedCourse := course;
      selectedTopic := "";
      selectedSubtopic := "";
    }

    /** The topic selector: the subtopic is cleared, nothing else changes. */
    method SelectTopic(topic: string)
      requires Valid()
      modifies this
      ensures Valid()
      ensures selectedCourse == old(selectedCourse) && selectedTopic == topic && selectedSubtopic == ""
      ensures Exercises() == []
      ensures exerciseIndex == old(exerciseIndex) && userInput == old(userInput) && startTime == old(startTime)
      ensures wpm == old(wpm) && accuracy == old(accuracy) && isComplete == old(isComplete)
    {
      selectedTopic := topic;
      selectedSubtopic := "";
    }

    /** The subtopic selector: back to the first exercise with a fresh session. */
    method SelectSubtopic(subtopic: string)
      requires Valid()
      modifies this
      ensures Valid()
      ensures selectedCourse == old(selectedCourse) && selectedTopic == old(selectedTopic)
      ensures selectedSubtopic == subtopic && exerciseIndex == 0
      ensures userInput == "" && startTime == None && wpm == 0 && accuracy == 100 && !isComplete
    {
      selectedSubtopic := subtopic;
      exerciseIndex := 0;
      Reset();
    }
  }
}
