/**
 * components/QuizMode.tsx, the quiz's state machine: answering, the
 * auto-advance timer, moving to the next question, the level-up screen and
 * restarting.
 *
 * The component's state cells (`quiz`, `selectedAnswer`, `isCorrect`,
 * `combo`, `soundEnabled` and the pending timeout in `autoNextTimerRef`) are
 * gathered in a `Session` value, and each handler is a step function on it.
 * `Offered` says which events the screen being rendered (or a pending timer)
 * can produce; `Inv` holds in every state reached by offered events, and the
 * class `QuizMode` runs the handlers on mutable fields against these
 * functions.
 */
module QuizFlow {
  import opened Wrappers
  import opened Countries
  import opened QuizGeneration

  /** The QuizState record of types.ts. */
  datatype QuizState = QuizState(
    questions: seq<Question>,
    currentIndex: nat,
    score: nat,
    level: nat,
    isFinished: bool,
    showLevelUp: bool)

  datatype Sound = CorrectSound | IncorrectSound | LevelUpSound | TrophySound

  /**
   * All state of the component. `selectedAnswer` is `None` for `null`; an
   * option that is `undefined` is recorded as `Some(Undefined)`. `timer` is
   * the pending auto-advance, carrying the `soundEnabled` value its callback
   * captured when it was armed.
   */
  datatype Session = Session(
    quiz: Option<QuizState>,
    selectedAnswer: Option<Label>,
    isCorrect: Option<bool>,
    combo: nat,
    soundEnabled: bool,
    timer: Option<bool>)

  datatype Event =
    | Answer(option: Label)        // an option button
    | NextClick                    // the "NEXT STEP" / "FINISH LEVEL" button
    | TimerFires                   // the 1500 ms timeout armed by an answer
    | Proceed                      // "Begin Level n"
    | Restart(questions: seq<Question>)  // `generateQuiz` on mount or "New Journey", with its result
    | ToggleSound                  // the speaker button

  /** The state right after mounting, before the first `generateQuiz` has run. */
  function Mounted(): Session {
    Session(None, None, None, 0, true, None)
  }

  function FreshQuiz(qs: seq<Question>): QuizState {
    QuizState(qs, 0, 0, 1, false, false)
  }

  /** The state updates at the end of `generateQuiz`; the timer and the sound switch are untouched. */
  function Generated(s: Session, qs: seq<Question>): Session {
    s.(quiz := Some(FreshQuiz(qs)), selectedAnswer := None, isCorrect := None, combo := 0)
  }

  /** The step counter `(currentIndex % QUESTIONS_PER_LEVEL) + 1`. */
  function StepInLevel(q: QuizState): nat {
    q.currentIndex % QUESTIONS_PER_LEVEL + 1
  }

  /** JavaScript truthiness of the selected answer, which gates the Next button. */
  predicate Truthy(a: Option<Label>) {
    a.Some? && a.value.Text? && a.value.text != ""
  }

  /**
   * `handleAnswer`. Requires the current index to name a question, as the
   * source's `quiz.questions[quiz.currentIndex].correctAnswer` does.
   */
  function AnswerStep(s: Session, a: Label): (Session, Option<Sound>)
    requires s.quiz.Some? ==> s.quiz.value.currentIndex < |s.quiz.value.questions|
  {
    if s.selectedAnswer.Some? || s.quiz.None? then (s, None)
    else
      var q := s.quiz.value;
      var correct := a == Text(q.questions[q.currentIndex].correctAnswer);
      var s' := s.(selectedAnswer := Some(a), isCorrect := Some(correct), timer := Some(s.soundEnabled));
      if correct then
        (s'.(quiz := Some(q.(score := q.score + 1)), combo := s.combo + 1),
         if s.soundEnabled then Some(CorrectSound) else None)
      else
        (s'.(combo := 0), if s.soundEnabled then Some(IncorrectSound) else None)
  }

  /**
   * `nextQuestion`, run with the `soundEnabled` value its closure holds:
   * the current one for a click, the captured one for the timer.
   */
  function NextStep(s: Session, sound: bool): (Session, Option<Sound>) {
    var s' := s.(timer := None);
    match s.quiz
    case None => (s', None)
    case Some(q) =>
      var next := q.currentIndex + 1;
      if next == |q.questions| then
        (s'.(quiz := Some(q.(isFinished := true))), if sound then Some(TrophySound) else None)
      else if next % QUESTIONS_PER_LEVEL == 0 then
        (s'.(quiz := Some(q.(showLevelUp := true))), if sound then Some(LevelUpSound) else None)
      else
        (s'.(quiz := Some(q.(currentIndex := next)), selectedAnswer := None, isCorrect := None), None)
  }

  /** `proceedToNextLevel`. */
  function ProceedStep(s: Session): Session {
    match s.quiz
    case None => s
    case Some(q) =>
      s.(quiz := Some(q.(currentIndex := q.currentIndex + 1, level := q.level + 1, showLevelUp := false)),
         selectedAnswer := None, isCorrect := None)
  }

  function ToggleStep(s: Session): Session {
    s.(soundEnabled := !s.soundEnabled)
  }

  /** The question screen is rendered: a quiz exists and neither the level-up nor the final screen is up. */
  predicate QuizScreen(s: Session) {
    s.quiz.Some? && !s.quiz.value.showLevelUp && !s.quiz.value.isFinished
  }

  /** Which events the rendered screen, or a pending timer, can produce in `s`. */
  predicate Offered(s: Session, e: Event) {
    match e
    case Answer(a) =>
      QuizScreen(s) && s.selectedAnswer.None?
      && s.quiz.value.currentIndex < |s.quiz.value.questions|
      && a in s.quiz.value.questions[s.quiz.value.currentIndex].options
    case NextClick => QuizScreen(s) && Truthy(s.selectedAnswer)
    case TimerFires => s.timer.Some?
    case Proceed => s.quiz.Some? && s.quiz.value.showLevelUp
    case Restart(qs) => (s.quiz.None? || s.quiz.value.isFinished) && |qs| == TOTAL_QUESTIONS
    case ToggleSound => QuizScreen(s)
  }

  /** What holds in every reachable state. */
  predicate Inv(s: Session) {
    && (s.timer.Some? ==> s.selectedAnswer.Some? && QuizScreen(s))
    && (s.isCorrect.Some? <==> s.selectedAnswer.Some?)
    && (match s.quiz
        case None => s.selectedAnswer.None? && s.combo == 0
        case Some(q) =>
          && |q.questions| == TOTAL_QUESTIONS
          && q.currentIndex < TOTAL_QUESTIONS
          && q.level == q.currentIndex / QUESTIONS_PER_LEVEL + 1
          && q.score <= q.currentIndex + (if s.selectedAnswer.Some? then 1 else 0)
          && s.combo <= q.score
          && !(q.isFinished && q.showLevelUp)
          && (q.showLevelUp ==>
                (q.currentIndex + 1) % QUESTIONS_PER_LEVEL == 0 && q.currentIndex + 1 < TOTAL_QUESTIONS && s.selectedAnswer.Some?)
          && (q.isFinished ==> q.currentIndex + 1 == TOTAL_QUESTIONS && s.selectedAnswer.Some?))
  }

  /** Once an answer is selected, `handleAnswer` changes nothing and plays nothing. */
  lemma AnswerIgnoredOnceSelected(s: Session, a: Label)
    requires s.quiz.Some? ==> s.quiz.value.currentIndex < |s.quiz.value.questions|
    requires s.selectedAnswer.Some?
    ensures AnswerStep(s, a) == (s, None)
  {
  }

  /**
   * An accepted answer is correct exactly when it equals the question's
   * correct answer; a correct one adds one to the score and the streak, a
   * wrong one resets the streak. Either way it is recorded and arms the
   * timer, and nothing else changes.
   */
  lemma AnswerScoring(s: Session, a: Label)
    requires s.quiz.Some? && s.selectedAnswer.None?
    requires s.quiz.value.currentIndex < |s.quiz.value.questions|
    ensures var (r, sound) := AnswerStep(s, a);
      var q := s.quiz.value;
      var correct := a == Text(q.questions[q.currentIndex].correctAnswer);
      && r.selectedAnswer == Some(a) && r.isCorrect == Some(correct)
      && r.timer == Some(s.soundEnabled) && r.soundEnabled == s.soundEnabled
      && r.quiz == Some(q.(score := if correct then q.score + 1 else q.score))
      && r.combo == (if correct then s.combo + 1 else 0)
      && (sound.Some? <==> s.soundEnabled)
      && (sound.Some? ==> sound.value == (if correct then CorrectSound else IncorrectSound))
  {
  }

  /**
   * `nextQuestion` from index `i` always clears the pending timer. Then, with
   * this precedence: the last question finishes the quiz; the end of a level
   * shows the level-up screen; otherwise the index moves to `i + 1` and the
   * selection is cleared. Questions, score, level and streak are untouched.
   */
  lemma NextOutcomes(s: Session, sound: bool)
    requires s.quiz.Some?
    ensures var (r, played) := NextStep(s, sound);
      var q := s.quiz.value;
      var next := q.currentIndex + 1;
      && r.timer.None? && r.quiz.Some? && r.combo == s.combo && r.soundEnabled == s.soundEnabled
      && r.quiz.value.questions == q.questions && r.quiz.value.score == q.score && r.quiz.value.level == q.level
      && (next == |q.questions| ==>
            r.quiz.value.isFinished && r.quiz.value.currentIndex == q.currentIndex
            && r.quiz.value.showLevelUp == q.showLevelUp
            && r.selectedAnswer == s.selectedAnswer && r.isCorrect == s.isCorrect
            && played == (if sound then Some(TrophySound) else None))
      && (next != |q.questions| && next % QUESTIONS_PER_LEVEL == 0 ==>
            r.quiz.value.showLevelUp && r.quiz.value.currentIndex == q.currentIndex
            && r.quiz.value.isFinished == q.isFinished
            && r.selectedAnswer == s.selectedAnswer && r.isCorrect == s.isCorrect
            && played == (if sound then Some(LevelUpSound) else None))
      && (next != |q.questions| && next % QUESTIONS_PER_LEVEL != 0 ==>
            r.quiz.value.currentIndex == next && r.selectedAnswer.None? && r.isCorrect.None? && played.None?
            && r.quiz.value.isFinished == q.isFinished && r.quiz.value.showLevelUp == q.showLevelUp)
      && (played == Some(TrophySound) <==> sound && next == |q.questions|)
  {
  }

  /**
   * `proceedToNextLevel` from the level-up screen starts step 1 of the next
   * level; the selection is cleared and questions, score and streak stay.
   */
  lemma ProceedStartsLevel(s: Session)
    requires Inv(s) && s.quiz.Some? && s.quiz.value.showLevelUp
    ensures var r := ProceedStep(s);
      var q := s.quiz.value;
      && r.quiz.Some? && !r.quiz.value.showLevelUp
      && r.quiz.value.currentIndex == q.currentIndex + 1 && r.quiz.value.level == q.level + 1
      && StepInLevel(r.quiz.value) == 1
      && r.selectedAnswer.None? && r.isCorrect.None? && r.timer == s.timer
      && r.quiz.value.questions == q.questions && r.quiz.value.score == q.score && r.combo == s.combo
      && r.quiz.value.isFinished == q.isFinished && r.soundEnabled == s.soundEnabled
  {
  }

  /** A new quiz starts at the first step of level one with nothing scored or selected. */
  lemma FreshStart(s: Session, qs: seq<Question>)
    ensures var r := Generated(s, qs);
      && r.quiz == Some(QuizState(qs, 0, 0, 1, false, false))
      && StepInLevel(r.quiz.value) == 1
      && r.selectedAnswer.None? && r.isCorrect.None? && r.combo == 0
      && r.soundEnabled == s.soundEnabled && r.timer == s.timer
  {
  }

  /** An offered event, with the sound it plays. */
  function Step(s: Session, e: Event): (Session, Option<Sound>)
    requires Offered(s, e)
  {
    match e
    case Answer(a) => AnswerStep(s, a)
    case NextClick => NextStep(s, s.soundEnabled)
    case TimerFires => if s.timer.Some? then NextStep(s, s.timer.value) else (s, None)
    case Proceed => (ProceedStep(s), None)
    case Restart(qs) => (Generated(s, qs), None)
    case ToggleSound => (ToggleStep(s), None)
  }

  /**
   * The timer runs the `nextQuestion` of the render that armed it, so muting
   * after answering does not silence the sound that ends a level.
   */
  lemma MutingAfterAnswerStillPlaysLevelUp(s: Session, a: Label)
    requires Offered(s, Answer(a)) && s.soundEnabled
    requires (s.quiz.value.currentIndex + 1) % QUESTIONS_PER_LEVEL == 0
    requires s.quiz.value.currentIndex + 1 < |s.quiz.value.questions|
    ensures var muted := After(After(s, Answer(a)), ToggleSound);
      && !muted.soundEnabled && Offered(muted, TimerFires)
      && Step(muted, TimerFires).1 == Some(LevelUpSound)
  {
  }

  /** The consequences of `Inv` the component relies on and displays. */
  lemma InvBounds(s: Session)
    requires Inv(s) && s.quiz.Some?
    ensures var q := s.quiz.value;
      && q.currentIndex < |q.questions|
      && 1 <= q.level <= MAX_LEVEL
      && 1 <= StepInLevel(q) <= QUESTIONS_PER_LEVEL
      && q.score <= q.currentIndex + 1 <= TOTAL_QUESTIONS
  {
  }

  lemma GeneratedInv(s: Session, qs: seq<Question>)
    requires Inv(s) && |qs| == TOTAL_QUESTIONS && (s.quiz.None? || s.quiz.value.isFinished)
    ensures Inv(Generated(s, qs))
  {
  }

  lemma {:induction false} InvPreserved(s: Session, e: Event)
    requires Inv(s) && Offered(s, e)
    ensures Inv(Step(s, e).0)
  {
    match e
    case Answer(a) =>
    case NextClick =>
    case TimerFires =>
    case Proceed =>
      var q := s.quiz.value;
      assert (q.currentIndex + 1) / QUESTIONS_PER_LEVEL == q.currentIndex / QUESTIONS_PER_LEVEL + 1;
    case Restart(qs) =>
      GeneratedInv(s, qs);
    case ToggleSound =>
  }

  /** The state after `e`; an event the state does not offer does not happen. */
  function After(s: Session, e: Event): Session {
    if Offered(s, e) then Step(s, e).0 else s
  }

  /** Runs the events in order. */
  function Run(s: Session, es: seq<Event>): Session
    decreases |es|
  {
    if es == [] then s else Run(After(s, es[0]), es[1..])
  }

  /** Every state reached from one satisfying `Inv` satisfies it. */
  lemma {:induction false} RunInv(s: Session, es: seq<Event>)
    requires Inv(s)
    ensures Inv(Run(s, es))
    decreases |es|
  {
    if es != [] {
      if Offered(s, es[0]) {
        InvPreserved(s, es[0]);
      }
      RunInv(After(s, es[0]), es[1..]);
    }
  }

  /** Every state reached from the mounted component satisfies `Inv`. */
  lemma ReachableInv(es: seq<Event>)
    ensures Inv(Run(Mounted(), es))
  {
    RunInv(Mounted(), es);
  }

  lemma {:induction false} RunAppend(s: Session, xs: seq<Event>, ys: seq<Event>)
    ensures Run(s, xs + ys) == Run(Run(s, xs), ys)
    decreases |xs|
  {
    if xs == [] {
      assert xs + ys == ys;
    } else {
      assert (xs + ys)[0] == xs[0];
      assert (xs + ys)[1..] == xs[1..] + ys;
      RunAppend(After(s, xs[0]), xs[1..], ys);
    }
  }

  lemma RunCons(s: Session, e: Event, es: seq<Event>)
    ensures Run(s, [e] + es) == Run(After(s, e), es)
  {
    assert ([e] + es)[1..] == es;
  }

  /** `e` is an answer the screen offers and it equals the correct answer. */
  predicate ScoresPoint(s: Session, e: Event) {
    e.Answer? && Offered(s, e) && e.option == Text(s.quiz.value.questions[s.quiz.value.currentIndex].correctAnswer)
  }

  /** How many of the events are correct answers when they happen. */
  function CorrectAnswers(s: Session, es: seq<Event>): nat
    decreases |es|
  {
    if es == [] then 0
    else (if ScoresPoint(s, es[0]) then 1 else 0) + CorrectAnswers(After(s, es[0]), es[1..])
  }

  /** One event other than a restart: the score grows by one exactly for a correct answer. */
  lemma ScoreStep(s: Session, e: Event)
    requires s.quiz.Some? && !e.Restart?
    ensures var r := After(s, e);
      && r.quiz.Some?
      && r.quiz.value.score == s.quiz.value.score + (if ScoresPoint(s, e) then 1 else 0)
      && r.quiz.value.questions == s.quiz.value.questions
      && s.quiz.value.currentIndex <= r.quiz.value.currentIndex
      && s.quiz.value.level <= r.quiz.value.level
  {
  }

  /**
   * Until the next restart, the score is the number of correct answers given,
   * the questions stay the same and neither the index nor the level goes back.
   */
  lemma {:induction false} ScoreCountsCorrectAnswers(s: Session, es: seq<Event>)
    requires s.quiz.Some?
    requires forall i | 0 <= i < |es| :: !es[i].Restart?
    ensures var r := Run(s, es);
      && r.quiz.Some?
      && r.quiz.value.score == s.quiz.value.score + CorrectAnswers(s, es)
      && r.quiz.value.questions == s.quiz.value.questions
      && s.quiz.value.currentIndex <= r.quiz.value.currentIndex
      && s.quiz.value.level <= r.quiz.value.level
    decreases |es|
  {
    if es != [] {
      ScoreStep(s, es[0]);
      ScoreCountsCorrectAnswers(After(s, es[0]), es[1..]);
    }
  }

  /** The state before question `i` of a game in which every answer so far was right. */
  function Played(qs: seq<Question>, i: nat, sound: bool): Session {
    Session(Some(QuizState(qs, i, i, i / QUESTIONS_PER_LEVEL + 1, false, false)), None, None, i, sound, None)
  }

  /** Answer question `i` correctly, let the timer advance, and begin the next level when one is complete. */
  function Round(qs: seq<Question>, i: nat): seq<Event>
    requires i < |qs|
  {
    [Answer(Text(qs[i].correctAnswer)), TimerFires]
    + (if (i + 1) % QUESTIONS_PER_LEVEL == 0 && i + 1 < |qs| then [Proceed] else [])
  }

  /** Rounds `0` to `n - 1`. */
  function Rounds(qs: seq<Question>, n: nat): seq<Event>
    requires n <= |qs|
  {
    if n == 0 then [] else Rounds(qs, n - 1) + Round(qs, n - 1)
  }

  /** Every question offers its correct answer among its options. */
  predicate OffersCorrect(qs: seq<Question>) {
    forall i :: 0 <= i < |qs| ==> Text(qs[i].correctAnswer) in qs[i].options
  }

  lemma RoundStep(qs: seq<Question>, i: nat, sound: bool)
    requires |qs| == TOTAL_QUESTIONS && OffersCorrect(qs) && i + 1 < TOTAL_QUESTIONS
    ensures Run(Played(qs, i, sound), Round(qs, i)) == Played(qs, i + 1, sound)
  {
    var s0 := Played(qs, i, sound);
    var e0 := Answer(Text(qs[i].correctAnswer));
    assert Offered(s0, e0);
    var s1 := After(s0, e0);
    assert s1.timer == Some(sound) && s1.selectedAnswer == Some(Text(qs[i].correctAnswer));
    assert s1.quiz.value.score == i + 1;
    var s2 := After(s1, TimerFires);
    if (i + 1) % QUESTIONS_PER_LEVEL == 0 {
      assert s2.quiz.value.showLevelUp;
      var s3 := After(s2, Proceed);
      assert s3 == Played(qs, i + 1, sound);
      assert Round(qs, i) == [e0] + ([TimerFires] + ([Proceed] + []));
      RunCons(s0, e0, [TimerFires] + ([Proceed] + []));
      RunCons(s1, TimerFires, [Proceed] + []);
      RunCons(s2, Proceed, []);
    } else {
      assert s2 == Played(qs, i + 1, sound);
      assert Round(qs, i) == [e0] + ([TimerFires] + []);
      RunCons(s0, e0, [TimerFires] + []);
      RunCons(s1, TimerFires, []);
    }
  }

  lemma {:induction false} RoundsReach(qs: seq<Question>, n: nat, sound: bool)
    requires |qs| == TOTAL_QUESTIONS && OffersCorrect(qs) && n < TOTAL_QUESTIONS
    ensures Run(Played(qs, 0, sound), Rounds(qs, n)) == Played(qs, n, sound)
  {
    RoundStep(qs, 0, sound);
    if n > 0 {
      var start := Played(qs, 0, sound);
      RoundsReach(qs, n - 1, sound);
      RoundStep(qs, n - 1, sound);
      RunAppend(start, Rounds(qs, n - 1), Round(qs, n - 1));
      calc {
        Run(start, Rounds(qs, n));
        Run(start, Rounds(qs, n - 1) + Round(qs, n - 1));
        Run(Run(start, Rounds(qs, n - 1)), Round(qs, n - 1));
        Run(Played(qs, n - 1, sound), Round(qs, n - 1));
      }
    }
  }

  /**
   * A fresh quiz can be played to the end: answering every question
   * correctly finishes it with a score of `TOTAL_QUESTIONS`, at level
   * `MAX_LEVEL`, with a streak as long as the quiz.
   */
  lemma PerfectGame(s: Session, qs: seq<Question>)
    requires Inv(s) && (s.quiz.None? || s.quiz.value.isFinished)
    requires |qs| == TOTAL_QUESTIONS && OffersCorrect(qs)
    ensures var r := Run(s, [Restart(qs)] + Rounds(qs, TOTAL_QUESTIONS));
      && r.quiz.Some? && r.quiz.value.isFinished
      && r.quiz.value.score == TOTAL_QUESTIONS
      && r.quiz.value.level == MAX_LEVEL
      && r.combo == TOTAL_QUESTIONS
  {
    var last := TOTAL_QUESTIONS - 1;
    var s0 := After(s, Restart(qs));
    assert s0 == Played(qs, 0, s.soundEnabled);
    RoundsReach(qs, last, s.soundEnabled);
    var mid := Played(qs, last, s.soundEnabled);
    var e0 := Answer(Text(qs[last].correctAnswer));
    assert Offered(mid, e0);
    var s1 := After(mid, e0);
    var s2 := After(s1, TimerFires);
    assert s2.quiz.value.isFinished && s2.quiz.value.score == TOTAL_QUESTIONS;
    assert Round(qs, last) == [e0] + ([TimerFires] + []);
    RunCons(mid, e0, [TimerFires] + []);
    RunCons(s1, TimerFires, []);
    RunAppend(s0, Rounds(qs, last), Round(qs, last));
    RunCons(s, Restart(qs), Rounds(qs, TOTAL_QUESTIONS));
  }

  /**
   * A generated quiz can be played to a perfect finish: every question
   * offers its correct answer.
   */
  lemma GeneratedQuizCompletable(
    s: Session, countries: seq<Country>, poolPicks: seq<nat>, draws: seq<Draw>, qs: seq<Question>)
    requires Inv(s) && (s.quiz.None? || s.quiz.value.isFinished)
    requires |draws| == TOTAL_QUESTIONS && GeneratedQuestions(countries, poolPicks, draws) == Some(qs)
    ensures var r := Run(s, [Restart(qs)] + Rounds(qs, TOTAL_QUESTIONS));
      r.quiz.Some? && r.quiz.value.isFinished && r.quiz.value.score == TOTAL_QUESTIONS
  {
    GeneratedOffersAnswers(countries, poolPicks, draws, qs);
    PerfectGame(s, qs);
  }

  /**
   * The component. The fields are its state cells; `timer` stands for
   * `autoNextTimerRef.current` together with the `soundEnabled` value the
   * pending callback closed over.
   */
  class QuizMode {
    const countries: seq<Country>
    var quiz: Option<QuizState>
    var selectedAnswer: Option<Label>
    var isCorrect: Option<bool>
    var combo: nat
    var soundEnabled: bool
    var timer: Option<bool>

    function State(): Session
      reads this
    {
      Session(quiz, selectedAnswer, isCorrect, combo, soundEnabled, timer)
    }

    predicate Valid()
      reads this
    {
      Inv(State())
    }

    constructor(countries: seq<Country>)
      ensures this.countries == countries && State() == Mounted() && Valid()
    {
      this.countries := countries;
      quiz := None;
      selectedAnswer := None;
      isCorrect := None;
      combo := 0;
      soundEnabled := true;
      timer := None;
    }

    /**
     * `generateQuiz` with the outcomes of its random choices; `ok` is false
     * when it throws, and then no state cell has been set.
     */
    method GenerateQuiz(poolPicks: seq<nat>, draws: seq<Draw>) returns (ok: bool)
      requires |draws| == TOTAL_QUESTIONS
      modifies this
      ensures var g := GeneratedQuestions(countries, poolPicks, draws);
        ok == g.Some? && State() == (if ok then Generated(old(State()), g.value) else old(State()))
      ensures old(Valid() && (quiz.None? || quiz.value.isFinished)) ==> Valid()
    {
      var r := BuildQuestions(countries, poolPicks, draws);
      GeneratedShape(countries, poolPicks, draws);
      if r.None? {
        return false;
      }
      ghost var before := State();
      quiz := Some(QuizState(r.value, 0, 0, 1, false, false));
      selectedAnswer := None;
      isCorrect := None;
      combo := 0;
      assert State() == Generated(before, r.value);
      if Inv(before) && (before.quiz.None? || before.quiz.value.isFinished) {
        GeneratedInv(before, r.value);
      }
      return true;
    }

    /** `handleAnswer`, returning the sound it plays. */
    method HandleAnswer(answer: Label) returns (sound: Option<Sound>)
      requires quiz.Some? ==> quiz.value.currentIndex < |quiz.value.questions|
      modifies this
      ensures (State(), sound) == AnswerStep(old(State()), answer)
      ensures old(Valid()) ==> Valid()
    {
      if selectedAnswer.Some? || quiz.None? {
        return None;
      }
      selectedAnswer := Some(answer);
      var q := quiz.value;
      var correct := answer == Text(q.questions[q.currentIndex].correctAnswer);
      isCorrect := Some(correct);
      if correct {
        sound := if soundEnabled then Some(CorrectSound) else None;
        quiz := Some(q.(score := q.score + 1));
        combo := combo + 1;
      } else {
        sound := if soundEnabled then Some(IncorrectSound) else None;
        combo := 0;
      }
      timer := Some(soundEnabled);
    }

    /** The `nextQuestion` callback, with the `soundEnabled` value it closed over. */
    method NextQuestion(sound: bool) returns (played: Option<Sound>)
      modifies this
      ensures (State(), played) == NextStep(old(State()), sound)
    {
      timer := None;
      played := None;
      if quiz.None? {
        return;
      }
      var q := quiz.value;
      var next := q.currentIndex + 1;
      var isLevelComplete := next % QUESTIONS_PER_LEVEL == 0;
      if next == |q.questions| {
        if sound {
          played := Some(TrophySound);
        }
        quiz := Some(q.(isFinished := true));
      } else if isLevelComplete {
        if sound {
          played := Some(LevelUpSound);
        }
        quiz := Some(q.(showLevelUp := true));
      } else {
        selectedAnswer := None;
        isCorrect := None;
        quiz := Some(q.(currentIndex := next));
      }
    }

    /** The Next button, which runs the current `nextQuestion`. */
    method ClickNext() returns (played: Option<Sound>)
      modifies this
      ensures (State(), played) == NextStep(old(State()), old(soundEnabled))
      ensures old(Valid() && Offered(State(), NextClick)) ==> Valid()
    {
      ghost var before := State();
      played := NextQuestion(soundEnabled);
      if Inv(before) && Offered(before, NextClick) {
        InvPreserved(before, NextClick);
      }
    }

    /** The auto-advance timeout, which runs the `nextQuestion` of the render that armed it. */
    method FireTimer() returns (played: Option<Sound>)
      requires timer.Some?
      modifies this
      ensures (State(), played) == NextStep(old(State()), old(timer.value))
      ensures old(Valid()) ==> Valid()
    {
      ghost var before := State();
      played := NextQuestion(timer.value);
      if Inv(before) {
        InvPreserved(before, TimerFires);
      }
    }

    /** `proceedToNextLevel`. */
    method ProceedToNextLevel()
      modifies this
      ensures State() == ProceedStep(old(State()))
      ensures old(Valid() && Offered(State(), Proceed)) ==> Valid()
    {
      if quiz.None? {
        return;
      }
      ghost var before := State();
      var q := quiz.value;
      quiz := Some(q.(currentIndex := q.currentIndex + 1, level := q.level + 1, showLevelUp := false));
      selectedAnswer := None;
      isCorrect := None;
      if Inv(before) && Offered(before, Proceed) {
        InvPreserved(before, Proceed);
      }
    }

    /** The speaker button. */
    method ToggleSound()
      modifies this
      ensures State() == ToggleStep(old(State()))
      ensures old(Valid()) ==> Valid()
    {
      soundEnabled := !soundEnabled;
    }
  }
}
