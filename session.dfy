/** The round-progression rules of the game, as pure transitions on a
    snapshot of the `App` component's state. Each handler of the component
    (map click, the guess, cancel, confirm, next and restart buttons) is one
    function here; the class in module GameApp performs the same updates in
    place and is specified by these functions. */
module Session {
  import opened Wrappers
  import opened Geo
  import Scoring

  // ---------------------------------------------------------------------
  // The round catalogue
  // ---------------------------------------------------------------------

  /** One round: the panorama to embed, the place it shows and its name
      (the source's `label`, a reserved word in Dafny). */
  datatype Round = Round(embed: string, lat: real, lng: real, name: string)

  /** `ROUNDS`: the fixed, ordered catalogue of three places. */
  const Rounds: seq<Round> := [
    Round("https://schools.360cities.net/image/embed/xj5P924JH77Gm-_TzpvGMA",
          40.7576, -73.985881, "Times Square, New York, America"),
    Round("https://schools.360cities.net/image/embed/WtXQtfl3z1xOquFIKZxRKg",
          51.51274803826184, -0.08351298054934982, "Leadenhall Market, London, The UK"),
    Round("https://schools.360cities.net/image/embed/KfS7hpIbhzHGhuloCpDLBw",
          -33.85777946653259, 151.21427994751795, "Sydney Opera House, Sydney, Australia")
  ]

  /** The best a whole session can score, shown as the denominator on the
      finish screen. */
  const MaxTotal: int := |Rounds| * Scoring.MaxPoints

  /** `[ROUNDS[i].lat, ROUNDS[i].lng]`: where round `i` really is. */
  function Correct(i: nat): LatLng
    requires i < |Rounds|
  {
    LatLng(Rounds[i].lat, Rounds[i].lng)
  }

  // ---------------------------------------------------------------------
  // Answers and the session state
  // ---------------------------------------------------------------------

  /** One confirmed guess: `{ guess, correct, dist, points }`. */
  datatype Answer = Answer(guess: LatLng, correct: LatLng, dist: real, points: int)

  /** The answer recorded in position `i` belongs to round `i` and was scored
      by the rule from a non-negative distance. */
  predicate Scored(a: Answer, i: nat) {
    && i < |Rounds|
    && a.correct == Correct(i)
    && 0.0 <= a.dist
    && a.points == Scoring.Points(a.dist)
  }

  /** Sum of the points of the answers. */
  function TotalPoints(answers: seq<Answer>): int {
    if answers == [] then 0
    else TotalPoints(answers[..|answers| - 1]) + answers[|answers| - 1].points
  }

  /** The eight state fields of the `App` component. `guess` is
      `guessLatLng`; `bestScore` is a real because it is read back from
      storage with `Number(...)`, which admits fractions and negatives. */
  datatype State = State(
    current: nat,
    guess: Option<LatLng>,
    showResult: bool,
    showConfirm: bool,
    answers: seq<Answer>,
    score: int,
    bestScore: real,
    finished: bool)

  /** Which screen the flags select. */
  datatype Phase = Picking | Confirming | ShowingResult | Finished

  function PhaseOf(s: State): Phase {
    if s.finished then Finished
    else if s.showResult then ShowingResult
    else if s.showConfirm then Confirming
    else Picking
  }

  /** The progress invariant every reachable state keeps. */
  predicate Inv(s: State) {
    && s.current < |Rounds|
    && !(s.showResult && s.showConfirm)
    && (s.finished ==> !s.showResult && !s.showConfirm && s.guess.None? && s.current == |Rounds| - 1)
    && (s.showConfirm || s.showResult ==> s.guess.Some?)
    && |s.answers| == (if s.showResult || s.finished then s.current + 1 else s.current)
    && (forall i :: 0 <= i < |s.answers| ==> Scored(s.answers[i], i))
    && s.score == TotalPoints(s.answers)
  }

  /** `Number(localStorage.getItem('bestScore')) || 0`. The argument is what
      `Number` made of the stored text, `None` when that was NaN (a missing
      key reads as `Number(null)`, which is 0). */
  function LoadBestScore(stored: Option<real>): (best: real)
    ensures best == 0.0 <==> stored.None? || stored.value == 0.0
    ensures best != 0.0 ==> stored == Some(best)
  {
    match stored
    case None => 0.0
    case Some(v) => if v == 0.0 then 0.0 else v
  }

  /** The state of a freshly mounted component. */
  function Initial(bestScore: real): (s: State)
    ensures Inv(s) && PhaseOf(s) == Picking
  {
    State(0, None, false, false, [], 0, bestScore, false)
  }

  // ---------------------------------------------------------------------
  // The handlers
  // ---------------------------------------------------------------------

  /** A map click: `LocationPicker` hands the point to `setGuessLatLng` only
      while neither the confirm dialog nor the result is showing. */
  function PickStep(s: State, p: LatLng): (r: State)
    ensures r.(guess := s.guess) == s
    ensures r.guess != s.guess ==> r.guess == Some(p) && !s.showResult && !s.showConfirm
  {
    if !s.showResult && !s.showConfirm then s.(guess := Some(p)) else s
  }

  /** `handleGuess`: open the confirm dialog. */
  function GuessStep(s: State): (r: State)
    ensures r.showConfirm && r.(showConfirm := s.showConfirm) == s
  {
    s.(showConfirm := true)
  }

  /** The cancel button of the confirm dialog. */
  function CancelStep(s: State): (r: State)
    ensures !r.showConfirm && r.(showConfirm := s.showConfirm) == s
  {
    s.(showConfirm := false)
  }

  /** `handleConfirm`, given the distance from the guess to the round's
      place: record the answer, add its points, show the result. */
  function ConfirmStep(s: State, dist: real): (r: State)
    requires s.current < |Rounds| && s.guess.Some?
    ensures |r.answers| == |s.answers| + 1 && r.answers[..|s.answers|] == s.answers
    ensures var a := r.answers[|s.answers|];
      && a.guess == s.guess.value && a.correct == Correct(s.current)
      && a.dist == dist && a.points == Scoring.Points(dist)
      && r.score == s.score + a.points
    ensures r.showResult && !r.showConfirm
    ensures r.current == s.current && r.guess == s.guess && r.bestScore == s.bestScore && r.finished == s.finished
  {
    var correct := Correct(s.current);
    var points := Scoring.Points(dist);
    s.(answers := s.answers + [Answer(s.guess.value, correct, dist, points)],
       score := s.score + points,
       showConfirm := false,
       showResult := true)
  }

  /** `handleNext`: on to the next round, or finish and keep the better of
      the old record and this session's score. */
  function NextStep(s: State): (r: State)
    ensures !r.showResult && r.guess.None? && r.showConfirm == s.showConfirm
    ensures r.answers == s.answers && r.score == s.score && s.bestScore <= r.bestScore
    ensures s.current + 1 < |Rounds| ==>
      r.current == s.current + 1 && r.finished == s.finished && r.bestScore == s.bestScore
    ensures s.current + 1 >= |Rounds| ==>
      r.current == s.current && r.finished && s.score as real <= r.bestScore
  {
    var cleared := s.(showResult := false, guess := None);
    if s.current + 1 < |Rounds| then
      cleared.(current := s.current + 1)
    else
      cleared.(bestScore := if s.score as real > s.bestScore then s.score as real else s.bestScore,
               finished := true)
  }

  /** The value `handleNext` writes to storage, if it writes at all. */
  function NextWrite(s: State): (w: Option<int>)
    ensures w.Some? <==> s.current + 1 >= |Rounds| && s.score as real > s.bestScore
    ensures w.Some? ==> w.value == s.score && NextStep(s).bestScore == w.value as real
  {
    if s.current + 1 < |Rounds| then None
    else if s.score as real > s.bestScore then Some(s.score)
    else None
  }

  /** `handleRestart`: a new session; the record stays. */
  function RestartStep(s: State): (r: State)
    ensures r == Initial(s.bestScore)
  {
    s.(current := 0, guess := None, showResult := false, showConfirm := false,
       answers := [], score := 0, finished := false)
  }

  // ---------------------------------------------------------------------
  // User actions and when the page offers them
  // ---------------------------------------------------------------------

  datatype Action =
    | MapClick(p: LatLng)
    | GuessButton
    | CancelButton
    | ConfirmButton(dist: real)
    | NextButton
    | RestartButton

  /** When the page as written lets an action reach its handler. The map
      is not mounted on the finish screen (line 131). The guess button is
      drawn whenever the session is not finished and is disabled only
      without a guess (line 245): nothing disables it while a dialog is
      open over it, and the guess is still set while the result is shown.
      Cancel and confirm belong to the dialog drawn while
      `showConfirm && guessLatLng` (line 295); next belongs to the result
      dialog (line 277). The confirm distance is a great-circle distance,
      hence never negative. */
  predicate EnabledAsWritten(s: State, a: Action) {
    match a
    case MapClick(_) => !s.finished
    case GuessButton => !s.finished && s.guess.Some?
    case CancelButton => s.showConfirm && s.guess.Some?
    case ConfirmButton(dist) => s.showConfirm && s.guess.Some? && 0.0 <= dist
    case NextButton => s.showResult
    case RestartButton => true
  }

  /** The gating the rest of the model uses: the page as written, with the
      guess button also disabled while the result dialog is open
      (`disabled={!guessLatLng || showResult}`). See
      `DoubleAnswerAsWritten` for what the missing condition lets happen. */
  predicate Enabled(s: State, a: Action)
    ensures Enabled(s, a) ==> EnabledAsWritten(s, a)
    ensures EnabledAsWritten(s, a) && !Enabled(s, a) ==> a == GuessButton && s.showResult
  {
    EnabledAsWritten(s, a) && !(a.GuessButton? && s.showResult)
  }

  function Step(s: State, a: Action): State
    requires Inv(s) && Enabled(s, a)
  {
    match a
    case MapClick(p) => PickStep(s, p)
    case GuessButton => GuessStep(s)
    case CancelButton => CancelStep(s)
    case ConfirmButton(dist) => ConfirmStep(s, dist)
    case NextButton => NextStep(s)
    case RestartButton => RestartStep(s)
  }

  // ---------------------------------------------------------------------
  // Properties
  // ---------------------------------------------------------------------

  lemma TotalPointsAppend(answers: seq<Answer>, a: Answer)
    ensures TotalPoints(answers + [a]) == TotalPoints(answers) + a.points
  {
  }

  /** Every answer is worth 0..5000 points, so the total is at most 5000 per
      answer. */
  lemma {:induction false} TotalPointsBounds(answers: seq<Answer>)
    requires forall i :: 0 <= i < |answers| ==> 0 <= answers[i].points <= Scoring.MaxPoints
    ensures 0 <= TotalPoints(answers) <= |answers| * Scoring.MaxPoints
  {
    if answers != [] {
      TotalPointsBounds(answers[..|answers| - 1]);
    }
  }

  /** The score is bounded by the answers given, and never exceeds the
      total shown on the finish screen. */
  lemma ScoreBounds(s: State)
    requires Inv(s)
    ensures 0 <= s.score <= |s.answers| * Scoring.MaxPoints <= MaxTotal
  {
    forall i | 0 <= i < |s.answers|
      ensures 0 <= s.answers[i].points <= Scoring.MaxPoints
    {
      assert Scored(s.answers[i], i);
    }
    TotalPointsBounds(s.answers);
  }

  /** A map click lands only while picking and then only moves the guess;
      in any other phase nothing changes. */
  lemma PickGated(s: State, p: LatLng)
    requires Inv(s) && Enabled(s, MapClick(p))
    ensures PhaseOf(s) == Picking ==> PickStep(s, p) == s.(guess := Some(p))
    ensures PhaseOf(s) != Picking ==> PickStep(s, p) == s
  {
  }

  lemma PickKeepsInv(s: State, p: LatLng)
    requires Inv(s) && Enabled(s, MapClick(p))
    ensures Inv(PickStep(s, p))
  {
  }

  lemma GuessKeepsInv(s: State)
    requires Inv(s) && Enabled(s, GuessButton)
    ensures Inv(GuessStep(s))
  {
  }

  lemma CancelKeepsInv(s: State)
    requires Inv(s) && Enabled(s, CancelButton)
    ensures Inv(CancelStep(s))
  {
  }

  /** Confirm appends exactly one answer, for the current round and scored
      by the rule, and keeps the score equal to the sum of the answers'
      points; the round, the guess and the record do not change. */
  lemma ConfirmRecordsAnswer(s: State, dist: real)
    requires Inv(s) && Enabled(s, ConfirmButton(dist))
    ensures var r := ConfirmStep(s, dist);
      && Inv(r)
      && PhaseOf(r) == ShowingResult
      && r.answers == s.answers + [Answer(s.guess.value, Correct(s.current), dist, Scoring.Points(dist))]
      && r.score == s.score + Scoring.Points(dist)
      && r.current == s.current && r.guess == s.guess && r.bestScore == s.bestScore
  {
    var r := ConfirmStep(s, dist);
    var a := r.answers[|s.answers|];
    assert r.answers == s.answers + [a];
    TotalPointsAppend(s.answers, a);
    assert Scored(a, |s.answers|);
    assert Inv(r);
  }

  /** Next clears the result and the guess; before the last round it moves
      to the next round, after it the session is finished with every round
      answered and the record is the larger of the old record and the score. */
  lemma NextAdvances(s: State)
    requires Inv(s) && Enabled(s, NextButton)
    ensures var r := NextStep(s);
      && Inv(r)
      && r.answers == s.answers && r.score == s.score
      && (s.current + 1 < |Rounds| ==> PhaseOf(r) == Picking && r.current == s.current + 1 && r.bestScore == s.bestScore)
      && (s.current + 1 >= |Rounds| ==>
            && PhaseOf(r) == Finished && r.current == s.current
            && |r.answers| == |Rounds|
            && (r.bestScore == if s.score as real > s.bestScore then s.score as real else s.bestScore))
  {
  }

  /** Storage is written exactly when the record is beaten, with the new
      record, so the record never decreases. */
  lemma NextWritesOnlyRecords(s: State)
    requires Inv(s) && Enabled(s, NextButton)
    ensures NextWrite(s).Some? <==> NextStep(s).bestScore > s.bestScore
    ensures NextWrite(s).Some? ==> NextStep(s).bestScore == NextWrite(s).value as real
    ensures s.bestScore <= NextStep(s).bestScore
  {
  }

  lemma RestartKeepsInv(s: State)
    ensures Inv(RestartStep(s))
    ensures RestartStep(s) == Initial(s.bestScore)
  {
  }

  /** Every enabled action keeps the invariant and never lowers the record. */
  lemma StepKeepsInv(s: State, a: Action)
    requires Inv(s) && Enabled(s, a)
    ensures Inv(Step(s, a)) && s.bestScore <= Step(s, a).bestScore
  {
  }

  /** The phase each action leads to. */
  lemma StepPhases(s: State, a: Action)
    requires Inv(s) && Enabled(s, a)
    ensures match a
      case MapClick(_) => PhaseOf(Step(s, a)) == PhaseOf(s)
      case GuessButton =>
        && (PhaseOf(s) == Picking || PhaseOf(s) == Confirming)
        && PhaseOf(Step(s, a)) == Confirming
      case CancelButton => PhaseOf(s) == Confirming && PhaseOf(Step(s, a)) == Picking
      case ConfirmButton(_) => PhaseOf(s) == Confirming && PhaseOf(Step(s, a)) == ShowingResult
      case NextButton =>
        && PhaseOf(s) == ShowingResult
        && PhaseOf(Step(s, a)) == (if s.current + 1 < |Rounds| then Picking else Finished)
      case RestartButton => PhaseOf(Step(s, a)) == Picking
  {
  }

  /** Cancelling keeps the picked point: reopening the dialog returns to the
      very state that was cancelled, so a later confirm scores that point. */
  lemma CancelKeepsGuess(s: State, dist: real)
    requires Inv(s) && Enabled(s, ConfirmButton(dist))
    ensures var c := CancelStep(s);
      && c.guess == s.guess
      && Enabled(c, GuessButton)
      && GuessStep(c) == s
      && ConfirmStep(GuessStep(c), dist).answers[|s.answers|].guess == s.guess.value
  {
  }

  /** A sequence of user actions; actions the page does not offer in the
      current state never reach a handler and change nothing. The state at
      the end keeps the invariant and the record is no lower. */
  function Run(s: State, actions: seq<Action>): (r: State)
    requires Inv(s)
    ensures Inv(r) && s.bestScore <= r.bestScore
    decreases |actions|
  {
    if actions == [] then s
    else if Enabled(s, actions[0]) then
      StepKeepsInv(s, actions[0]);
      Run(Step(s, actions[0]), actions[1..])
    else
      Run(s, actions[1..])
  }

  /** From a fresh session, whatever the player does, the round index stays
      in the catalogue, the score is the sum of the answers and at most the
      finish screen's total, and the record is never below where it began. */
  lemma SessionBounds(best: real, actions: seq<Action>)
    ensures var r := Run(Initial(best), actions);
      && r.current < |Rounds|
      && r.score == TotalPoints(r.answers)
      && 0 <= r.score <= MaxTotal
      && best <= r.bestScore
  {
    ScoreBounds(Run(Initial(best), actions));
  }

  /** When the result dialog is open, the last answer is the current
      round's, so `answers[answers.length - 1]` exists and belongs to it. */
  function LastAnswer(s: State): (a: Answer)
    requires Inv(s) && (s.showResult || s.finished)
    ensures a == s.answers[|s.answers| - 1]
    ensures a.correct == Correct(s.current)
    ensures 0 <= a.points <= Scoring.MaxPoints && a.points == Scoring.Points(a.dist)
  {
    assert Scored(s.answers[|s.answers| - 1], |s.answers| - 1);
    s.answers[|s.answers| - 1]
  }

  /** `ROUNDS[answers.length - 1].label`: the name shown in the result
      dialog is in range and names the current round. */
  function ResultLabel(s: State): (name: string)
    requires Inv(s) && s.showResult
    ensures name == Rounds[s.current].name
  {
    Rounds[|s.answers| - 1].name
  }


  // ---------------------------------------------------------------------
  // The guess button under the result dialog, as written
  // ---------------------------------------------------------------------

  /** As written, the guess button still reaches `handleGuess` while the
      result is shown. Pressing it opens the confirm dialog over the result,
      and confirming records a second answer for the same round. The result
      dialog then looks up `ROUNDS[answers.length - 1]`: before the last
      round that names the next round, on the last round it is past the
      end of `ROUNDS`. */
  lemma DoubleAnswerAsWritten(s: State, dist: real)
    requires Inv(s) && PhaseOf(s) == ShowingResult && 0.0 <= dist
    ensures EnabledAsWritten(s, GuessButton) && !Enabled(s, GuessButton)
    ensures EnabledAsWritten(GuessStep(s), ConfirmButton(dist))
    ensures var r := ConfirmStep(GuessStep(s), dist);
      && !Inv(r)
      && r.current == s.current && PhaseOf(r) == ShowingResult
      && |r.answers| == s.current + 2
      && r.answers[s.current + 1].correct == r.answers[s.current].correct
      && (s.current + 1 < |Rounds| ==> Rounds[|r.answers| - 1].name != Rounds[s.current].name)
      && (s.current + 1 == |Rounds| ==> |r.answers| - 1 == |Rounds|)
  {
  }

  /** Pressing the guess button and confirming `k` more times while the
      result is shown, each press let through by the page as written. */
  function Reconfirm(s: State, dist: real, k: nat): (r: State)
    requires s.current < |Rounds| && s.showResult && s.guess.Some? && !s.finished && 0.0 <= dist
    ensures r.current == s.current && r.showResult && r.guess == s.guess && !r.finished
    ensures |r.answers| == |s.answers| + k
    ensures r.score == s.score + k * Scoring.Points(dist)
    decreases k
  {
    if k == 0 then s
    else
      var c := ConfirmStep(GuessStep(s), dist);
      Reconfirm(c, dist, k - 1)
  }

  /** Every press in `Reconfirm` is one the page as written accepts. */
  lemma ReconfirmEnabledAsWritten(s: State, dist: real, k: nat)
    requires s.current < |Rounds| && s.showResult && s.guess.Some? && !s.finished && 0.0 <= dist
    ensures forall j: nat :: j < k ==>
      && EnabledAsWritten(Reconfirm(s, dist, j), GuessButton)
      && EnabledAsWritten(GuessStep(Reconfirm(s, dist, j)), ConfirmButton(dist))
  {
  }

  /** One perfect guess in the first round, confirmed three more times:
      the score reaches 20000, above the 15000 the finish screen shows as
      the maximum, and `answers.length - 1` is 3, past the end of `ROUNDS`. */
  lemma ScoreBeyondTotalAsWritten(best: real)
    ensures var s1 := ConfirmStep(GuessStep(PickStep(Initial(best), Correct(0))), 0.0);
      var r := Reconfirm(s1, 0.0, 3);
      && EnabledAsWritten(Initial(best), MapClick(Correct(0)))
      && r.current == 0
      && r.score == 4 * Scoring.MaxPoints > MaxTotal
      && |r.answers| - 1 == |Rounds|
  {
  }
}
