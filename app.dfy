/** The `App` component's state, updated in place by its event handlers.
    Each handler is specified by the matching transition of module Session;
    the record written to storage is kept as a ghost log. */
module GameApp {
  import opened Wrappers
  import opened Geo
  import Scoring
  import opened Session

  class App {
    var current: nat
    var guessLatLng: Option<LatLng>
    var showResult: bool
    var showConfirm: bool
    var answers: seq<Answer>
    var score: int
    var bestScore: real
    var finished: bool
    /** Every value written to the `bestScore` storage key, oldest first. */
    ghost var persisted: seq<int>

    /** The state fields as one value. */
    function Snapshot(): State
      reads this
    {
      State(current, guessLatLng, showResult, showConfirm, answers, score, bestScore, finished)
    }

    /** The progress invariant, and a storage log that only ever records a
        new, higher record, the last of which is the record held in memory. */
    ghost predicate Valid()
      reads this
    {
      && Inv(Snapshot())
      && (forall i, j :: 0 <= i < j < |persisted| ==> persisted[i] < persisted[j])
      && (persisted != [] ==> persisted[|persisted| - 1] as real == bestScore)
    }

    /** Mounting: every field at its initial value, the record read from
        storage. */
    constructor (stored: Option<real>)
      ensures Valid()
      ensures Snapshot() == Initial(LoadBestScore(stored)) && persisted == []
    {
      current := 0;
      guessLatLng := None;
      showResult := false;
      showConfirm := false;
      answers := [];
      score := 0;
      bestScore := LoadBestScore(stored);
      finished := false;
      persisted := [];
    }

    /** A click on the map, through `LocationPicker`. */
    method Pick(p: LatLng)
      requires Valid() && Enabled(Snapshot(), MapClick(p))
      modifies this
      ensures Valid()
      ensures Snapshot() == PickStep(old(Snapshot()), p) && persisted == old(persisted)
    {
      if !showResult && !showConfirm {
        guessLatLng := Some(p);
      }
      PickKeepsInv(old(Snapshot()), p);
    }

    /** `handleGuess`, under the corrected gating `Session.Enabled`: not
        while the result is shown. */
    method HandleGuess()
      requires Valid() && Enabled(Snapshot(), GuessButton)
      modifies this
      ensures Valid()
      ensures Snapshot() == GuessStep(old(Snapshot())) && persisted == old(persisted)
    {
      showConfirm := true;
      GuessKeepsInv(old(Snapshot()));
    }

    /** The cancel button of the confirm dialog. */
    method Cancel()
      requires Valid() && Enabled(Snapshot(), CancelButton)
      modifies this
      ensures Valid()
      ensures Snapshot() == CancelStep(old(Snapshot())) && persisted == old(persisted)
    {
      showConfirm := false;
      CancelKeepsInv(old(Snapshot()));
    }

    /** `handleConfirm`; `dist` is the great-circle distance in kilometres
        from the guess to the current round's place. */
    method HandleConfirm(dist: real)
      requires Valid() && Enabled(Snapshot(), ConfirmButton(dist))
      modifies this
      ensures Valid()
      ensures Snapshot() == ConfirmStep(old(Snapshot()), dist) && persisted == old(persisted)
    {
      var correct := Correct(current);
      var guess := guessLatLng.value;
      var points := Scoring.Points(dist);
      answers := answers + [Answer(guess, correct, dist, points)];
      score := score + points;
      showConfirm := false;
      showResult := true;
      ConfirmRecordsAnswer(old(Snapshot()), dist);
    }

    /** `handleNext`, writing the record to storage when it is beaten. */
    method HandleNext()
      requires Valid() && Enabled(Snapshot(), NextButton)
      modifies this
      ensures Valid()
      ensures Snapshot() == NextStep(old(Snapshot()))
      ensures persisted == old(persisted) + (match NextWrite(old(Snapshot())) case Some(v) => [v] case None => [])
      ensures old(bestScore) <= bestScore
    {
      ghost var before := Snapshot();
      showResult := false;
      guessLatLng := None;
      if current + 1 < |Rounds| {
        current := current + 1;
      } else {
        if score as real > bestScore {
          bestScore := score as real;
          persisted := persisted + [score];
        }
        finished := true;
      }
      NextAdvances(before);
      NextWritesOnlyRecords(before);
    }

    /** `handleRestart`. */
    method HandleRestart()
      requires Valid()
      modifies this
      ensures Valid()
      ensures Snapshot() == RestartStep(old(Snapshot())) && persisted == old(persisted)
    {
      current := 0;
      guessLatLng := None;
      showResult := false;
      showConfirm := false;
      answers := [];
      score := 0;
      finished := false;
      RestartKeepsInv(old(Snapshot()));
    }
  }

  /** A three-round session against a stored record of 6000. The guesses
      are the first round's place itself, then points due north of the
      second and third rounds' places by about 80 km and 8000 km. The
      distances are passed in, as great-circle distance is not modelled.
      The rounds score 5000, 3000 and 0; the session ends at 8000, which
      becomes the record and is written to storage once. */
  method ThreeRoundSession() returns (finalScore: int, record: real)
    ensures finalScore == 8000 && record == 8000.0
  {
    assert Scoring.Points(0.0) == 5000 && Scoring.Points(80.0) == 3000;
    assert Scoring.Points(8000.0) == 0;
    var app := new App(Some(6000.0));
    assert app.bestScore == 6000.0;
    app.Pick(LatLng(40.7576, -73.985881));
    app.HandleGuess();
    app.HandleConfirm(0.0);
    assert app.score == 5000 && app.current == 0 && app.showResult;
    app.HandleNext();
    assert app.score == 5000 && app.current == 1 && !app.finished && app.bestScore == 6000.0;
    app.Pick(LatLng(52.2322, -0.08351298054934982));
    app.HandleGuess();
    app.HandleConfirm(80.0);
    assert app.score == 8000 && app.current == 1 && app.showResult;
    app.HandleNext();
    assert app.score == 8000 && app.current == 2 && !app.finished && app.bestScore == 6000.0;
    app.Pick(LatLng(38.0879, 151.21427994751795));
    app.HandleGuess();
    app.HandleConfirm(8000.0);
    assert app.score == 8000 && app.current == 2 && app.showResult;
    app.HandleNext();
    assert app.finished && app.persisted == [8000];
    finalScore, record := app.score, app.bestScore;
  }

}
