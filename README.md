# Globe Guesser: the game core in Dafny

Globe Guesser shows the player a 360° panorama of a place and asks them to
click the spot on a world map. A guess is scored by its distance from the
place: 5000 points on the spot, 25 points fewer per kilometre, never below
zero. A session is the fixed sequence of three rounds in `ROUNDS`. The
session score is the sum of the rounds' points. The best score ever reached
is kept in browser storage. After each round a result map shows the guess,
the answer and a line between them, zoomed according to the distance.

Everything lives in one React component file, `src/App.jsx`. This project
models its game logic:

- `scoring.dfy` (module `Scoring`) is the points rule
  `Math.max(0, Math.round(5000 - dist * 25))`. `Math.round` is written as
  `Floor(x + 0.5)` over the reals. The lemmas prove the bounds, the value at
  distance zero, monotonicity, the exact zero threshold (199.98 km) and the
  rate of decay.
- `result_view.dfy` (module `ResultView`) holds the result-map geometry:
  - `normalizeLng`, with JavaScript's `%` written as a truncating
    remainder. The same three-line function appears at lines 420-424,
    505-509 and 543-547; it is modelled once.
  - the two endpoints that `getShortestPath` returns.
  - the distance-tier table that picks the zoom ceiling and the padding in
    `MapController`.
  - the zoom of the fallback view.
- `session.dfy` (module `Session`) holds the catalogue `ROUNDS`, a value
  `State` for the eight state fields of `App`, and one pure transition per
  handler. It also holds the progress invariant `Inv` and the actions the
  page offers in each state: `EnabledAsWritten` as the page is written,
  and `Enabled` with the guess button also disabled under the result
  dialog (see "## Findings"). Lemmas prove that every action `Enabled`
  lets through keeps the invariant and never lowers the best score, over
  single steps and over whole runs of actions, and what the as-written
  gating lets happen instead.
- `app.dfy` (module `GameApp`) is the component itself: a class `App` with
  the same eight fields. There is one method per handler, and each method
  updates the fields in place. Its `ensures` ties the new `Snapshot()` to the
  matching `Session` transition of the old one and keeps `Valid()`.
  Storage writes are kept in a ghost log, `persisted`.
  `ThreeRoundSession` plays a whole session against the class: rounds
  scoring 5000, 3000 and 0 against a stored record of 6000 end at 8000, and
  that becomes the new record.
- `geo.dfy` and `wrappers.dfy` hold the `LatLng` pair and `Option`.

Where the code and its comments disagree, the model follows the code. The
comment above `normalizeLng` (line 419) promises the range [-180, 180].
The code yields [-180, 180): 180 itself becomes -180
(`ResultView.NormalizeLng180`).

Some facts about the code that shape the model:

- The stored best score is read with `Number(...) || 0`. That accepts
  negative and fractional values; only NaN and 0 give 0. So `bestScore` is
  a `real` here.
- Answers carry no round index. The result dialog and the invariant both
  take answer `i` to belong to round `i` (`Session.Scored`).
- Restart is modelled as the handler is written, from any state. The page
  shows its button only on the finish screen.

The page decides which handlers can run in which state, and
`Session.EnabledAsWritten` records these decisions:

- The map is not mounted on the finish screen (line 131), and a click sets
  the guess only while no dialog is open (line 222).
- The guess button is drawn whenever the session is not finished and is
  disabled only without a guess (line 245). The guess stays set while the
  result is shown, so nothing in the page itself stops the button from
  being pressed under the result dialog, for example with the keyboard.
- Cancel and confirm exist only in the dialog drawn while
  `showConfirm && guessLatLng` (line 295).
- Next exists only in the result dialog (line 277).

`Session.Enabled` is the same gating with the guess button also disabled
while the result is shown. The invariant, the class and the session
lemmas use it; "## Findings" says why.

## Model

| member | source | states |
|---|---|---|
| `Scoring.JsRound` | src/App.jsx:81 | `Math.round(x)` is the integer within (x - 0.5, x + 0.5], so a half is rounded up |
| `Scoring.Points` | src/App.jsx:81 | the points of a round are never negative, and at most 5000 for a non-negative distance |
| `Scoring.PointsNearLinear` | src/App.jsx:81 | while a guess scores anything, its points are within half a point of 5000 - 25·d |
| `Scoring.PointsAtZero` | src/App.jsx:81 | a guess at distance 0 earns 5000 |
| `Scoring.PointsMonotone` | src/App.jsx:81 | a larger distance never earns more points |
| `Scoring.PointsPositiveIff` | src/App.jsx:81 | a guess earns points if and only if it is at most 199.98 km away |
| `Scoring.PointsZeroFrom200` | src/App.jsx:81 | every distance of 200 km or more earns 0 |
| `Scoring.PointsStep` | src/App.jsx:81 | while a guess scores, 0.04 km more costs exactly one point (25 per km) |
| `ResultView.Trunc` | src/App.jsx:421 | the quotient behind JavaScript's `%` is rounded toward zero: no larger in magnitude than x, and less than one away from it |
| `ResultView.Rem360` | src/App.jsx:421 | `x % 360` keeps the sign of x, is smaller than 360 in magnitude and lies on the same meridian as x |
| `ResultView.NormalizeLng` | src/App.jsx:420-424 | the normalised longitude lies in [-180, 180) and names the same meridian as the input |
| `ResultView.InRangeUnique` | src/App.jsx:420-424 | [-180, 180) holds only one longitude of each meridian |
| `ResultView.NormalizeLngFixesInRange` | src/App.jsx:420-424 | a longitude already in [-180, 180) is returned unchanged |
| `ResultView.NormalizeLngIdempotent` | src/App.jsx:420-424 | normalising twice gives the same result as normalising once |
| `ResultView.NormalizeLngCharacterised` | src/App.jsx:420-424 | `normalizeLng(x) == r` if and only if r is in [-180, 180) and on x's meridian |
| `ResultView.NormalizeLngPeriodic` | src/App.jsx:420-424 | longitudes a whole turn apart normalise to the same value |
| `ResultView.NormalizeLng180` | src/App.jsx:419-424 | 180 normalises to -180, so the upper end of the commented range [-180, 180] is never returned |
| `ResultView.Normalized` | src/App.jsx:564-565 | a marker keeps its latitude and gets a longitude in [-180, 180) on its meridian |
| `ResultView.ShortestPath` | src/App.jsx:501-531 | the path is exactly two points with their latitudes unchanged and their longitudes normalised onto the same meridians |
| `ResultView.ShortestPathJoinsMarkers` | src/App.jsx:514-530 | the `> 180` branch changes nothing: the path joins the two normalised marker positions and spans less than one turn of longitude |
| `ResultView.ShortestPathIdempotent` | src/App.jsx:501-531 | computing the path again from its own endpoints gives the same path |
| `ResultView.ShortestPathLongWay` | src/App.jsx:517-525 | points at 170 and -170 are joined the long way round (340 degrees), not across the antimeridian |
| `ResultView.ViewFit` | src/App.jsx:453-478 | the zoom ceiling is between 4 and 16 and the padding between 0.2 and 1.5 |
| `ResultView.ViewFitIsTable` | src/App.jsx:453-478 | the if/else chain selects the table row indexed by the number of tier bounds 1, 10, 100, 1000, 5000 that the distance has reached |
| `ResultView.ViewFitMonotone` | src/App.jsx:453-478 | neither the zoom ceiling nor the padding grows with the distance |
| `ResultView.ViewFitBoundaries` | src/App.jsx:454-474 | each bound itself falls in the farther tier (1 km gives zoom 14, 5000 km gives zoom 4) |
| `ResultView.ViewFitExtremes` | src/App.jsx:454-478 | a 0.5 km result gets zoom ceiling 16 and padding 1.5; a 6000 km one gets 4 and 0.2 |
| `ResultView.FallbackZoom` | src/App.jsx:486-491 | the fallback `Math.min(maxZoom, 3)` is 3 for every distance |
| `Session.LoadBestScore` | src/App.jsx:68 | the loaded record is 0 exactly when the stored number is NaN or 0, and otherwise it is the stored number |
| `Session.Initial` | src/App.jsx:62-69 | the initial state satisfies the progress invariant and is in the picking phase |
| `Session.PickStep` | src/App.jsx:50-59 | a map click changes at most the guess, and only to the clicked point while no dialog is open (line 222) |
| `Session.GuessStep` | src/App.jsx:73-75 | the guess handler opens the confirm dialog and changes nothing else |
| `Session.CancelStep` | src/App.jsx:320 | cancel closes the confirm dialog and changes nothing else |
| `Session.ConfirmStep` | src/App.jsx:77-87 | confirm keeps the earlier answers and appends one {guess, current round's place, dist, points by the rule}; the score grows by those points; the result is shown and the dialog closed; round, guess, record and finish flag are unchanged |
| `Session.NextStep` | src/App.jsx:89-101 | next closes the result, clears the guess and keeps answers and score; before the last round it moves to the next round with the record unchanged, after it the session is finished and the record is at least the score |
| `Session.NextWrite` | src/App.jsx:94-97 | next writes to storage exactly when the last round is done and the score beats the record, and then writes the score, which is the new record |
| `Session.RestartStep` | src/App.jsx:103-111 | restart from any state gives the initial state with the record kept |
| `Session.Enabled` | src/App.jsx:243-245 | the corrected gating lets through only actions the page as written lets through, and differs from it only in the guess button while the result is shown |
| `Session.TotalPointsAppend` | src/App.jsx:82-84 | appending an answer adds exactly its points to the sum |
| `Session.TotalPointsBounds` | src/App.jsx:81-84 | a sum of answers worth 0 to 5000 each is between 0 and 5000 per answer |
| `Session.ScoreBounds` | src/App.jsx:265 | in every valid state, 0 <= score <= 5000 per answer <= 5000 per round of `ROUNDS`, the total shown on the finish screen |
| `Session.PickGated` | src/App.jsx:222 | a map click sets the guess only while picking; in any other phase the state is unchanged |
| `Session.PickKeepsInv` | src/App.jsx:50-59 | a map click keeps the progress invariant |
| `Session.GuessKeepsInv` | src/App.jsx:73-75 | opening the confirm dialog with a guess keeps the invariant |
| `Session.CancelKeepsInv` | src/App.jsx:320 | cancelling keeps the invariant |
| `Session.ConfirmRecordsAnswer` | src/App.jsx:77-87 | confirm appends exactly one answer {guess, correct point of the current round, dist, points}, adds its points to the score, shows the result, keeps the invariant and leaves the round, the guess and the record unchanged |
| `Session.NextAdvances` | src/App.jsx:89-101 | next clears the result and the guess. Before the last round it moves to the next round. After it the session is finished, every round is answered, the round stays, and the record becomes max(old record, score) |
| `Session.NextWritesOnlyRecords` | src/App.jsx:95-98 | storage is written if and only if the record rises, and with the new record, so the record never decreases |
| `Session.RestartKeepsInv` | src/App.jsx:103-111 | restart yields the initial state with the record unchanged |
| `Session.StepKeepsInv` | src/App.jsx:62-111 | every action the page offers keeps the invariant and never lowers the record |
| `Session.StepPhases` | src/App.jsx:73-111 | guess goes from picking (or confirming) to confirming, cancel from confirming to picking, confirm from confirming to showing the result, next from the result to picking or finished, restart to picking, and a click keeps the phase |
| `Session.CancelKeepsGuess` | src/App.jsx:320 | cancel keeps the picked guess; reopening the dialog restores the cancelled state, and a later confirm records that guess |
| `Session.Run` | src/App.jsx:62-111 | any sequence of user actions from a valid state ends in a valid state with a record no lower |
| `Session.SessionBounds` | src/App.jsx:62-111 | from a fresh session, whatever is clicked, the round index stays in the catalogue, score is the sum of the answers' points and at most 5000 per round of `ROUNDS`, and the record never drops |
| `Session.LastAnswer` | src/App.jsx:281-288 | while the result is shown, the answer displayed is `answers[answers.length - 1]`, which exists, belongs to the current round, and carries points in 0..5000 given by the rule |
| `Session.ResultLabel` | src/App.jsx:286 | `ROUNDS[answers.length - 1].label` is in range and is the current round's label |
| `Session.DoubleAnswerAsWritten` | src/App.jsx:73-87 | as written, the guess button works under the result dialog; confirming again keeps the round, records a second answer for it and breaks the invariant, and the label lookup then names the next round or, on the last round, indexes past the end of `ROUNDS` |
| `Session.Reconfirm` | src/App.jsx:73-87 | pressing guess and confirm k more times under the result keeps the round and the result shown, adds k answers and k times the points of the distance |
| `Session.ReconfirmEnabledAsWritten` | src/App.jsx:243-245 | every press in such a repetition is one the page as written lets through |
| `Session.ScoreBeyondTotalAsWritten` | src/App.jsx:77-87 | a perfect first-round guess confirmed four times scores 20000, above the 15000 maximum the finish screen shows, with `answers.length - 1` past the end of `ROUNDS` |
| `GameApp.App.constructor` | src/App.jsx:62-69 | a mounted component is in the initial state with the record loaded from storage, and nothing is written yet |
| `GameApp.App.Pick` | src/App.jsx:50-59 | a map click updates the fields as `PickStep` does and keeps `Valid()` |
| `GameApp.App.HandleGuess` | src/App.jsx:73-75 | under the corrected gating, sets only `showConfirm` and keeps `Valid()` |
| `GameApp.App.Cancel` | src/App.jsx:320 | clears only `showConfirm` and keeps `Valid()` |
| `GameApp.App.HandleConfirm` | src/App.jsx:77-87 | updates the fields as `ConfirmStep` does and keeps `Valid()`; nothing is written to storage |
| `GameApp.App.HandleNext` | src/App.jsx:89-101 | updates the fields as `NextStep` does. It writes to storage only the value `NextWrite` names, so the storage log stays strictly increasing and ends at the record, and the record never decreases |
| `GameApp.App.HandleRestart` | src/App.jsx:103-111 | resets every field but the record, as `RestartStep` does, and keeps `Valid()` |
| `GameApp.ThreeRoundSession` | src/App.jsx:77-101 | three rounds at distances 0, 80 and 8000 km, scoring 5000, 3000 and 0 against a stored record of 6000 end with score 8000 and record 8000, written to storage once |

## Findings

| source | as written | input that shows it | evidently intended | confidence | as-written member | corrected member |
|---|---|---|---|---|---|---|
| src/App.jsx:243-245 | the guess button is disabled only by `!guessLatLng`, and the guess stays set while the result dialog is open, so `handleGuess` can still run then | in any round, after confirming, focus the guess button under the result dialog (e.g. with Tab), press it, then confirm again: a second answer is recorded for the round; on the last round the result dialog reads `ROUNDS[3].label` and throws, and repeating it in round 1 takes the score to 20000 of 15000 | the button is inactive while the result is shown (also disabled while `showResult` holds), so each round gets exactly one answer | medium: not executed; it needs keyboard focus to reach the button under the dialog overlay, whose styling is not part of this model | `Session.DoubleAnswerAsWritten` | `Session.Enabled` |

## Left out

- Great-circle distance (`getDistanceKm`, lines 113-124, and its copy at
  438-447) uses floating-point trigonometry. The distance is an input to
  `HandleConfirm` and to `ViewFit`.
- `GameApp.App.HandleConfirm` and `Session.Enabled` take the distance to be
  non-negative, as a great-circle distance is. The source never checks for
  negative distances or NaN.
- Floating point in general: the model computes over exact reals. It does
  not capture the rounding of `lng + 180`, `% 360` or `dist * 25` in IEEE
  doubles, or NaN and the infinities.
- Leaflet's viewport calls (`latLngBounds`, `bounds.pad`, `fitBounds`,
  `getCenter`, `setView`) are foreign library behaviour, and so is the
  100 ms `setTimeout` before fitting. Only the tier choice and the fallback
  zoom are modelled, not whether `fitBounds` throws.
- `localStorage` is I/O. Its text goes through `Number(...)`, and the result
  of that (`None` for NaN) is the constructor's argument. Writes go to the
  ghost log `persisted`. Text parsing is not modelled.
- React's batching and stale closures are not modelled. Each handler is one
  atomic update of the state after the last render.
- Presentation is not modelled: layout and styling, the panorama `iframe`,
  marker icons, the `mapExpanded` toggle, the QR-code dialog, and
  `toFixed(1)` formatting.
- `GameApp.App.HandleGuess`, `Session.GuessKeepsInv`, `Session.StepKeepsInv`,
  `Session.StepPhases`, `Session.Run` and `Session.SessionBounds` assume the
  corrected gating `Session.Enabled`: the guess button does nothing while
  the result is shown. The page as written runs `handleGuess` then, and a
  further confirm records extra answers; `Session.DoubleAnswerAsWritten`,
  `Session.Reconfirm` and `Session.ScoreBeyondTotalAsWritten` state what
  happens instead.
- `GameApp.App.HandleNext` assumes that `localStorage.setItem` (line 97)
  returns. If it throws because storage is full or blocked, the handler
  stops before `setFinished(true)`, the updates queued on lines 90, 91 and
  96 still apply, and the last round reopens for picking with one answer
  too many. `GameApp.App.constructor` likewise assumes that
  `localStorage.getItem` (line 68) returns; if it throws, mounting fails.
