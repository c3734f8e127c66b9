# Grade calculator: a verified model

The repository is a one-page grade calculator (a Next.js client component,
`Home` in `app/page.tsx`). The user types points earned and points possible;
the page checks them, computes a percentage rounded to two decimals, a letter
grade from a descending threshold table (A+ from 97 down to D- from 60, F
below) and a motivational message chosen by the letter's first character. It
shows the result, puts a record of it at the head of a history list that is
written through to browser local storage, raises an "explosion" alert for a
percentage of at most 50 and navigates to a celebration page for exactly 100.
History rows can be deleted one identifier at a time or all at once after a
confirmation; the inputs can be reset and the colour theme toggled.

The model has three modules:

- `Evaluator` (`evaluator.dfy`): the `TestEntry` record and the pure grading
  functions `Round2`, `Percentage`, `LetterGrade`, `Message` and
  `CalculateGrade`. The threshold table is checked against an independent
  definition, `Band` (how many of the floors 60, 63, …, 97 a percentage
  reaches), which yields monotonicity and every band boundary.
- `HistoryList` (`history.dfy`): `WithoutId`, the filter that deletes by
  identifier, with its order, absence, idempotence and length lemmas.
- `Session` (`session.dfy`): the checks of the calculate handler as
  `Validate`, and class `Home` whose fields are the component's state
  (`earned`, `total`, `currentGrade`, `history`, `error`, `theme`,
  `showExplosion`) plus `storage`, the `testHistory` key of local storage
  (`None` once the key is removed). Its invariant `Valid()` says that storage
  always holds exactly the history, that a displayed result is a well-formed
  entry and never shown with an error, and that the error line is empty or one
  of the three validation messages. `Walkthrough` drives a session (a perfect
  score, a failing one, a refused one, a delete and a clear) using only the
  handlers' contracts.

Observations the proofs make precise:

- The celebration fires exactly when the unrounded ratio is at least 99.995,
  so a score just under full marks (19999 of 20000) also reaches it; the alert
  fires exactly when the ratio is below 50.005 (`PerfectPercentage`,
  `FailingPercentage`). The two never fire for one submission.
- The negative-value check runs after `earned > total` has been excluded, so
  a negative total always comes with a negative earned value: that check is
  decided by `earned < 0` alone (`Validate`).
- `handleCalculate` only ever sets `showExplosion`; it is cleared only by the
  alert's close button, so the flag after a submission is the old flag or the
  new alert (`HandleCalculate`).
- A delete removes every entry carrying the identifier, not just one.

## Model

| member | source | states |
|---|---|---|
| `Evaluator.Round2` | app/page.tsx:63 | `toFixed(2)` then `parseFloat`: the result has two decimals and lies within half a hundredth of its input |
| `Evaluator.Round2Monotone` | app/page.tsx:63 | rounding to hundredths preserves order |
| `Evaluator.Round2Whole` | app/page.tsx:63 | a whole percentage is unchanged by rounding |
| `Evaluator.RawPercentage` | app/page.tsx:63 | earned / total * 100 lies in [0, 100] when 0 <= earned <= total |
| `Evaluator.Percentage` | app/page.tsx:63 | the stored percentage lies in [0, 100] for valid points |
| `Evaluator.PerfectPercentage` | app/page.tsx:63 | the rounded percentage is 100 exactly when the raw ratio is at least 99.995; full marks give 100 |
| `Evaluator.FailingPercentage` | app/page.tsx:63 | the rounded percentage is at most 50 exactly when the raw ratio is below 50.005 |
| `Evaluator.LetterGrade` | app/page.tsx:37-51 | every percentage gets one of the thirteen letter grades |
| `Evaluator.ReachedBetween` | app/page.tsx:37-51 | in an ascending floor table a value reaches exactly k floors iff it lies between floor k and floor k+1 |
| `Evaluator.ReachedMonotone` | app/page.tsx:37-51 | a larger value reaches at least as many floors |
| `Evaluator.LetterGradeIsBand` | app/page.tsx:37-51 | the first-match threshold chain equals the letter indexed by the number of floors reached |
| `Evaluator.LetterGradeBands` | app/page.tsx:38-50 | letter k is given exactly from floor k up to (excluding) floor k+1, for all thirteen bands, both directions |
| `Evaluator.LetterGradeBoundaries` | app/page.tsx:38-50 | A+ iff >= 97, F iff < 60, 60 gives D-, 100 gives A+, 96.99 gives A, 59.99 gives F, and each floor starts its band |
| `Evaluator.LetterGradeMonotone` | app/page.tsx:37-51 | a higher percentage never gets a lower letter in the order F < D- < ... < A+ |
| `Evaluator.Message` | app/page.tsx:54-59 | the message is one of the four texts |
| `Evaluator.MessageOfLetter` | app/page.tsx:54-59 | "Great job" only for A+, "Stellar" for the other A and B grades, "Try a little harder" for C grades, "studying" for D grades and F |
| `Evaluator.MessageOfPercentage` | app/page.tsx:54-59 | the message by percentage: >= 97 great, [80, 97) stellar, [70, 80) try harder, below 70 study |
| `Evaluator.CalculateGrade` | app/page.tsx:62-74 | the entry keeps id, date, earned and total; its letter is the grade of its percentage and its message that of its letter; its percentage is within 0.005 of the raw ratio; for valid points it is well formed and in [0, 100] |
| `HistoryList.WithoutId` | app/page.tsx:139 | the kept entries are exactly the old entries whose id differs, and there are no more of them |
| `HistoryList.WithoutIdConcat` | app/page.tsx:139 | deleting distributes over concatenation, so the kept entries keep their order |
| `HistoryList.WithoutAbsentId` | app/page.tsx:139 | deleting an id no entry carries leaves the history unchanged |
| `HistoryList.WithoutIdIdempotent` | app/page.tsx:139 | deleting the same id twice equals deleting it once |
| `HistoryList.WithoutIdLength` | app/page.tsx:139 | the new length is the old length minus the number of entries carrying the id |
| `Session.ErrorText` | app/page.tsx:81-93 | each validation error has a non-empty message |
| `Session.Validate` | app/page.tsx:80-96 | checks in order earned > total, total == 0, negative; accepts exactly when 0 <= earned <= total and total > 0 |
| `Session.Flip` | app/page.tsx:156 | toggling always changes the theme |
| `Session.FlipInvolution` | app/page.tsx:156 | toggling twice restores the theme |
| `Session.Home.constructor` | app/page.tsx:19-34 | zero inputs, no result or error, green theme, no alert, history loaded from the stored value (empty when the key is absent) |
| `Session.Home.SetEarned` | app/page.tsx:228 | the earned input takes the parsed value |
| `Session.Home.SetTotal` | app/page.tsx:245 | the total input takes the parsed value |
| `Session.Home.HandleCalculate` | app/page.tsx:77-125 | refusal: the error text, no result, history and storage unchanged, no signal; acceptance: the new entry displayed and prepended to the history, storage equal to the new history, empty error, percentage in [0, 100], alert iff <= 50, celebration iff == 100, never both; inputs and theme unchanged; invariant kept |
| `Session.Home.ClearHistory` | app/page.tsx:128-133 | confirmed: empty history and storage key removed; not confirmed: nothing changes; other fields unchanged |
| `Session.Home.DeleteEntry` | app/page.tsx:136-142 | history becomes the filtered list, storage equals it, unchanged when the id is absent; other fields unchanged |
| `Session.Home.ClearInputs` | app/page.tsx:145-150 | inputs zero, no result, no error; history, storage, theme and alert unchanged |
| `Session.Home.ToggleTheme` | app/page.tsx:153-157 | the theme becomes the other one |
| `Session.Home.DismissExplosion` | app/page.tsx:400 | the explosion alert is closed |

## Left out

- Rendering, theme colour tables and modal markup (`app/page.tsx` from line 161 on, apart from the alert's close button) and the celebration page `app/celebration/page.tsx`: presentation only. Navigation is the `celebrate` result of `HandleCalculate`.
- Local storage and JSON: storage is the field `storage` holding the sequence itself; serialisation is not modelled, and writes always succeed (the code has no error handling for them). Loading takes the already-parsed stored value; a malformed stored string, which the code's unguarded `JSON.parse` would throw on, is not modelled.
- `Date.now()`, `Math.random()` and `toLocaleString()`: the entry's id and date are parameters of `CalculateGrade` and `HandleCalculate`; ids are not assumed unique, which is why a delete is modelled as removing every entry with that id.
- `confirm(...)`: its answer is the `confirmed` parameter of `ClearHistory`.
- Floating point: points and percentages are exact reals. `Round2` rounds halves upwards, which is what `toFixed(2)` does on exact non-negative values; IEEE representation error, infinities and NaN are not modelled.
- Input parsing `parseFloat(...) || 0`: `SetEarned` and `SetTotal` take the parsed number.
- Entries loaded from storage are not assumed well formed; `Valid()` states well-formedness only for the displayed result, which the page itself computes.
- A failed storage write is not rolled back and a malformed stored value makes the load throw; the model captures neither.
