# Space-weather operations dashboard: decision logic

This project models the decision logic of a single-page dashboard. The dashboard estimates how
space-weather-driven GNSS positioning error affects a flying unit's equipment. All of that logic
lives in one React component file, `src/App.js`. The model takes the logic out of the rendering
code and states what it guarantees:

- **Dashboard** (`dashboard.dfy`). The largest predicted error of the 24-hour forecast is banded
  against the unit's default threshold. Above the threshold is 위험 (danger). Above 70% of it is
  주의 (caution). Anything else is 정상 (normal). Each equipment entry gets a two-way flag against its
  own `sensitivity`. Each ADS-B track gets a colour from its NIC (navigation integrity category).
- **Settings** (`settings.dfy`). Three edits of the equipment list, each building a new list:
  change one field of the entries with a given id, append a default entry with a fresh id, and
  remove by id.
- **Feedback** (`feedback.dfy`, `app_state.dfy`). Submitting a mission report always appends a
  log. A caution or danger report can lead to a proposal to lower the named equipment's
  sensitivity to 90% of its value, rounded to hundredths. This happens when the forecast error at
  the report's hour was below that sensitivity. The change is applied only if the operator
  confirms. The application state is a class, `AppState.App`, and the submission is a method
  that changes its fields.
- **Profile** and **Common** (`profile.dfy`, `common.dfy`). The records, the profile the
  application starts from, and `FindFirst`, a model of `Array.prototype.find`.

Thresholds and errors are exact `real`s. `Math.max` of an empty list is -Infinity in
JavaScript, so `MaxError` returns `None` for an empty forecast. -Infinity exceeds no threshold, so
the unit status is then 정상 for every threshold and no equipment is at risk. Reading an empty
forecast as a maximum error of 0 would differ from this only for a negative threshold.

The hour of a report is the text before its first colon. A forecast point matches when its label
starts with that text. `HourPart` and `HourMatches` model this exactly, including the case where a
time without a leading zero ("1:30") also matches "10:00".

The reduction is applied by id, as the source maps over the list by id. "Only the named entry
changes" holds when ids are unique, which every edit of the list preserves; if ids repeat, every
entry sharing the found entry's id is changed (`Feedback.RetuneAppliesById`).

## Model

| member | source | states |
|---|---|---|
| `Common.FindFirst` | src/App.js:85-89 | `find` returns the first element satisfying the callback, and it returns nothing exactly when no element does |
| `Dashboard.MaxError` | src/App.js:165 | the result is absent exactly for an empty forecast; otherwise it is at least every predicted error and equal to one of them |
| `Dashboard.Classify` | src/App.js:166-172 | danger iff error > threshold; caution iff 0.7·threshold < error ≤ threshold; normal iff neither, including error = 0.7·threshold |
| `Dashboard.OverallStatusByHour` | src/App.js:165-172 | the unit status read hour by hour: danger iff some hour exceeds the threshold, caution iff none does but one exceeds 70% of it, normal iff every hour is at or below both |
| `Dashboard.OverallStatus` | src/App.js:165-172 | the unit status is the worst hourly status: at least the banding of every hour's error and equal to the banding of one of them; 정상 for an empty forecast |
| `Dashboard.ClassifyMonotone` | src/App.js:166-172 | a larger error never gives a lower status, and a larger threshold never gives a higher one |
| `Dashboard.MoreHoursNeverLower` | src/App.js:165-172 | adding a forecast hour never lowers the unit status |
| `Dashboard.ClassifyAtEdges` | src/App.js:167-170 | the band edges are strict: 10 against 10 is caution, 10.01 is danger, 7 is normal, 7.01 is caution |
| `Dashboard.IsAtRisk` | src/App.js:217-219 | an entry is at risk iff some forecast hour's error is above its sensitivity |
| `Dashboard.EquipmentLabel` | src/App.js:219-225 | the label is 위험 or 정상, and 위험 exactly when some hour's error is above the entry's sensitivity |
| `Dashboard.EquipmentFlagIsDangerBand` | src/App.js:217-225 | the per-entry flag is the danger band of the unit banding with the entry's sensitivity as threshold; its label is 위험 or 정상 and never 주의 |
| `Dashboard.NicColour` | src/App.js:253-255 | red iff NIC < 4, orange iff 4 ≤ NIC < 8, lime iff NIC ≥ 8 |
| `Dashboard.NicColourMonotone` | src/App.js:253-255 | a higher NIC never gets a more alarming colour |
| `Settings.Apply` | src/App.js:289 | the spread keeps the id, sets the edited field and keeps the other field |
| `Settings.UpdateEquipment` | src/App.js:287-292 | same length; every entry with the given id is edited and every other entry is unchanged |
| `Settings.UpdateKeepsIds` | src/App.js:287-292 | every entry keeps its id at its position, so unique ids stay unique |
| `Settings.UpdateAbsentIsIdentity` | src/App.js:287-292 | editing an id that no entry has leaves the list unchanged |
| `Settings.UpdateIdempotent` | src/App.js:287-292 | making the same edit twice is the same as making it once |
| `Settings.MaxId` | src/App.js:295 | the largest id is at least every id and is one of them |
| `Settings.NewId` | src/App.js:295 | the new id is 1 for an empty list; otherwise it is one more than an existing id and greater than every id |
| `Settings.AddEquipment` | src/App.js:294-300 | the list grows by one entry at the end, the old entries are unchanged, and the new entry is "신규 장비" with sensitivity 10.0 and id `NewId` (max+1, or 1), which no entry had |
| `Settings.AddKeepsUniqueIds` | src/App.js:294-300 | adding keeps ids unique |
| `Settings.RemoveEquipment` | src/App.js:302-307 | no entry with the removed id remains, and the list never grows |
| `Settings.RemoveKeepsOthers` | src/App.js:302-307 | an entry is kept iff it was in the list and its id differs from the removed one |
| `Settings.RemoveDistributes` | src/App.js:302-307 | removal from a concatenation is the concatenation of the removals, so the kept entries keep their order |
| `Settings.RemoveAbsentIsIdentity` | src/App.js:302-307 | removing an id that no entry has leaves the list unchanged |
| `Settings.RemoveDropsOne` | src/App.js:302-307 | with unique ids, removing a present id shortens the list by exactly one |
| `Settings.RemoveKeepsUniqueIds` | src/App.js:302-307 | removal keeps ids unique |
| `Settings.AddThenRemove` | src/App.js:294-307 | removing the entry just added gives back the original list |
| `Settings.UpdateThenRemove` | src/App.js:287-307 | editing entries and then removing them is the same as removing them |
| `Feedback.Stamp` | src/App.js:80 | the stored log carries the given id and the submitted report unchanged |
| `Feedback.IsWarning` | src/App.js:83 | an impact level warns exactly when it is the label of a status above 정상 (주의 or 위험) |
| `Feedback.HourMatches` | src/App.js:85 | `startsWith`: the hour is exactly the first characters of the forecast label |
| `Feedback.HourPart` | src/App.js:84 | `split(':')[0]`: a prefix of the time, with no colon in it, followed by a colon or by the end of the time |
| `Feedback.Round2` | src/App.js:92 | the result is a whole number of hundredths within half a hundredth of the input; for a non-negative input a half rounds up |
| `Feedback.ReductionLowers` | src/App.js:92 | above 0.05, the proposed sensitivity is strictly below the current one |
| `Feedback.Proposal` | src/App.js:83-93 | a proposal is only made for a 주의 or 위험 report; the forecast error it reports is below the current sensitivity and the proposed value is round2(current·0.9) |
| `Feedback.ProposalSpec` | src/App.js:83-93 | a reduction is proposed iff the report is 주의 or 위험, the first forecast point for its hour and the first entry with its name exist, and that forecast error is below that entry's sensitivity; the proposal carries that entry's id, its sensitivity, round2(sensitivity·0.9) and the error |
| `Feedback.Retune` | src/App.js:83-101 | the list keeps its length, ids and names; it changes only if the operator confirmed and all the conditions of the proposal hold |
| `Feedback.RetuneChangesOnlyTarget` | src/App.js:96-100 | with unique ids, a confirmed reduction sets only the named entry's sensitivity to round2(sensitivity·0.9) and leaves every other entry unchanged |
| `Feedback.RetuneAppliesById` | src/App.js:96-100 | without assuming unique ids: a confirmed reduction gives every entry sharing the found entry's id the found entry's reduced sensitivity and leaves the others unchanged |
| `Feedback.DefaultProfileScenario` | src/App.js:83-100 | a confirmed 위험 report on JDAM at 21:30, with 6 m forecast at 21:00, lowers JDAM from 10 m to 9 m and changes nothing else |
| `AppState.App.constructor` | src/App.js:34-67 | with nothing saved, the session starts on the dashboard with the default profile (unique ids) and no logs |
| `AppState.App.SubmitFeedback` | src/App.js:79-106 | exactly one log, stamped with the given id, is appended after the earlier logs; the proposal shown is `Proposal`; the equipment becomes `Retune` of the old list and the rest of the profile is unchanged; the forecast is unchanged; the view returns to the dashboard; unique ids stay unique |

## Left out

- Rendering: JSX, the charts, the map, icons and styling, the header and view switching
  other than the return to the dashboard after a submission, and `src/index.js`.
- Persistence: loading the profile and logs from `localStorage`, the fallback to the default
  profile when parsing fails, and saving on every change. The model starts from the default
  profile and no logs.
- The settings view's local copy of the profile and its save button (src/App.js:280-285). The
  equipment edits are modelled as functions on the list. The rest of the settings view is not
  part of this model.
- `window.confirm` is the `confirmed` parameter. `Date.now()` is the `id` parameter.
- The random forecast and aircraft generators (src/App.js:8-30, 153-162). Their output is an
  arbitrary input: the forecast is a constructor parameter and a NIC is any integer.
- Settings.UpdateEquipment: the source sets any field named by a string. The model covers the two
  editable fields, `name` and `sensitivity`. Setting `id` or a field the record lacks is not
  modelled, because the callers that choose the field are not part of this model.
- Dashboard.Classify: compares exact reals. In binary floating point `3 * 0.7` is
  2.0999999999999996, so an error of 2.1 against a threshold of 3 shows 주의 in the application
  while `Classify(2.1, 3.0)` is `Normal`; such band-edge artefacts are not modelled.
- Feedback.Round2: models `toFixed(2)` on exact reals. Binary floating-point artefacts (0.045
  printing as "0.04") and the exponent form for magnitudes of 10^21 and above are not modelled.
- The display formatting with `toFixed` of the maximum error and the thresholds.
- No percentile threshold, CSV parser, explanation report or log deletion exists in
  `src/App.js`; none is modelled.
