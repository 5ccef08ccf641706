# Daily maintenance report — verified model of the report engine

`pages/index.js` of the *reportes* application is one React component with
which a field technician logs the day's maintenance work: a form (date,
technician, plant, equipment, description, hours, minutes, "finished"), a list
of the reports saved today, and a button that sends the day's list as a
WhatsApp message and starts the day over. Inside the component sits a small,
pure engine, and that engine is what this Dafny project models and proves
things about:

- the form check `validar` (module `Validator`);
- the time codec `tiempoDecimal` / `formatTime` (module `TimeCodec`), with the
  string pieces it needs, `trim` and decimal rendering (module `Text`);
- the daily total `calcularTiempoTotal` and the message text of
  `generarMensajeWhatsApp` before URI encoding (module `Daily`);
- the state transitions `handleSubmit`, `handleEnviarWhatsApp`,
  `confirmarEnvioWhatsApp` and `cancelarEnvioWhatsApp` (module `App`), with the
  form and report records in module `Reports`.

Durations are whole numbers of half hours (`nat`): the program's decimal hours
`d` are `t / 2` here. This is exact, since the form offers only 0 or 30
minutes, sums of multiples of 0.5 never round, and `(d - floor d) * 60` is
always 0 or 30. The hour and minute fields hold the number `Number()` reads
from their drop-downs, `Option<int>` with `None` for NaN.

The environment is passed in: `today` (every `new Date()...split("T")[0]`),
`postOk` (whether `axios.post('/api/reportes', …)` resolved), and the stored
technician and list at mount (`Init`). A submit outcome also says which report,
if any, was posted, so a save attempt that sends nothing is stated directly.

String lengths are what JavaScript's `.length` gives: UTF-16 code units, so a
character outside the Basic Multilingual Plane (an emoji, say) counts twice
(`Text.Utf16Length`).

Behaviour kept as written:
- When the post throws, only the message changes. Field errors left over from
  an earlier failed check stay in `errores`, because the `catch` branch does not
  clear them (`HandleSubmit`).
- Technician and plant are checked only for being non-empty. Hours are capped
  at 23. Minutes must be exactly 0 or 30. The description has no upper length.
- `formatTime` renders `"{h}h {m}m"`, so zero minutes show as `0m`.

`pages/index.js` caps hours at 23 and sets no upper limit on the
description. The sibling page `pages/index - copia.js` caps hours at 12 and
descriptions at 250 characters (lines 86-87 and 94); that page is not part of
this model. `pages/index.js` also has no grouping of reports by date, no
update or delete of a saved report, and no guard against a second save while
one is pending.

## Model

| member | source | states |
|---|---|---|
| `Validator.Validar` | pages/index.js:59-83 | each of the five keys is present exactly when its own field fails its own check (technician empty, plant empty, trimmed equipment < 3 UTF-16 code units, trimmed description < 10 code units, time invalid or zero), with that check's message; no key depends on another field |
| `Validator.TimeError` | pages/index.js:69-80 | the time field gets the "invalid" message exactly when hours are not a number in 0..23 or minutes are not 0/30, the "greater than zero" message exactly when both are 0, and none otherwise — never both |
| `Validator.ValidarEmptyIffValid` | pages/index.js:59-83 | `validar` returns an empty map if and only if all six rules hold (technician and plant non-empty, trimmed equipment ≥ 3 and trimmed description ≥ 10 code units, hours 0..23, minutes 0 or 30, not both 0) |
| `Validator.TiempoMessages` | pages/index.js:71-80 | the time message is one of the two, and it is "greater than zero" exactly when the range and minute checks passed and both values are 0 |
| `Validator.ValidTiempoBounds` | pages/index.js:69-80 | every form that passes the check encodes to a duration of 1 to 47 half hours (strictly positive, at most 23 h 30 min) |
| `Validator.AllFieldsWrong` | pages/index.js:59-83 | a form with nothing chosen, equipment under 3 and description under 10 code units, and 0 h 0 min gets a message on all five fields |
| `Validator.EmptyIsShort` | pages/index.js:64-67 | the `!equipo ||` and `!reporte ||` guards change nothing: an empty string already fails the trimmed-length check |
| `Validator.EquipoCountsCodeUnits` | pages/index.js:64-65 | equipment made of two emoji (two characters, four code units) passes the equipment check, as `.trim().length` counts code units |
| `Validator.ResetFormRejected` | pages/index.js:125-134 | the form as reset after a save fails plant, equipment, description and time ("greater than zero"), and fails technician exactly when the kept technician is empty |
| `Reports.ResetForm` | pages/index.js:125-134 | the reset form has today's date, the kept technician, empty plant/equipment/description, 0 h 0 min and not finished |
| `Text.Trim` | pages/index.js:64-67 | `trim()` gives a string no longer than its input that neither starts nor ends with whitespace |
| `Text.TrimIsSlice` | pages/index.js:64-67 | what `trim()` keeps is a contiguous slice of the input and everything cut off on either side is whitespace |
| `Text.TrimEmptyIffBlank` | pages/index.js:64-67 | a string trims to empty exactly when it is all whitespace |
| `Text.TrimIdempotent` | pages/index.js:64-67 | trimming twice equals trimming once |
| `Text.TrimKeepsTrimmed` | pages/index.js:64-67 | a string with non-blank characters at both ends is left unchanged by `trim()` |
| `Text.Utf16Length` | pages/index.js:64-67 | `.length` counts one or two UTF-16 code units per character, so it lies between the number of characters and twice that |
| `Text.Utf16LengthBounds` | pages/index.js:64-67 | `.length` equals the number of characters exactly when no character lies outside the Basic Multilingual Plane |
| `Text.Utf16LengthConcat` | pages/index.js:64-67 | the `.length` of two strings appended is the sum of their lengths |
| `Text.TrimUtf16Length` | pages/index.js:64-67 | `trim()` never makes `.length` larger |
| `Text.ShowNatRoundTrip` | pages/index.js:149 | the decimal text a template literal gives a non-negative integer reads back as that integer |
| `Text.ShowNatInjective` | pages/index.js:149 | distinct non-negative integers render to distinct decimal texts |
| `TimeCodec.TiempoDecimal` | pages/index.js:93-95 | the half-hour count has floor hours equal to the hour value and a minute part of 30 exactly when the minute value is 30, else 0 |
| `TimeCodec.TiempoDecimalMonotonic` | pages/index.js:93-95 | over minutes in {0,30} the encoding is strictly increasing in (hours, minutes) order, in both directions of the equivalence |
| `TimeCodec.RenderRoundTrip` | pages/index.js:146-150 | the text `${hours}h ${minutes}m` reads back as exactly the two numbers put into it |
| `TimeCodec.FormatTime` | pages/index.js:146-150 | `formatTime` on a half-hour count; its meaning is given by `FormatTimeReadsBack`: floor hours, minutes 0 or 30, and the text reads back as the same count |
| `TimeCodec.FormatTimeReadsBack` | pages/index.js:146-150 | `formatTime` of a half-hour quantity shows the floor of its hours and minutes 0 or 30, and reads back as the same quantity |
| `TimeCodec.FormatTimeInjective` | pages/index.js:146-150 | two durations with the same rendered text are equal |
| `TimeCodec.FormatTiempoDecimal` | pages/index.js:146-150 | rendering `tiempoDecimal(h, m)` for m in {0,30} shows exactly h hours and m minutes |
| `Daily.CalcularTiempoTotal` | pages/index.js:142-144 | the left-to-right `reduce` from 0 equals the sum of `tiempo` over the list, and is 0 on an empty list |
| `Daily.TotalAppend` | pages/index.js:142-144 | appending a report adds exactly its `tiempo` to the total |
| `Daily.TotalConcat` | pages/index.js:142-144 | the total of two lists concatenated is the sum of their totals |
| `Daily.TotalBoundsEach` | pages/index.js:142-144 | every report's `tiempo` is at most the total |
| `Daily.LinesConcat` | pages/index.js:159-162 | the report lines of two lists concatenated are the lines of each, in order |
| `Daily.LinesSplit` | pages/index.js:159-162 | the report lines of a list are those before report i, report i's own line, then those after it |
| `Daily.GenerarMensaje` | pages/index.js:152-169 | the message text before URI encoding; its meaning is given by `MessageShowsTotal` (date and total in the header), `MessageHasLine` (one line per report, in list order) and `MessageNovedades` (the closing section only for a note) |
| `Daily.MessageHasLine` | pages/index.js:157-162 | report i's `- {reporte} ({planta}) - {time}` line appears in the message right after the header and the lines of the reports before it: one line per report, in list order |
| `Daily.MessageShowsTotal` | pages/index.js:153-157 | the message opens with `Reporte {fecha}` and the `Tiempo total: ` label, and the text after the label reads back as the sum of the list's times |
| `Daily.MessageNovedades` | pages/index.js:164-166 | with an empty note the message ends after the last report line; with a note it is the note-less message followed by `Novedades:` and the note |
| `App.Init` | pages/index.js:41-53 | after mounting, the form is the default with today's date and the stored technician, the list is the stored list, and nothing else is set |
| `App.NuevoReporte` | pages/index.js:110-116 | the report to post carries every form field plus `tiempo` = `tiempoDecimal` of the hour and minute fields, which is 1..47 half hours |
| `App.HandleSubmit` | pages/index.js:97-140 | failed check: nothing posted, errors replaced, message cleared, list and form unchanged; post throws: only the message changes; post succeeds: exactly one report appended at the end with earlier entries unchanged, form reset keeping the technician with today's date, errors cleared |
| `App.SubmitAddsToTotal` | pages/index.js:110-120 | a successful save grows the day's total by exactly the new report's `tiempo`, so by 1 to 47 half hours |
| `App.ResubmitAfterSaveRejected` | pages/index.js:97-135 | once a save has completed, submitting the reset form again posts nothing and leaves the list unchanged |
| `App.AbrirConfirmacion` | pages/index.js:171-173 | opening the send confirmation shows it exactly when the list is non-empty (the button is disabled on an empty list, line 479) and changes nothing else |
| `App.CancelarEnvio` | pages/index.js:199-201 | cancelling hides the confirmation and leaves the form, errors, message, list and note unchanged |
| `App.CancelUndoesOpen` | pages/index.js:171-201 | opening the confirmation and then cancelling gives back the original state |
| `App.ConfirmarEnvio` | pages/index.js:175-197 | the sent text is the message built from the list and note as they were before clearing; afterwards the list and note are empty, the form is reset keeping the technician with today's date, and the confirmation is hidden |
| `App.ConfirmSendsEveryReport` | pages/index.js:175-197 | confirming sends a line for every report of the day, in list order, and the day's total restarts at 0 |
| `App.InitInv` | pages/index.js:41-53 | mounting with a stored list of saved reports gives a state satisfying the invariant |
| `App.StepInv` | pages/index.js:85-201 | every action (save, edit, open, cancel, edit note, confirm) keeps the invariant: the confirmation is only shown over a non-empty list, and every listed report has a form that passes the check and the `tiempo` of its fields |
| `App.SubmitInv` | pages/index.js:97-140 | a save keeps the invariant: the only report it appends has a form that passed the check and the `tiempo` of its fields |
| `App.RunInv` | pages/index.js:85-201 | every state reached by a sequence of actions from a good state satisfies the invariant |
| `App.InvTotalBounds` | pages/index.js:142-144 | in every good state the day's total lies between 1 and 47 half hours per listed report |
| `App.SavedTotalBounds` | pages/index.js:110-144 | a list of saved reports totals between 1 and 47 half hours per report |

## Left out

- Rendering: the JSX and the `estilos` object (lines 203-517) are UI only. Line 479, which disables the send button on an empty list, is modelled in `AbrirConfirmacion`.
- Browser persistence: the `localStorage` reads and writes (lines 41-57, 108, 182) are left out. `Init` takes the stored technician and list as parameters. `InitInv` assumes the stored list was written by this screen.
- Network I/O: `axios.post` (line 118) is the boolean `postOk`. The API route behind it is not part of this model.
- Foreign calls: `window.open`, `encodeURIComponent` and the `wa.me` URL (lines 168, 177-178) are left out. The model stops at the message text before encoding.
- The clock: every `new Date().toISOString().split("T")[0]` is the `today` parameter. The two such calls in one confirm are taken to return the same day.
- `console.error` and the colour of the status message are left out. They are output only.
- `handleChange` (lines 85-91) is the `EditForm` event, which replaces the form wholesale. Per-field edits are not modelled separately.
- App.HandleSubmit: a save is one atomic step. In `pages/index.js` the form is reset only after `axios.post` resolves (lines 118-125) and the submit button (line 451) is never disabled. A second click while a post is pending would post and append the same report again. Confirming the send while a post is pending is not modelled either.
- Validator.Validar: lengths count UTF-16 code units. A JavaScript string holding a lone surrogate cannot be represented, because a Dafny `char` is a Unicode scalar value.
- Validator.Validar: the hour and minute fields are the number `Number()` yields (`None` for NaN), not the raw strings. Non-integer numbers such as `Number("1.5")` are not modelled, since the drop-downs offer only `00`..`23` and `00`/`30`.
- Text.Trim: whitespace is space, tab, line feed, carriage return, vertical tab and form feed. It is not the full ECMAScript set, so other Unicode spaces are not trimmed.
- TimeCodec.FormatTime: durations are exact half-hour integers. JavaScript floating point and exponent rendering of huge numbers are not modelled.
