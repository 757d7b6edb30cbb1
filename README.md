# Healix prediction form — a Dafny model

Healix is a single-page form that collects the metadata of a clinical trial,
posts it to an external prediction service and shows the completion date the
service predicts. All of its behaviour lives in the `Form` component
(`src/components/form.tsx`). This project models that component:

- **Form state** (`Payload`): the eleven text fields, all starting empty, and
  `handleInputChange`, which overwrites exactly the field named by the input's id.
- **Request mapping** (`Payload`, `Text`, `Dates`): the `formattedData` object
  built by `handleSubmit`. Six fields are copied, `phases` and `studyType` are
  upper-cased, `enrollment` goes through `Number`, and both dates go through
  `formatDate`, which writes `year-MM-DD` with a 1-based month and two-digit
  month and day.
- **Result slot** (`Submission`): `predictedData`, `loading` and `error`, how
  one submission moves them for each way the request ends, the toast it raises,
  and what the panel and the Predict button show.
- **The component object** (`FormComponent.Form`): a class whose fields are the
  React state. Its methods make the same assignments as the source's `set...`
  calls, in the same order. Each method is specified by the pure functions above.

The network call is an `Outcome` parameter. It is either `Rejected(message)`
when `fetch` throws, or `Response(status, body)`. The body is either
`Json(value of predicted_completion_date)` or `MalformedJson(message)`, the latter
when `response.json()` throws or the decoded body is `null`. `new Date(text)` and
`Number(text)` are foreign calls. They enter as the two functions of a `Host`
value. A date arrives as the calendar components that `getFullYear`,
`getMonth` and `getDate` return, or as `InvalidDate`, for which `formatDate`
writes `"NaN-NaN-NaN"`.

Three consequences of the code that are easy to miss:

- The panel tests `predictedData` before `error` (src/components/form.tsx:100-102).
  So a truthy prediction from an earlier success stays on screen after a later
  throw (`Submission.StaleValueHidesLaterError`).
- A new submission clears neither `predictedData` nor `error`. It only sets
  `loading` (src/components/form.tsx:58; `Submission.RunState`).
- None of the mapping's steps can throw on the strings the inputs hold
  (src/components/form.tsx:45-57). So the model's mapping is total, and `loading`
  is set only after the request body exists (`FormComponent.Form.BeginSubmit`).

## Model

| member | source | states |
|---|---|---|
| `Payload.EmptyForm` | src/components/form.tsx:20-32 | every one of the eleven fields starts as the empty string |
| `Submission.InitialSlot` | src/components/form.tsx:34-36 | no prediction (`null`), not loading, no error |
| `FormComponent.Form.constructor` | src/components/form.tsx:20-36 | the component starts with the empty form and the initial result slot |
| `Payload.With` | src/components/form.tsx:38-41 | the edited field holds the new text and the other ten keep theirs; no text is rejected |
| `Payload.WithLastWriteWins` | src/components/form.tsx:40 | of two edits of one field the later wins; re-entering a field's current text changes nothing |
| `Payload.BuildRequest` | src/components/form.tsx:45-57 | the `formattedData` object; what each of its eleven entries holds is stated by `Payload.RequestMapping` |
| `FormComponent.Form.HandleInputChange` | src/components/form.tsx:38-41 | the input's field becomes the typed text, every other field and the result slot are unchanged |
| `Text.Upper` | src/components/form.tsx:50-52 | upper-casing keeps the length |
| `Text.UpperChar` | src/components/form.tsx:50-52 | a lower-case letter `a`-`z` becomes its own capital `A`-`Z`; every other character is left alone; no lower-case letter remains |
| `Payload.PhaseSentUpperCased` | src/components/form.tsx:50 | the phase typed as "phase 1" is sent as "PHASE 1" |
| `Text.UpperCharacterized` | src/components/form.tsx:50-52 | `Upper(s)` is exactly the string equal to `s` up to case that has no lower-case letter (both directions) |
| `Text.UpperIdempotent` | src/components/form.tsx:50-52 | upper-casing twice is upper-casing once |
| `Payload.RequestMapping` | src/components/form.tsx:45-57 | six fields copied verbatim; Phases and Study_Type equal the input up to case, with no lower-case letter, stable under upper-casing; Enrollment is `Number` of the text; both dates are `formatDate` of the parsed text |
| `Payload.EditChangesOneEntry` | src/components/form.tsx:45-57 | each request entry depends only on its own form field, so an edit changes no other entry |
| `Payload.EmptyFormRequest` | src/components/form.tsx:45-57 | submitting the untouched form sends all eight text entries empty and `"NaN-NaN-NaN"` for both dates |
| `Text.PadStart` | src/components/form.tsx:15-16 | `padStart` gives the target length, or the original length when the text is already longer |
| `Text.PadStartShape` | src/components/form.tsx:15-16 | the padded text is the missing number of fill characters followed by the original text unchanged |
| `Text.NatToString` | src/components/form.tsx:14-17 | the decimal text of a number is non-empty, all digits, with no leading zero |
| `Text.IntToString` | src/components/form.tsx:14-17 | the text of an integer starts with `-` exactly when it is negative |
| `Text.ParseNatToString` | src/components/form.tsx:15-16 | reading back the decimal text of a natural number gives that number |
| `Text.IntToStringRoundTrip` | src/components/form.tsx:14 | the text of any year, negative ones included, reads back as that year |
| `Text.NatToStringLength` | src/components/form.tsx:14-16 | one digit below 10, two from 10 to 99, four from 1000 to 9999 |
| `Dates.TwoDigitsOfSmall` | src/components/form.tsx:15-16 | a month or day from 1 to 99 is written as exactly two digits that read back as it |
| `Dates.TwoDigits` | src/components/form.tsx:15-16 | `String(n).padStart(2, "0")` is at least two characters, and a number of two or more digits is written unpadded |
| `Dates.FormatDate` | src/components/form.tsx:12-17 | `formatDate`; its layout, length and round trip are stated by `Dates.FormatDateLayout`, `Dates.FormatDateLength` and `Dates.FormatDateRoundTrip` |
| `Dates.FormatDateLayout` | src/components/form.tsx:12-17 | the output is the year's text, `-`, two digits reading as month0 + 1, `-`, two digits reading as the day |
| `Dates.FormatDateLength` | src/components/form.tsx:12-17 | with a four-digit year the output is ten characters, `YYYY-MM-DD` |
| `Payload.SentDatesRoundTrip` | src/components/form.tsx:54-55 | when `new Date` yields a well-formed date (or the invalid one), both date entries sent read back as exactly that date |
| `Dates.FormatDateRoundTrip` | src/components/form.tsx:12-17 | every date `new Date` can yield, the invalid one included, is recovered from the output, so distinct dates never format alike |
| `Submission.OutcomePaths` | src/components/form.tsx:66-85 | every outcome takes exactly one of the catch, status-200 and other-status paths |
| `Submission.StartLoading` | src/components/form.tsx:58 | `setLoading(true)` sets loading and leaves predictedData and error alone |
| `Submission.Settle` | src/components/form.tsx:66-88 | after settling, loading is false; error is set if it was set or the outcome threw; predictedData is the delivered value on a usable 200 and the old value otherwise |
| `Submission.Submit` | src/components/form.tsx:43-89 | after one whole submission loading is false, error is set if it was set or the outcome threw, and predictedData changes only on a delivered 200 |
| `Submission.Run` | src/components/form.tsx:43-89 | successive submissions, oldest first; what they leave in the slot is stated by `Submission.RunState` |
| `Submission.SoftFailureKeepsSlot` | src/components/form.tsx:73-78 | a non-200 response leaves the whole slot, including a stale prediction, as before the submission |
| `Submission.Notification` | src/components/form.tsx:69-85 | the toast is titled "Error" exactly when the outcome threw, carrying the error text; otherwise it is titled "Result" and reads "Prediction Successful" or "Prediction Failed" |
| `Js.Truthy` | src/components/form.tsx:100 | the truthiness test of the panel's conditional: `null`, `undefined`, `false`, `NaN`, `0` and `""` are falsy; its effect on the panel is stated by `Submission.Show` |
| `Submission.Show` | src/components/form.tsx:98-106 | the panel shows the spinner exactly while loading, else the value exactly when it is truthy, else the error text exactly when error is set, else the placeholder |
| `Submission.PredictButton` | src/components/form.tsx:113-119 | the button is disabled, and reads "Predicting...", exactly while loading |
| `Submission.InitialDisplay` | src/components/form.tsx:98-106 | before any submission the panel shows the placeholder and the button is enabled |
| `Submission.InFlightDisplay` | src/components/form.tsx:58-65 | once loading is set and the request is awaited, the panel shows the spinner and the button is disabled |
| `Submission.RunState` | src/components/form.tsx:43-89 | after any sequence of submissions: predictedData is the last delivered prediction; error holds exactly when it held before or some submission threw; loading is clear once one has completed |
| `Submission.ErrorNeverReset` | src/components/form.tsx:79-80 | once error is set, no later submission clears it |
| `Submission.DisplayAfterRun` | src/components/form.tsx:98-106 | after submissions the panel shows the last delivered prediction if truthy, else the error text if anything ever threw, else the placeholder; the button is enabled again |
| `Submission.StaleValueHidesLaterError` | src/components/form.tsx:98-106 | a truthy prediction stays on screen after a later submission throws, though error is set |
| `Submission.FalsyPredictionFallsThrough` | src/components/form.tsx:98-106 | a 200 whose prediction is missing, null or empty falls through to the error text or the placeholder |
| `FormComponent.Form.BeginSubmit` | src/components/form.tsx:45-58 | the request is built from the current form state and only then is loading set; nothing else changes |
| `FormComponent.Form.Settle` | src/components/form.tsx:66-88 | the fields move exactly as `Submission.Settle` says and the toast is `Notification` of the outcome |
| `FormComponent.Form.HandleSubmit` | src/components/form.tsx:43-89 | one submission: the request built from the unchanged form state, the slot moved by one `Submit`, loading false at the end, the toast raised |

## Left out

- The `fetch` call itself, its endpoint, method and headers, `JSON.stringify` of the request and JSON decoding of the reply: I/O, represented only by the `Outcome` value.
- Rendering of toasts and `console.log`: the toast is returned as a `Toast` value; the log is a diagnostic side effect with no state.
- `new Date(text)`: a foreign parser that depends on the time zone (an ISO date is read as UTC, `getDate` reads local time). It enters as `Host.parseDate`, so nothing is claimed about formatting a date string back to itself.
- `Number(text)`: JavaScript floating-point parsing, entered as `Host.toNumber`; finite doubles are kept as reals without rounding.
- Text.Upper: upper-cases only `a` to `z`; `toUpperCase`'s full Unicode mapping (for instance `ß` becoming `SS`, which changes the length) is not modelled.
- Text.UpperChar: capitalizes only `a` to `z` and keeps every other character; `toUpperCase` also capitalizes other lower-case letters (`é` becomes `É`).
- Overlapping submissions: `BeginSubmit` and `Settle` may be called in any interleaving, but the model does not track which request a settlement belongs to, nor the event loop that orders them.
- React's rendering details: `handleSubmit` reading the `formState` captured at the last render, and batching of state updates. Each method acts on the current fields at once.
- An `id` other than the eleven field names: every input that calls `handleInputChange` carries one of them, so the field is an enumeration.
- All JSX layout, class names, labels and placeholders, and `src/app/layout.tsx` and `src/app/page.tsx`, which hold no logic.
