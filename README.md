# C++ Mistake Checker: a Dafny model of its deterministic core

The C++ Mistake Checker is a browser front end. The user pastes C++ code into an editor
and presses "Run Analysis". The code goes to a hosted language model, and the structured
critique it returns is rendered: issues by category, suggested fixes, a summary and
best-practice tips. The application does no code analysis of its own. What it does decide
by itself is modelled here:

- **Editor** (`editor.dfy`, components/CodeEditor.tsx). The line-number gutter is computed
  from the text. The Tab key replaces the selection with four spaces and puts the cursor
  right after them.
- **ResultView** (`result_view.dfy`, components/AnalysisResult.tsx). The result panel is a
  pure function of the last report, the loading flag and the error text. It picks one of
  four views: spinner, error panel, placeholder or report. It decides which report sections
  appear. Two lookup tables give each issue category a style and a label.
- **Session** (`session.dfy`, App.tsx). The controller owns four fields: `code`,
  `analysis`, `loading` and `error`. They change through the handlers of "Run Analysis",
  "Clear" and the editor. The transitions are written as functions on a `SessionState`
  value, and the properties are proved about those functions. The class `Session.App`
  holds the four fields. Each of its methods is proved to change them exactly as the
  matching function says.
- **Types** (`types.dfy`, types.ts) holds the exchanged data. **JsText** (`js_text.dfy`)
  models the JavaScript string built-ins the core uses: `trim`, `split` on one character,
  `substring` and upper-casing. **Wrappers** (`wrappers.dfy`) holds `Option`.

The analysis service is a parameter. A run receives the service's outcome,
`Success(report)` or `Failure(message)`, and is the atomic sequence "start, then that
outcome". `App.Start` and `App.Finish` are the two halves. The state between them is the
one the user sees while the request is in flight.

Three facts about the code shape the model:

- The controller has four state fields: `code`, `analysis`, `loading` and `error`.
- An error is present only when it is a non-empty string, because the panel tests `if (error)`.
- Service payloads are cast, not validated. So an issue's category is kept as the raw string
  received, and the renderer's default style can be reached.

## Model

| member | source | states |
|---|---|---|
| JsText.TextStart | App.tsx:33 | the first position that does not hold whitespace: everything before it is whitespace; whitespace is `IsWhitespace`, the ECMAScript WhiteSpace and LineTerminator code points `trim()` removes |
| JsText.TextEnd | App.tsx:33 | the position just after the last character that is not whitespace: everything from it on is whitespace |
| JsText.Trim | App.tsx:33 | `trim()` is the part of the input between a whitespace-only prefix and a whitespace-only suffix, and it neither starts nor ends with whitespace |
| JsText.TrimEmptyIffBlank | App.tsx:33 | `code.trim()` is empty exactly when the code is empty or whitespace only |
| JsText.Count | components/CodeEditor.tsx:13 | the count of a character is its multiplicity in the multiset of the text's characters |
| JsText.Split | components/CodeEditor.tsx:13 | `split('\n')` always yields at least one piece, even for empty text |
| JsText.SplitLength | components/CodeEditor.tsx:13 | `split` yields exactly one more piece than there are separators |
| JsText.SplitPiecesSeparatorFree | components/CodeEditor.tsx:13 | no piece contains the separator |
| JsText.SplitJoinRoundTrip | components/CodeEditor.tsx:13 | joining the pieces with the separator gives back the text |
| JsText.Clamp | components/CodeEditor.tsx:21 | a `substring` position is brought into the text's bounds and left alone when already inside |
| JsText.Substring | components/CodeEditor.tsx:21 | `substring(a, b)` is the slice between `a` and `b` in either order when both are in bounds, and never longer than the text |
| JsText.ToUpper | components/AnalysisResult.tsx:23 | a lower-case ASCII letter becomes its capital; any other character is unchanged |
| Editor.LineCount | components/CodeEditor.tsx:13 | the line count is the number of line feeds plus one, so it is at least 1 |
| Editor.GutterLabels | components/CodeEditor.tsx:14 | the gutter (`Math.max(lineCount, 1)` rows, `Max` being `Math.max`) has one label per line, and every label lies between 1 and the number of rows |
| Editor.GutterMatchesLines | components/CodeEditor.tsx:13-14 | the gutter has one row per line (the `max(…, 1)` never changes it), starts at 1, ends at the line count and counts up by one |
| Editor.GutterLabelsAreLineNumbers | components/CodeEditor.tsx:14 | a number is a gutter label exactly when it is between 1 and the line count |
| Editor.SelectionRead | components/CodeEditor.tsx:19-20 | with no textarea to read from, the selection is start = end = 0; otherwise it is the textarea's |
| Editor.HandleKeyDown | components/CodeEditor.tsx:16-31 | only Tab yields an edit; the new text is the text before `start`, four spaces and the text from `end`; the cursor `start + 4` is restored exactly when there is a textarea, and no cursor otherwise |
| Editor.TabSplice | components/CodeEditor.tsx:21-27 | for an in-bounds selection the new length is `|value| - (end - start) + 4`; text before `start` and after `end` is kept; the four characters at `start` are spaces; the restored cursor is `start + 4` and lies within the new text |
| Editor.TabSpliceUndo | components/CodeEditor.tsx:21-27 | removing the four spaces before the cursor and restoring the selected text gives back the original text |
| Editor.TabWithoutSelectionPrepends | components/CodeEditor.tsx:19-27 | with no selection to read, Tab prepends four spaces and restores no cursor, since the restore is guarded by the same missing textarea |
| Editor.OtherKeysLeaveText | components/CodeEditor.tsx:17 | a key other than Tab produces no edit |
| ResultView.TypeColor | components/AnalysisResult.tsx:11-19 | a category gets a style other than the neutral slate one exactly when it is one of the five documented categories |
| ResultView.TypeColorsDistinct | components/AnalysisResult.tsx:13-17 | the five documented categories get five pairwise different styles |
| ResultView.TypeLabel | components/AnalysisResult.tsx:22-24 | the label has the category's length, its first character upper-cased and the rest unchanged |
| ResultView.KnownTypeLabels | components/AnalysisResult.tsx:22-24 | the five categories are labelled Syntax, Logic, Runtime, Practice and Warning |
| ResultView.CardFor | components/AnalysisResult.tsx:75-104 | a card shows the label `TypeLabel(kind)` in the style `TypeColor(kind)` (so a `logic` issue reads "Logic" in orange), and the issue's line, description, snippet and fix as received; the label is as long as the category, and the style is the neutral one exactly for an unknown category |
| ResultView.KnownCategoryCards | components/AnalysisResult.tsx:77-80 | a card of each of the five documented categories shows the capitalised category name (Syntax, Logic, Runtime, Practice, Warning) in that category's own style |
| ResultView.HasError | components/AnalysisResult.tsx:36 | an error counts as present exactly when it is set and non-empty |
| ResultView.ReportView | components/AnalysisResult.tsx:56-131 | the summary is shown verbatim; the issues section appears iff there are issues, with their count in the heading and one card per issue in order; the tips section appears iff there are tips, with the tips in order |
| ResultView.Render | components/AnalysisResult.tsx:26-54 | spinner iff loading; error panel with the message iff not loading and the error is non-empty; placeholder iff neither and there is no report; otherwise the report view |
| ResultView.SingleRuntimeIssueShown | components/AnalysisResult.tsx:63-105 | a report with one `runtime` issue renders one card labelled "Runtime" with its line, description, snippet and fix, plus the summary verbatim |
| Session.Initial | App.tsx:27-30 | the initial state holds no error and shows the placeholder |
| Session.IsBlank | App.tsx:33 | the code is blank exactly when it is empty or whitespace only |
| Session.StartRun | App.tsx:33-39 | the service is called iff the code is not blank, and with the current code; blank code only sets the validation message; otherwise loading is set and the error cleared; the code and the report are kept |
| Session.FailureMessage | App.tsx:44 | the stored failure message is never empty: the error's message if it has one, else the fixed fallback |
| Session.Complete | App.tsx:40-47 | a success replaces the report wholesale and keeps the error; a failure stores the message and keeps the report; loading ends either way |
| Session.Run | App.tsx:32-48 | a whole run calls the service exactly when its start does, keeps the code, and ends not loading whenever the service was called |
| Session.Clear | App.tsx:50-54 | Clear empties the code and drops the report and the error; loading is unchanged |
| Session.Edit | App.tsx:110 | typing replaces the code, leaves the other three fields alone and does not change the panel |
| Session.ViewOf | App.tsx:119 | the panel shows the spinner exactly while loading; with no error it shows the stored report, or the placeholder when there is none |
| Session.Enabled | App.tsx:81 | the Run button is enabled exactly when the panel does not show the spinner |
| Session.TransitionsKeepErrorsNonEmpty | App.tsx:32-54 | every transition keeps the stored error non-empty |
| Session.StoredErrorShown | App.tsx:119 | a stored non-empty error is displayed in full whenever no run is loading |
| Session.BlankRunShowsValidationError | App.tsx:33-36 | a run on blank code calls no service, changes only the error, and shows the validation message |
| Session.RunCallsServiceIffCodeNotBlank | App.tsx:33-41 | the service is called exactly when the code has a non-whitespace character, and it receives the code |
| Session.StartedRunShowsSpinner | App.tsx:38-39 | once a run has started, the spinner shows and the inputs are disabled, even over an earlier report or error |
| Session.SuccessfulRunShowsReport | App.tsx:41-42 | after a successful run the state holds exactly the new report and no error, and the panel shows that report |
| Session.FailedRunShowsError | App.tsx:43-44 | after a failed run the previous report is kept and the panel shows the failure message or the fallback |
| Session.RunEndsLoading | App.tsx:45-47 | after any run started while the Run button is enabled, the controller is not loading and the inputs are enabled again |
| Session.SuccessfulRunIdempotent | App.tsx:42 | repeating a run with the same report leaves the same state (that the report replaces the old one is `Session.SuccessfulRunShowsReport`) |
| Session.ClearResets | App.tsx:50-54 | after Clear the panel shows the placeholder, or the spinner if a run is in flight; the code is blank; Clear is idempotent |
| Session.RunAfterClearIsRefused | App.tsx:33-54 | a run right after Clear is refused locally and shows the validation message |
| Session.App.constructor | App.tsx:27-30 | the fields start as `INITIAL_CODE`, no report, not loading and no error |
| Session.App.Start | App.tsx:33-39 | the fields and the returned request are exactly `StartRun` of the old state |
| Session.App.Finish | App.tsx:40-47 | the fields become exactly `Complete` of the old state and the outcome |
| Session.App.HandleAnalyze | App.tsx:32-48 | the fields and the returned request are exactly `Run` of the old state and the outcome |
| Session.App.HandleClear | App.tsx:50-54 | the fields become exactly `Clear` of the old state |
| Session.App.SetCode | App.tsx:110 | the editor's new text replaces the code and nothing else changes |
| Session.App.KeyDown | components/CodeEditor.tsx:16-27 | Tab replaces the code with the spliced text and returns the cursor, which is present exactly when there is a textarea; any other key changes nothing |
| Session.App.View | App.tsx:119 | the panel shows the spinner exactly while loading; otherwise a stored error is shown in full, with no error the stored report, and with neither the placeholder |
| Session.App.InputEnabled | App.tsx:110 | the editor (this line) and the Run button (`disabled={loading}` at App.tsx:81) are enabled exactly when the panel does not show the spinner |

## Left out

- The analysis service (services/geminiService.ts) is not modelled. It covers the prompt, the
  response schema, the network call, `JSON.parse` and its "Failed to analyze code. Please try
  again." error. A run receives the outcome as a parameter.
- A payload with missing fields is not modelled. The service casts any parsed JSON (empty text
  parses as `{}`). Reading `data.issues.length` on such an object would throw during rendering.
  `AnalysisResponse` always has its three fields. No schema validation is claimed: categories
  stay raw strings.
- Overlapping runs and their last-write-wins ordering are concurrency. Each run is one start
  followed by one outcome. No second run interleaves.
- The `setTimeout` that restores the cursor in the browser is I/O. Only the position it
  restores is modelled. Whether the textarea exists is read once, at the key press, and
  decides both the selection read and whether a cursor is restored. The source checks the
  textarea again when the timeout fires. A textarea that goes away between the two is not
  modelled.
- The browser drops input on disabled controls. The transitions are not gated by `loading`,
  just as the handlers are not. `App.InputEnabled` states when the browser delivers input.
- JSX markup, headings, icons and animations are presentation. React hooks are framework
  plumbing. The API key comes from the environment. None of these is modelled. Only the
  colour table's class strings are kept.
- JsText.ToUpper, ResultView.TypeLabel: only ASCII `a`–`z` are upper-cased. JavaScript's `toUpperCase` uses the
  full Unicode case mapping, which can lengthen a string (`ß` becomes `SS`). The length
  property is proved only for this ASCII mapping. It holds for the five documented categories.
- Strings are sequences of Unicode scalar values here. JavaScript strings are UTF-16 code
  units. Selection positions and `substring` indices differ for characters outside the Basic
  Multilingual Plane.
- A numeric `line` is modelled as an integer. How a JavaScript number is printed in "Line: …"
  is not modelled.
