/**
 * The root controller (App.tsx): four pieces of session state and the transitions the
 * "Run Analysis" and "Clear" buttons and the editor drive.
 *
 * The transitions are first written as functions on a `SessionState` value, and the
 * properties are proved about those; the class `App` holds the same four fields and each of
 * its methods is proved to move its fields exactly as the matching function says.
 * The analysis service is not modelled: a run is given the service's outcome as a parameter,
 * and one run is the atomic sequence "start, then that outcome".
 */
module Session {

  import opened Wrappers
  import opened Types
  import opened JsText
  import Editor
  import ResultView

  /** The editor's content when the page opens (App.tsx, `INITIAL_CODE`). */
  const INITIAL_CODE: string :=
    "#include <iostream>\n#include <vector>\n\nint main() {\n    int* data = new int[10];\n    \n"
    + "    for (int i = 0; i <= 10; ++i) {\n        data[i] = i * 2;\n        std::cout << data[i] << \" \";\n    }\n    \n"
    + "    if (data[0] = 5) {\n        std::cout << \"Data is five\";\n    }\n\n    return 0;\n}"

  const EMPTY_CODE_MESSAGE: string := "Please enter some C++ code to analyze."
  const FALLBACK_MESSAGE: string := "An unexpected error occurred during analysis."

  /** What the analysis service call ends with: a report, or a thrown error and its `message`, if any. */
  datatype Outcome = Success(report: AnalysisResponse) | Failure(message: Option<string>)

  /** `code`, `analysis`, `loading`, `error`. */
  datatype SessionState = SessionState(
    code: string,
    analysis: Option<AnalysisResponse>,
    loading: bool,
    error: Option<string>)

  /** The state after a run's start: the new state, and the code sent to the service, if it was called. */
  datatype Started = Started(state: SessionState, request: Option<string>)

  /** Every error the controller stores is non-empty, so it is displayed whenever no run is loading. */
  predicate ErrorsNonEmpty(s: SessionState) {
    s.error.None? || s.error.value != ""
  }

  function Initial(): (s: SessionState)
    ensures ErrorsNonEmpty(s)
    ensures ResultView.Render(s.analysis, s.loading, s.error) == ResultView.Placeholder
  {
    SessionState(INITIAL_CODE, None, false, None)
  }

  /** `!code.trim()`: the code is empty or whitespace only. */
  function IsBlank(code: string): (blank: bool)
    ensures blank <==> AllWhitespace(code)
  {
    TrimEmptyIffBlank(code);
    Trim(code) == []
  }

  /**
   * The first half of `handleAnalyze`: blank code is refused with a validation error and the
   * service is not called; otherwise loading starts, the error is cleared, and the current code
   * goes to the service. The previous report is kept either way.
   */
  function StartRun(s: SessionState): (r: Started)
    ensures r.request.Some? <==> !IsBlank(s.code)
    ensures r.state.code == s.code && r.state.analysis == s.analysis
    ensures r.request.None? ==> r.state.loading == s.loading && r.state.error == Some(EMPTY_CODE_MESSAGE)
    ensures r.request.Some? ==> r.request.value == s.code && r.state.loading && r.state.error.None?
  {
    if IsBlank(s.code) then Started(s.(error := Some(EMPTY_CODE_MESSAGE)), None)
    else Started(s.(loading := true, error := None), Some(s.code))
  }

  /** `err.message || "An unexpected error occurred during analysis."`: never empty. */
  function FailureMessage(message: Option<string>): (m: string)
    ensures m != ""
    ensures message.Some? && message.value != "" ==> m == message.value
    ensures message.None? || message.value == "" ==> m == FALLBACK_MESSAGE
  {
    if message.Some? && message.value != "" then message.value else FALLBACK_MESSAGE
  }

  /**
   * The second half of `handleAnalyze`: a report replaces the previous one wholesale; a
   * failure sets the error and keeps the previous report; loading ends in both cases.
   */
  function Complete(s: SessionState, outcome: Outcome): (r: SessionState)
    ensures !r.loading && r.code == s.code
    ensures outcome.Success? ==> r.analysis == Some(outcome.report) && r.error == s.error
    ensures outcome.Failure? ==> r.analysis == s.analysis && r.error == Some(FailureMessage(outcome.message))
  {
    match outcome
    case Success(report) => s.(analysis := Some(report), loading := false)
    case Failure(message) => s.(error := Some(FailureMessage(message)), loading := false)
  }

  /** `handleAnalyze` as one step: start, then complete with the service's outcome if it was called. */
  function Run(s: SessionState, outcome: Outcome): (r: Started)
    ensures r.request == StartRun(s).request && r.state.code == s.code
    ensures r.request.Some? ==> !r.state.loading
  {
    var started := StartRun(s);
    if started.request.Some? then Started(Complete(started.state, outcome), started.request)
    else started
  }

  /** `handleClear`: code, report and error are reset; loading is not touched. */
  function Clear(s: SessionState): (r: SessionState)
    ensures r.code == [] && r.analysis.None? && r.error.None? && r.loading == s.loading
  {
    s.(code := [], analysis := None, error := None)
  }

  /** The editor's `onChange`: the new text becomes the code; the panel does not change. */
  function Edit(s: SessionState, value: string): (r: SessionState)
    ensures r.code == value
    ensures r.analysis == s.analysis && r.loading == s.loading && r.error == s.error
    ensures ViewOf(r) == ViewOf(s)
  {
    s.(code := value)
  }

  /** What the result panel shows for a state (App.tsx passes the three fields straight through). */
  function ViewOf(s: SessionState): (v: ResultView.View)
    ensures v.Spinner? <==> s.loading
    ensures !s.loading && s.error.None? && s.analysis.Some? ==> v == ResultView.ReportView(s.analysis.value)
    ensures !s.loading && s.error.None? && s.analysis.None? ==> v == ResultView.Placeholder
  {
    ResultView.Render(s.analysis, s.loading, s.error)
  }

  /** A stored error is displayed, in full, whenever no run is loading. */
  lemma StoredErrorShown(s: SessionState)
    requires ErrorsNonEmpty(s) && s.error.Some? && !s.loading
    ensures ViewOf(s) == ResultView.ErrorPanel(s.error.value)
  {
  }

  /** The Run button and the editor are enabled exactly when no spinner is shown. */
  function Enabled(s: SessionState): (enabled: bool)
    ensures enabled <==> !ViewOf(s).Spinner?
  {
    !s.loading
  }

  /** Every transition keeps the stored error non-empty. */
  lemma TransitionsKeepErrorsNonEmpty(s: SessionState, outcome: Outcome, value: string)
    requires ErrorsNonEmpty(s)
    ensures ErrorsNonEmpty(StartRun(s).state)
    ensures ErrorsNonEmpty(Complete(s, outcome))
    ensures ErrorsNonEmpty(Run(s, outcome).state)
    ensures ErrorsNonEmpty(Clear(s)) && ErrorsNonEmpty(Edit(s, value))
  {
  }

  /** A run on blank code calls no service, leaves loading and the report alone, and shows the validation error. */
  lemma BlankRunShowsValidationError(s: SessionState, outcome: Outcome)
    requires IsBlank(s.code) && !s.loading
    ensures Run(s, outcome) == Started(s.(error := Some(EMPTY_CODE_MESSAGE)), None)
    ensures ViewOf(Run(s, outcome).state) == ResultView.ErrorPanel(EMPTY_CODE_MESSAGE)
  {
  }

  /** Code that is empty or whitespace only is refused; code with any other character is sent. */
  lemma RunCallsServiceIffCodeNotBlank(s: SessionState, outcome: Outcome)
    ensures Run(s, outcome).request.None? <==> AllWhitespace(s.code)
    ensures Run(s, outcome).request.Some? ==> Run(s, outcome).request.value == s.code
  {
    TrimEmptyIffBlank(s.code);
  }

  /** While the service is working the spinner is shown, even over an earlier report or error. */
  lemma StartedRunShowsSpinner(s: SessionState)
    requires !IsBlank(s.code)
    ensures ViewOf(StartRun(s).state) == ResultView.Spinner
    ensures !Enabled(StartRun(s).state)
  {
  }

  /** A successful run shows exactly the new report, whatever was shown before. */
  lemma SuccessfulRunShowsReport(s: SessionState, report: AnalysisResponse)
    requires !IsBlank(s.code)
    ensures var r := Run(s, Success(report)).state;
      && r.analysis == Some(report) && r.error.None? && !r.loading
      && ViewOf(r) == ResultView.ReportView(report)
  {
  }

  /** A failed run keeps the previous report but shows the failure's message, or the fallback. */
  lemma FailedRunShowsError(s: SessionState, message: Option<string>)
    requires !IsBlank(s.code)
    ensures var r := Run(s, Failure(message)).state;
      && r.analysis == s.analysis && !r.loading
      && ViewOf(r) == ResultView.ErrorPanel(FailureMessage(message))
  {
  }

  /** After any run the controller is not loading, so the Run button and the editor are enabled again. */
  lemma RunEndsLoading(s: SessionState, outcome: Outcome)
    requires !s.loading
    ensures !Run(s, outcome).state.loading && Enabled(Run(s, outcome).state)
  {
  }

  /** Running again with the same report gives the same state: a report replaces, it does not merge. */
  lemma SuccessfulRunIdempotent(s: SessionState, report: AnalysisResponse)
    ensures Run(Run(s, Success(report)).state, Success(report)) == Run(s, Success(report))
  {
  }

  /** Clear empties the code, drops the report and the error, whether or not a run is in progress. */
  lemma ClearResets(s: SessionState)
    ensures ViewOf(Clear(s)) == (if s.loading then ResultView.Spinner else ResultView.Placeholder)
    ensures IsBlank(Clear(s).code)
    ensures Clear(Clear(s)) == Clear(s)
  {
  }

  /** After Clear, Run refuses to call the service until some code is typed. */
  lemma RunAfterClearIsRefused(s: SessionState, outcome: Outcome)
    requires !s.loading
    ensures Run(Clear(s), outcome).request.None?
    ensures ViewOf(Run(Clear(s), outcome).state) == ResultView.ErrorPanel(EMPTY_CODE_MESSAGE)
  {
  }

  /** The controller of App.tsx: its four state fields, updated in place by the handlers. */
  class App {
    var code: string
    var analysis: Option<AnalysisResponse>
    var loading: bool
    var error: Option<string>

    function State(): SessionState
      reads this
    {
      SessionState(code, analysis, loading, error)
    }

    ghost predicate Valid()
      reads this
    {
      ErrorsNonEmpty(State())
    }

    /** The `useState` initial values. */
    constructor ()
      ensures Valid() && State() == Initial()
    {
      code := INITIAL_CODE;
      analysis := None;
      loading := false;
      error := None;
    }

    /** The first half of `handleAnalyze`; returns the code passed to the service, if it is called. */
    method Start() returns (request: Option<string>)
      requires Valid()
      modifies this
      ensures Valid()
      ensures Started(State(), request) == StartRun(old(State()))
    {
      if Trim(code) == [] {
        error := Some(EMPTY_CODE_MESSAGE);
        return None;
      }
      loading := true;
      error := None;
      request := Some(code);
    }

    /** The `try`/`catch`/`finally` after the service call: store the report or the error, then stop loading. */
    method Finish(outcome: Outcome)
      requires Valid()
      modifies this
      ensures Valid()
      ensures State() == Complete(old(State()), outcome)
    {
      match outcome {
        case Success(report) =>
          analysis := Some(report);
        case Failure(message) =>
          error := Some(FailureMessage(message));
      }
      loading := false;
    }

    /** `handleAnalyze`, with the service's outcome given. */
    method HandleAnalyze(outcome: Outcome) returns (request: Option<string>)
      requires Valid()
      modifies this
      ensures Valid()
      ensures Started(State(), request) == Run(old(State()), outcome)
    {
      request := Start();
      if request.Some? {
        Finish(outcome);
      }
    }

    /** `handleClear`. */
    method HandleClear()
      requires Valid()
      modifies this
      ensures Valid()
      ensures State() == Clear(old(State()))
    {
      code := [];
      analysis := None;
      error := None;
    }

    /** The editor's `onChange` (`setCode`). */
    method SetCode(value: string)
      requires Valid()
      modifies this
      ensures Valid()
      ensures State() == Edit(old(State()), value)
    {
      code := value;
    }

    /**
     * A key press in the editor: Tab replaces the selection of the current code with four
     * spaces and reports where the cursor goes, when there is a textarea to put it in; any
     * other key changes nothing here.
     */
    method KeyDown(key: string, textarea: Option<Editor.Selection>) returns (cursor: Option<nat>)
      requires Valid()
      modifies this
      ensures Valid()
      ensures cursor.Some? <==> key == Editor.TAB_KEY && textarea.Some?
      ensures var e := Editor.HandleKeyDown(key, old(code), textarea);
        State() == (if e.Some? then Edit(old(State()), e.value.value) else old(State()))
        && (e.Some? ==> cursor == e.value.cursor)
    {
      var e := Editor.HandleKeyDown(key, code, textarea);
      if e.Some? {
        code := e.value.value;
        cursor := e.value.cursor;
      } else {
        cursor := None;
      }
    }

    /** The Run button's and the editor's `disabled={loading}`, as "enabled". */
    function InputEnabled(): (enabled: bool)
      reads this
      ensures enabled <==> !View().Spinner?
    {
      Enabled(State())
    }

    /** The `<AnalysisResult>` the controller renders from its fields. */
    function View(): (v: ResultView.View)
      reads this
      ensures v.Spinner? <==> loading
      ensures Valid() && !loading && error.Some? ==> v == ResultView.ErrorPanel(error.value)
      ensures !loading && error.None? && analysis.Some? ==> v == ResultView.ReportView(analysis.value)
      ensures !loading && error.None? && analysis.None? ==> v == ResultView.Placeholder
    {
      ViewOf(State())
    }
  }
}
