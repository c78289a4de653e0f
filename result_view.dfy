/**
 * The result panel (components/AnalysisResult.tsx): a pure function of the last report, the
 * loading flag and the error text, which picks one of four views, and the two lookup tables
 * that style and label an issue by its category.
 */
module ResultView {

  import opened Wrappers
  import opened Types
  import opened JsText

  const SYNTAX_STYLE: string := "bg-red-500/10 text-red-400 border-red-500/20"
  const LOGIC_STYLE: string := "bg-orange-500/10 text-orange-400 border-orange-500/20"
  const RUNTIME_STYLE: string := "bg-purple-500/10 text-purple-400 border-purple-500/20"
  const WARNING_STYLE: string := "bg-yellow-500/10 text-yellow-400 border-yellow-500/20"
  const PRACTICE_STYLE: string := "bg-blue-500/10 text-blue-400 border-blue-500/20"
  /** The neutral style of any category outside the five. */
  const DEFAULT_STYLE: string := "bg-slate-500/10 text-slate-400 border-slate-500/20"

  /** `getTypeColor`: each documented category has its own colour, anything else the neutral one. */
  function TypeColor(t: IssueType): (style: string)
    ensures IsKnownType(t) <==> style != DEFAULT_STYLE
  {
    match t
    case "syntax" => SYNTAX_STYLE
    case "logic" => LOGIC_STYLE
    case "runtime" => RUNTIME_STYLE
    case "warning" => WARNING_STYLE
    case "practice" => PRACTICE_STYLE
    case _ => DEFAULT_STYLE
  }

  /** The five documented categories get five pairwise different styles. */
  lemma TypeColorsDistinct(a: IssueType, b: IssueType)
    requires IsKnownType(a) && IsKnownType(b) && a != b
    ensures TypeColor(a) != TypeColor(b)
  {
  }

  /**
   * `getTypeLabel`: `type.charAt(0).toUpperCase() + type.slice(1)`. Only the first character
   * changes, and only by upper-casing; the label is as long as the category.
   */
  function TypeLabel(t: IssueType): (name: string)
    ensures |name| == |t|
    ensures |t| > 0 ==> name[0] == ToUpper(t[0]) && name[1..] == t[1..]
  {
    if t == [] then [] else [ToUpper(t[0])] + t[1..]
  }

  /** The labels of the five documented categories. */
  lemma KnownTypeLabels()
    ensures TypeLabel(SYNTAX) == "Syntax"
    ensures TypeLabel(LOGIC) == "Logic"
    ensures TypeLabel(RUNTIME) == "Runtime"
    ensures TypeLabel(PRACTICE) == "Practice"
    ensures TypeLabel(WARNING) == "Warning"
  {
  }

  /** One issue card: category label (`categoryLabel`) and style, line reference, explanation, code before and after. */
  datatype Card = Card(
    categoryLabel: string,
    style: string,
    line: Line,
    description: string,
    originalSnippet: string,
    fix: string)

  /** The "Detected Issues (n)" section: the count in its heading and its cards. */
  datatype IssuesSection = IssuesSection(count: nat, cards: seq<Card>)

  /** The four things the panel can show. */
  datatype View =
    | Spinner
    | ErrorPanel(message: string)
    | Placeholder
    | Report(summary: string, issues: Option<IssuesSection>, tips: Option<seq<string>>)

  /**
   * The card of one issue: the line, explanation, snippet and fix as received; the category's
   * label and colour from the two tables, so the label is as long as the category and the style
   * is the neutral one exactly for a category outside the five.
   */
  function CardFor(issue: CppIssue): (c: Card)
    ensures c.categoryLabel == TypeLabel(issue.kind) && c.style == TypeColor(issue.kind)
    ensures c.line == issue.line && c.description == issue.description
    ensures c.originalSnippet == issue.originalSnippet && c.fix == issue.fix
    ensures |c.categoryLabel| == |issue.kind|
    ensures c.style == DEFAULT_STYLE <==> !IsKnownType(issue.kind)
  {
    Card(TypeLabel(issue.kind), TypeColor(issue.kind), issue.line,
         issue.description, issue.originalSnippet, issue.fix)
  }

  /** A card of a documented category reads as the capitalised category in that category's colour. */
  lemma KnownCategoryCards(issue: CppIssue)
    ensures issue.kind == SYNTAX ==> CardFor(issue).categoryLabel == "Syntax" && CardFor(issue).style == SYNTAX_STYLE
    ensures issue.kind == LOGIC ==> CardFor(issue).categoryLabel == "Logic" && CardFor(issue).style == LOGIC_STYLE
    ensures issue.kind == RUNTIME ==> CardFor(issue).categoryLabel == "Runtime" && CardFor(issue).style == RUNTIME_STYLE
    ensures issue.kind == PRACTICE ==> CardFor(issue).categoryLabel == "Practice" && CardFor(issue).style == PRACTICE_STYLE
    ensures issue.kind == WARNING ==> CardFor(issue).categoryLabel == "Warning" && CardFor(issue).style == WARNING_STYLE
  {
    KnownTypeLabels();
  }

  /** JavaScript truthiness of `error: string | null`: absent and empty both read as no error. */
  function HasError(error: Option<string>): (present: bool)
    ensures present <==> error.Some? && |error.value| > 0
  {
    error.Some? && error.value != ""
  }

  /**
   * The populated report: the summary word for word; the issues section only when there are
   * issues, with their number in the heading and one card per issue in the service's order;
   * the tips section only when there are tips, with the tips in order.
   */
  function ReportView(data: AnalysisResponse): (v: View)
    ensures v.Report? && v.summary == data.overallSummary
    ensures v.issues.Some? <==> |data.issues| > 0
    ensures v.issues.Some? ==>
      && v.issues.value.count == |data.issues| == |v.issues.value.cards|
      && (forall i :: 0 <= i < |data.issues| ==> v.issues.value.cards[i] == CardFor(data.issues[i]))
    ensures v.tips.Some? <==> |data.bestPractices| > 0
    ensures v.tips.Some? ==> v.tips.value == data.bestPractices
  {
    var issues :=
      if |data.issues| > 0 then
        Some(IssuesSection(|data.issues|, seq(|data.issues|, i requires 0 <= i < |data.issues| => CardFor(data.issues[i]))))
      else None;
    var tips := if |data.bestPractices| > 0 then Some(data.bestPractices) else None;
    Report(data.overallSummary, issues, tips)
  }

  /**
   * `AnalysisResult`: loading wins over everything; then a non-empty error; then the
   * placeholder when there is no report yet; otherwise the report.
   */
  function Render(data: Option<AnalysisResponse>, loading: bool, error: Option<string>): (v: View)
    ensures v.Spinner? <==> loading
    ensures v.ErrorPanel? <==> !loading && HasError(error)
    ensures v.ErrorPanel? ==> v.message == error.value
    ensures v.Placeholder? <==> !loading && !HasError(error) && data.None?
    ensures v.Report? <==> !loading && !HasError(error) && data.Some?
    ensures v.Report? ==> v == ReportView(data.value)
  {
    if loading then Spinner
    else if HasError(error) then ErrorPanel(error.value)
    else if data.None? then Placeholder
    else ReportView(data.value)
  }

  /**
   * A report with one `runtime` issue shows one card labelled "Runtime", styled purple, with
   * the issue's line, explanation, snippet and fix, and the summary word for word.
   */
  lemma SingleRuntimeIssueShown(line: Line, snippet: string, description: string, fix: string, summary: string)
    ensures var data := AnalysisResponse([CppIssue(RUNTIME, line, snippet, description, fix)], summary, []);
      Render(Some(data), false, None)
        == Report(summary,
                  Some(IssuesSection(1, [Card("Runtime", RUNTIME_STYLE, line, description, snippet, fix)])),
                  None)
  {
    var data := AnalysisResponse([CppIssue(RUNTIME, line, snippet, description, fix)], summary, []);
    KnownTypeLabels();
    var v := ReportView(data);
    assert v.issues.value.cards == [Card("Runtime", RUNTIME_STYLE, line, description, snippet, fix)];
  }
}
