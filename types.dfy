/**
 * The data exchanged with the analysis service (types.ts).
 *
 * The service casts whatever JSON it receives to these shapes without checking it, so the
 * issue category is kept as the raw string the service produced: any string can reach the
 * renderer, and the five documented categories are named constants.
 */
module Types {

  /** An issue category as received; the documented ones are the five constants below. */
  type IssueType = string

  const SYNTAX: IssueType := "syntax"
  const LOGIC: IssueType := "logic"
  const RUNTIME: IssueType := "runtime"
  const PRACTICE: IssueType := "practice"
  const WARNING: IssueType := "warning"

  /** One of the five categories the `IssueType` union of types.ts enumerates. */
  predicate IsKnownType(t: IssueType) {
    t == SYNTAX || t == LOGIC || t == RUNTIME || t == PRACTICE || t == WARNING
  }

  /** `line: number | string`: a single line number, or a range the service wrote as text. */
  datatype Line = Number(n: int) | Text(s: string)

  /** `CppIssue`; the field `type` of the source is called `kind` here. */
  datatype CppIssue = CppIssue(
    kind: IssueType,
    line: Line,
    originalSnippet: string,
    description: string,
    fix: string)

  /** `AnalysisResponse`: issues and tips in the order the service returned them. */
  datatype AnalysisResponse = AnalysisResponse(
    issues: seq<CppIssue>,
    overallSummary: string,
    bestPractices: seq<string>)
}
