/**
 * The code editor (components/CodeEditor.tsx): the line-number gutter computed from the
 * text, and the Tab key, which replaces the selection with four spaces instead of moving
 * the focus and then places the cursor right after them.
 */
module Editor {

  import opened Wrappers
  import opened JsText

  const TAB_KEY: string := "Tab"

  /** What Tab inserts. */
  const INDENT: string := "    "

  function Max(a: int, b: int): int {
    if a < b then b else a
  }

  /** `value.split('\n').length`: one more line than there are line feeds. */
  function LineCount(value: string): (n: nat)
    ensures n == Count(value, '\n') + 1
    ensures n >= 1
  {
    SplitLength(value, '\n');
    |Split(value, '\n')|
  }

  /** The gutter: the numbers 1, 2, ... shown next to the text, `max(lineCount, 1)` of them. */
  function GutterLabels(value: string): (labels: seq<int>)
    ensures |labels| == LineCount(value)
    ensures forall i :: 0 <= i < |labels| ==> 1 <= labels[i] <= |labels|
  {
    seq(Max(LineCount(value), 1), i => i + 1)
  }

  /**
   * The gutter has exactly one row per line of the text (the `max(…, 1)` never changes the
   * count), starts at 1, ends at the line count and counts up by one with no gaps.
   */
  lemma GutterMatchesLines(value: string)
    ensures |GutterLabels(value)| == LineCount(value) == Count(value, '\n') + 1
    ensures GutterLabels(value)[0] == 1
    ensures GutterLabels(value)[|GutterLabels(value)| - 1] == LineCount(value)
    ensures forall i :: 0 < i < |GutterLabels(value)| ==> GutterLabels(value)[i] == GutterLabels(value)[i - 1] + 1
  {
  }

  /** A number is a gutter label exactly when it is a line number of the text. */
  lemma GutterLabelsAreLineNumbers(value: string, k: int)
    ensures k in GutterLabels(value) <==> 1 <= k <= LineCount(value)
  {
    var labels := GutterLabels(value);
    if 1 <= k <= LineCount(value) {
      assert labels[k - 1] == k;
    }
  }

  /** The textarea's selection, as character positions; the browser keeps `start <= end <= |value|`. */
  datatype Selection = Selection(start: nat, end: nat)

  /**
   * The text Tab hands to `onChange`, and the collapsed cursor position it then restores;
   * with no textarea to restore it in, there is none.
   */
  datatype TabEdit = TabEdit(value: string, cursor: Option<nat>)

  /**
   * The selection the handler reads: `textareaRef.current?.selectionStart || 0` and the same
   * for the end, so a missing textarea reads as the empty selection at 0.
   */
  function SelectionRead(textarea: Option<Selection>): (sel: Selection)
    ensures textarea.None? ==> sel == Selection(0, 0)
    ensures textarea.Some? ==> sel == textarea.value
  {
    match textarea
    case None => Selection(0, 0)
    case Some(s) => s
  }

  predicate WithinText(sel: Selection, value: string) {
    sel.start <= sel.end <= |value|
  }

  /**
   * `handleKeyDown`: any key but Tab is left to the browser (no edit); Tab yields
   * `value.substring(0, start) + "    " + value.substring(end)`, and the cursor `start + 4`
   * is restored only when there is a textarea to restore it in.
   */
  function HandleKeyDown(key: string, value: string, textarea: Option<Selection>): (r: Option<TabEdit>)
    ensures r.Some? <==> key == TAB_KEY
    ensures r.Some? ==> (r.value.cursor.Some? <==> textarea.Some?)
    ensures r.Some? && textarea.Some? ==> r.value.cursor == Some(textarea.value.start + |INDENT|)
    ensures r.Some? && WithinText(SelectionRead(textarea), value) ==>
      var sel := SelectionRead(textarea);
      r.value.value == value[..sel.start] + INDENT + value[sel.end..]
  {
    if key != TAB_KEY then None
    else
      var sel := SelectionRead(textarea);
      var cursor := if textarea.Some? then Some(sel.start + 4) else None;
      Some(TabEdit(Substring(value, 0, sel.start) + INDENT + Substring(value, sel.end, |value|), cursor))
  }

  /**
   * Tab over a selection inside the text: the new text is shorter by the selection and longer
   * by four; the text before the selection and after it is kept; the four characters at `start`
   * are spaces; the cursor sits right after them, inside the new text.
   */
  lemma TabSplice(value: string, start: nat, end: nat)
    requires start <= end <= |value|
    ensures var r := HandleKeyDown(TAB_KEY, value, Some(Selection(start, end)));
      && r.Some?
      && |r.value.value| == |value| - (end - start) + 4
      && r.value.value[..start] == value[..start]
      && r.value.value[start + 4..] == value[end..]
      && (forall i :: start <= i < start + 4 ==> r.value.value[i] == ' ')
      && r.value.cursor == Some(start + 4) && start + 4 <= |r.value.value|
  {
    var r := HandleKeyDown(TAB_KEY, value, Some(Selection(start, end)));
    var v := r.value.value;
    assert v == value[..start] + INDENT + value[end..];
    assert v[..start] == value[..start];
    assert v[start + 4..] == value[end..];
    forall i | start <= i < start + 4 ensures v[i] == ' ' {
      assert v[i] == INDENT[i - start];
    }
  }

  /**
   * The splice can be undone: taking the four spaces before the cursor out again and putting
   * the selected text back gives the original text.
   */
  lemma TabSpliceUndo(value: string, start: nat, end: nat)
    requires start <= end <= |value|
    ensures var e := HandleKeyDown(TAB_KEY, value, Some(Selection(start, end))).value;
      e.cursor.Some? && 4 <= e.cursor.value <= |e.value|
      && e.value[..e.cursor.value - 4] + value[start..end] + e.value[e.cursor.value..] == value
  {
    var e := HandleKeyDown(TAB_KEY, value, Some(Selection(start, end))).value;
    TabSplice(value, start, end);
    assert value == value[..start] + value[start..end] + value[end..];
  }

  /**
   * With no textarea to read a selection from, Tab puts four spaces in front of the text and
   * restores no cursor.
   */
  lemma TabWithoutSelectionPrepends(value: string)
    ensures HandleKeyDown(TAB_KEY, value, None) == Some(TabEdit(INDENT + value, None))
  {
    var r := HandleKeyDown(TAB_KEY, value, None);
    assert r.value.value == value[..0] + INDENT + value[0..];
    assert value[..0] + INDENT + value[0..] == INDENT + value;
  }

  /** Keys other than Tab produce no edit, so the text stays as it was. */
  lemma OtherKeysLeaveText(key: string, value: string, textarea: Option<Selection>)
    requires key != TAB_KEY
    ensures HandleKeyDown(key, value, textarea).None?
  {
  }
}
