/**
 * The pure builders of the handler: `_header`, `_rows_for_item` and its inner
 * `_make_row`. Each returns the rows of one block, or the error the source
 * would raise while building it (no partial block is ever returned).
 *
 * The functions state when they succeed and how many rows they return; the
 * layout of each block and which error is raised are stated by the lemmas
 * beside them.
 */
module Builders {
  import opened Rows
  import opened Labels

  /** The three wrap templates the handler holds after `begin`. */
  datatype Wraps = Wraps(span: Template, header: Template, rowHeader: Template)

  /** A `begin_group` row with appearance `w7`. */
  function GroupStart(name: string): OutRow
  {
    OutRow("begin_group", Some(name), None, Some("w7"), None, None)
  }

  /** The bare `end_group` row. */
  const GroupEnd := OutRow("end_group", None, None, None, None, None)

  /** A `note` row that is not required. */
  function NoteRow(name: string, labels: seq<string>, appearance: string): OutRow
  {
    OutRow("note", Some(name), Some(labels), Some(appearance), Some(false), None)
  }

  /** A column the header block can be built from. */
  predicate HasHeaderFields(col: Column)
  {
    col.labels.Some? && col.name.Some?
  }

  /** A column a per-item question can be built from. */
  predicate HasQuestionFields(col: Column)
  {
    col.ty.Some? && col.name.Some? && col.labels.Some?
  }

  // ---------------------------------------------------------------- _header

  /** One `w2` note of the header block; the label is formatted before the name is joined. */
  function HeaderNote(headerName: string, col: Column, wrap: Template): Result<OutRow>
  {
    match col.labels
    case None => Err(MissingLabel)
    case Some(labels) =>
      match col.name
      case None => Err(MissingName)
      case Some(colName) => Ok(NoteRow(headerName + "_" + colName, FormatAllLabels(labels, wrap), "w2"))
  }

  /** The `mids` comprehension of `_header`: one note per column, in column order. */
  function HeaderNotes(headerName: string, cols: seq<Column>, wrap: Template): (r: Result<seq<OutRow>>)
    ensures r.Ok? <==> forall i :: 0 <= i < |cols| ==> HasHeaderFields(cols[i])
    ensures r.Ok? ==> |r.value| == |cols|
  {
    if cols == [] then Ok([])
    else
      match HeaderNote(headerName, cols[0], wrap)
      case Err(e) => Err(e)
      case Ok(note) =>
        match HeaderNotes(headerName, cols[1..], wrap)
        case Err(e) =>
          assert forall j :: 0 <= j < |cols| - 1 ==> cols[1..][j] == cols[j + 1];
          Err(e)
        case Ok(notes) => Ok([note] + notes)
  }

  /** Note i of the comprehension is the note of column i. */
  lemma {:induction false} HeaderNotesAt(headerName: string, cols: seq<Column>, wrap: Template, i: nat)
    requires HeaderNotes(headerName, cols, wrap).Ok? && i < |cols|
    ensures HeaderNote(headerName, cols[i], wrap).Ok?
    ensures HeaderNotes(headerName, cols, wrap).value[i] == HeaderNote(headerName, cols[i], wrap).value
  {
    if i > 0 {
      HeaderNotesAt(headerName, cols[1..], wrap, i - 1);
    }
  }

  /** The comprehension raises the error of the first column that lacks a field. */
  lemma {:induction false} HeaderNotesFirstError(headerName: string, cols: seq<Column>, wrap: Template)
    requires HeaderNotes(headerName, cols, wrap).Err?
    ensures exists k :: 0 <= k < |cols| && HeaderNote(headerName, cols[k], wrap) == Err(HeaderNotes(headerName, cols, wrap).error)
                        && forall j :: 0 <= j < k ==> HasHeaderFields(cols[j])
  {
    if HeaderNote(headerName, cols[0], wrap).Ok? {
      var rest := cols[1..];
      HeaderNotesFirstError(headerName, rest, wrap);
      var k :| 0 <= k < |rest| && HeaderNote(headerName, rest[k], wrap) == Err(HeaderNotes(headerName, rest, wrap).error)
               && forall j :: 0 <= j < k ==> HasHeaderFields(rest[j]);
      assert forall j :: 1 <= j < k + 1 ==> cols[j] == rest[j - 1];
      assert HeaderNote(headerName, cols[k + 1], wrap) == Err(HeaderNotes(headerName, cols, wrap).error);
    } else {
      assert HeaderNote(headerName, cols[0], wrap) == Err(HeaderNotes(headerName, cols, wrap).error);
    }
  }

  /** `_header`: the block shown once, above the item blocks. */
  function Header(name: string, itemsLabel: Option<seq<string>>, cols: seq<Column>, wrap: Template)
    : (r: Result<seq<OutRow>>)
    ensures r.Ok? <==> itemsLabel.Some? && forall i :: 0 <= i < |cols| ==> HasHeaderFields(cols[i])
    ensures r.Ok? ==> |r.value| == |cols| + 3
  {
    var headerName := name + "_header";
    match itemsLabel
    case None => Err(MissingLabel)
    case Some(labels) =>
      match HeaderNotes(headerName, cols, wrap)
      case Err(e) => Err(e)
      case Ok(mids) =>
        Ok([GroupStart(headerName), NoteRow(headerName + "_note", FormatAllLabels(labels, wrap), "w1")]
           + mids + [GroupEnd])
  }

  /**
   * The header block: `begin_group <name>_header` (w7), the note
   * `<name>_header_note` (w1) holding the header-wrapped item labels, one w2
   * note `<name>_header_<column>` per column in column order holding the
   * header-wrapped column labels, and a bare `end_group`.
   */
  lemma HeaderLayout(name: string, itemsLabel: Option<seq<string>>, cols: seq<Column>, wrap: Template)
    requires Header(name, itemsLabel, cols, wrap).Ok?
    ensures itemsLabel.Some?
    ensures Header(name, itemsLabel, cols, wrap).value[0] == GroupStart(name + "_header")
    ensures Header(name, itemsLabel, cols, wrap).value[1] ==
              NoteRow(name + "_header_note", FormatAllLabels(itemsLabel.value, wrap), "w1")
    ensures forall i :: 0 <= i < |cols| ==>
              Header(name, itemsLabel, cols, wrap).value[i + 2] ==
                NoteRow(name + "_header_" + cols[i].name.value, FormatAllLabels(cols[i].labels.value, wrap), "w2")
    ensures Header(name, itemsLabel, cols, wrap).value[|cols| + 2] == GroupEnd
  {
    var headerName := name + "_header";
    var r := Header(name, itemsLabel, cols, wrap).value;
    var mids := HeaderNotes(headerName, cols, wrap).value;
    assert r == [GroupStart(headerName), NoteRow(headerName + "_note", FormatAllLabels(itemsLabel.value, wrap), "w1")]
                + mids + [GroupEnd];
    assert headerName + "_note" == name + "_header_note";
    forall i | 0 <= i < |cols|
      ensures r[i + 2] == NoteRow(name + "_header_" + cols[i].name.value, FormatAllLabels(cols[i].labels.value, wrap), "w2")
    {
      HeaderNotesAt(headerName, cols, wrap, i);
      assert headerName + "_" + cols[i].name.value == name + "_header_" + cols[i].name.value;
    }
  }

  /**
   * Which error `_header` raises: a missing item label first, otherwise the
   * first column without a label or a name (its label is looked at first).
   */
  lemma HeaderError(name: string, itemsLabel: Option<seq<string>>, cols: seq<Column>, wrap: Template)
    requires Header(name, itemsLabel, cols, wrap).Err?
    ensures itemsLabel.None? ==> Header(name, itemsLabel, cols, wrap).error == MissingLabel
    ensures itemsLabel.Some? ==>
      exists k :: 0 <= k < |cols| && !HasHeaderFields(cols[k]) &&
        (forall j :: 0 <= j < k ==> HasHeaderFields(cols[j])) &&
        Header(name, itemsLabel, cols, wrap).error == (if cols[k].labels.None? then MissingLabel else MissingName)
  {
    if itemsLabel.Some? {
      HeaderNotesFirstError(name + "_header", cols, wrap);
    }
  }

  // ---------------------------------------------------------- _rows_for_item

  /** The appearance of a per-item question: `w2` and one more token chosen by the type. */
  function QuestionAppearance(ty: string): (r: string)
    ensures r == "w2 horizontal-compact" <==> ty == "select_one" || ty == "select_multiple"
    ensures r == "w2 no-label" <==> !(ty == "select_one" || ty == "select_multiple")
  {
    var tokens := ["w2", if ty in ["select_one", "select_multiple"] then "horizontal-compact" else "no-label"];
    var joined := tokens[0] + " " + tokens[1];
    assert joined == "w2 horizontal-compact" || joined == "w2 no-label";
    assert |"w2 horizontal-compact"| != |"w2 no-label"|;
    joined
  }

  /**
   * `_make_row`: one column copied under the item's name. The type is read
   * first, then the name, then the label.
   */
  function Question(baseName: string, itemName: string, col: Column, span: Template): (r: Result<OutRow>)
    ensures r.Ok? <==> HasQuestionFields(col)
    ensures col.ty.None? ==> r == Err(MissingType)
    ensures col.ty.Some? && col.name.None? ==> r == Err(MissingName)
    ensures col.ty.Some? && col.name.Some? && col.labels.None? ==> r == Err(MissingLabel)
  {
    match col.ty
    case None => Err(MissingType)
    case Some(ty) =>
      match col.name
      case None => Err(MissingName)
      case Some(colName) =>
        match col.labels
        case None => Err(MissingLabel)
        case Some(labels) =>
          var required := match col.required case Some(b) => b case None => false;
          Ok(OutRow(ty, Some(baseName + "_" + colName),
                    Some(FormatAllLabels(ItemPrefixed(itemName, labels), span)),
                    Some(QuestionAppearance(ty)), Some(required), col.selectFromListName))
  }

  /**
   * The question keeps the column's type, is named `<base>_<column>`, has the
   * appearance its type calls for, holds each column label prefixed by the item
   * name and wrapped in the span template, stays required only when the column
   * says so, and keeps the column's choice list.
   */
  lemma QuestionFields(baseName: string, itemName: string, col: Column, span: Template)
    requires HasQuestionFields(col)
    ensures Question(baseName, itemName, col, span).Ok?
    ensures Question(baseName, itemName, col, span).value.ty == col.ty.value
    ensures Question(baseName, itemName, col, span).value.name == Some(baseName + "_" + col.name.value)
    ensures Question(baseName, itemName, col, span).value.appearance ==
              Some(if col.ty.value == "select_one" || col.ty.value == "select_multiple"
                   then "w2 horizontal-compact" else "w2 no-label")
    ensures Question(baseName, itemName, col, span).value.labels.Some?
    ensures |Question(baseName, itemName, col, span).value.labels.value| == |col.labels.value|
    ensures forall j :: 0 <= j < |col.labels.value| ==>
              Question(baseName, itemName, col, span).value.labels.value[j] ==
                Apply(span, itemName + "-" + col.labels.value[j])
    ensures Question(baseName, itemName, col, span).value.required ==
              Some(if col.required.Some? then col.required.value else false)
    ensures Question(baseName, itemName, col, span).value.selectFromListName == col.selectFromListName
  {
    var labels := ItemPrefixed(itemName, col.labels.value);
    assert forall j :: 0 <= j < |col.labels.value| ==>
             FormatAllLabels(labels, span)[j] == Apply(span, labels[j]);
  }

  /** `[_make_row(col) for col in cols]`: one question per column, in column order. */
  function Questions(baseName: string, itemName: string, cols: seq<Column>, span: Template): (r: Result<seq<OutRow>>)
    ensures r.Ok? <==> forall i :: 0 <= i < |cols| ==> HasQuestionFields(cols[i])
    ensures r.Ok? ==> |r.value| == |cols|
  {
    if cols == [] then Ok([])
    else
      match Question(baseName, itemName, cols[0], span)
      case Err(e) => Err(e)
      case Ok(question) =>
        match Questions(baseName, itemName, cols[1..], span)
        case Err(e) =>
          assert forall j :: 0 <= j < |cols| - 1 ==> cols[1..][j] == cols[j + 1];
          Err(e)
        case Ok(questions) => Ok([question] + questions)
  }

  /** Question i of the comprehension is the question built from column i. */
  lemma {:induction false} QuestionsAt(baseName: string, itemName: string, cols: seq<Column>, span: Template, i: nat)
    requires Questions(baseName, itemName, cols, span).Ok? && i < |cols|
    ensures Question(baseName, itemName, cols[i], span).Ok?
    ensures Questions(baseName, itemName, cols, span).value[i] == Question(baseName, itemName, cols[i], span).value
  {
    if i > 0 {
      QuestionsAt(baseName, itemName, cols[1..], span, i - 1);
    }
  }

  /** The comprehension raises the error of the first column that lacks a field. */
  lemma {:induction false} QuestionsFirstError(baseName: string, itemName: string, cols: seq<Column>, span: Template)
    requires Questions(baseName, itemName, cols, span).Err?
    ensures exists k :: 0 <= k < |cols| &&
                        Question(baseName, itemName, cols[k], span) == Err(Questions(baseName, itemName, cols, span).error) &&
                        forall j :: 0 <= j < k ==> HasQuestionFields(cols[j])
  {
    if Question(baseName, itemName, cols[0], span).Ok? {
      var rest := cols[1..];
      QuestionsFirstError(baseName, itemName, rest, span);
      var k :| 0 <= k < |rest| &&
               Question(baseName, itemName, rest[k], span) == Err(Questions(baseName, itemName, rest, span).error) &&
               forall j :: 0 <= j < k ==> HasQuestionFields(rest[j]);
      assert forall j :: 1 <= j < k + 1 ==> cols[j] == rest[j - 1];
      assert Question(baseName, itemName, cols[k + 1], span) == Err(Questions(baseName, itemName, cols, span).error);
    } else {
      assert Question(baseName, itemName, cols[0], span) == Err(Questions(baseName, itemName, cols, span).error);
    }
  }

  /** `_rows_for_item`: the block of one matrix item. */
  function RowsForItem(name: string, item: Item, cols: seq<Column>, w: Wraps): (r: Result<seq<OutRow>>)
    ensures r.Ok? <==> item.name.Some? && item.labels.Some? &&
                       forall i :: 0 <= i < |cols| ==> HasQuestionFields(cols[i])
    ensures r.Ok? ==> |r.value| == |cols| + 3
  {
    match item.name
    case None => Err(MissingName)
    case Some(itemName) =>
      var baseName := name + "_" + itemName;
      match item.labels
      case None => Err(MissingLabel)
      case Some(labels) =>
        match Questions(baseName, itemName, cols, w.span)
        case Err(e) => Err(e)
        case Ok(questions) =>
          Ok([GroupStart(baseName), NoteRow(baseName + "_note", FormatAllLabels(labels, w.rowHeader), "w1")]
             + questions + [GroupEnd])
  }

  /**
   * The block of one item: `begin_group <name>_<item>` (w7), the note
   * `<name>_<item>_note` (w1) holding the row-header-wrapped item labels, the
   * question built from each column in column order, and a bare `end_group`.
   */
  lemma ItemBlockLayout(name: string, item: Item, cols: seq<Column>, w: Wraps)
    requires RowsForItem(name, item, cols, w).Ok?
    ensures item.name.Some? && item.labels.Some?
    ensures RowsForItem(name, item, cols, w).value[0] == GroupStart(name + "_" + item.name.value)
    ensures RowsForItem(name, item, cols, w).value[1] ==
              NoteRow(name + "_" + item.name.value + "_note", FormatAllLabels(item.labels.value, w.rowHeader), "w1")
    ensures forall i :: 0 <= i < |cols| ==>
              Question(name + "_" + item.name.value, item.name.value, cols[i], w.span).Ok? &&
              RowsForItem(name, item, cols, w).value[i + 2] ==
                Question(name + "_" + item.name.value, item.name.value, cols[i], w.span).value
    ensures RowsForItem(name, item, cols, w).value[|cols| + 2] == GroupEnd
  {
    var baseName := name + "_" + item.name.value;
    var questions := Questions(baseName, item.name.value, cols, w.span).value;
    var r := RowsForItem(name, item, cols, w).value;
    assert r == [GroupStart(baseName), NoteRow(baseName + "_note", FormatAllLabels(item.labels.value, w.rowHeader), "w1")]
                + questions + [GroupEnd];
    forall i | 0 <= i < |cols|
      ensures Question(baseName, item.name.value, cols[i], w.span).Ok?
      ensures r[i + 2] == Question(baseName, item.name.value, cols[i], w.span).value
    {
      QuestionsAt(baseName, item.name.value, cols, w.span, i);
    }
  }

  /**
   * Which error `_rows_for_item` raises: a missing item name, then a missing
   * item label, otherwise the error of the first column that lacks a field.
   */
  lemma ItemBlockError(name: string, item: Item, cols: seq<Column>, w: Wraps)
    requires RowsForItem(name, item, cols, w).Err?
    ensures item.name.None? ==> RowsForItem(name, item, cols, w).error == MissingName
    ensures item.name.Some? && item.labels.None? ==> RowsForItem(name, item, cols, w).error == MissingLabel
    ensures item.name.Some? && item.labels.Some? ==>
      exists k :: 0 <= k < |cols| && !HasQuestionFields(cols[k]) &&
        (forall j :: 0 <= j < k ==> HasQuestionFields(cols[j])) &&
        Question(name + "_" + item.name.value, item.name.value, cols[k], w.span) ==
          Err(RowsForItem(name, item, cols, w).error)
  {
    if item.name.Some? && item.labels.Some? {
      QuestionsFirstError(name + "_" + item.name.value, item.name.value, cols, w.span);
    }
  }
}
