/**
 * `KoboMatrixGroupHandler`: a row-consuming state machine. `Begin` reads the
 * configuration from the `begin_kobomatrix` row, `HandleRow` collects column
 * rows until `end_kobomatrix`, and `Finish` then appends the expanded rows to
 * the survey contents the caller owns.
 */
module MatrixHandler {
  import opened Rows
  import opened Labels
  import opened Builders
  import opened Expansion

  /** The row type that opens a matrix group (used by the dispatcher). */
  const StartType := "begin_kobomatrix"
  /** The row type that closes it. */
  const EndType := "end_kobomatrix"

  /** The caller-owned, append-only list of output rows (`survey_contents`). */
  class SurveyContents {
    var rows: seq<OutRow>

    constructor (initial: seq<OutRow>)
      ensures rows == initial
    {
      rows := initial;
    }

    method Append(row: OutRow)
      modifies this
      ensures rows == old(rows) + [row]
    {
      rows := rows + [row];
    }
  }

  /**
   * The `begin_kobomatrix` row. `matrixList` is the `kobo--matrix_list` key,
   * `labels` the `label` key, and the three templates the
   * `kobomatrix--span-wrap`, `kobomatrix--header-wrap` and
   * `kobomatrix--row-header-wrap` keys.
   */
  datatype StartRow = StartRow(
    labels: Option<seq<string>>,
    matrixList: Option<string>,
    spanWrap: Option<Template>,
    headerWrap: Option<Template>,
    rowHeaderWrap: Option<Template>)

  /** What `handle_row` tells the dispatcher: keep this handler (`self`) or pop it (`False`). */
  datatype Signal = Continue | Done

  /** Appends every row of `block` to `out`, one at a time. */
  method AppendAll(out: SurveyContents, block: seq<OutRow>)
    modifies out
    ensures out.rows == old(out.rows) + block
  {
    var i := 0;
    while i < |block|
      invariant 0 <= i <= |block|
      invariant out.rows == old(out.rows) + block[..i]
    {
      out.Append(block[i]);
      i := i + 1;
    }
    assert block[..|block|] == block;
  }

  /**
   * The second loop of `finish`: appends each block in order until one of
   * them is an error, which stops the loop with the earlier blocks appended.
   */
  method AppendBlocks(out: SurveyContents, blocks: seq<Result<seq<OutRow>>>, size: nat)
    returns (failure: Option<Error>)
    requires UniformBlocks(blocks, size)
    modifies out
    ensures out.rows == old(out.rows) + Emit(blocks, |blocks|, size).rows
    ensures failure == Emit(blocks, |blocks|, size).failure
  {
    var k := 0;
    while k < |blocks|
      invariant 0 <= k <= |blocks|
      invariant Emit(blocks, k, size).failure.None?
      invariant out.rows == old(out.rows) + Emit(blocks, k, size).rows
    {
      match blocks[k] {
        case Err(e) =>
          FailureSticks(blocks, size, k + 1, |blocks|);
          return Some(e);
        case Ok(block) =>
          AppendAll(out, block);
          k := k + 1;
      }
    }
    return None;
  }

  class KoboMatrixGroupHandler {
    /** The group name, as set when the group begins. */
    const name: string
    /** Whether `Begin` has configured the handler. */
    var begun: bool
    var items: seq<Item>
    var itemLabels: Option<seq<string>>
    var spanWrap: Template
    var headerWrap: Template
    var rowHeaderWrap: Template
    /** The accumulated column rows (`_rows`), in arrival order. */
    var rows: seq<Column>

    constructor (name: string)
      ensures this.name == name && !begun && rows == []
    {
      this.name := name;
      begun := false;
      items := [];
      itemLabels := None;
      spanWrap, headerWrap, rowHeaderWrap := SpanWrap, HeaderWrap, RowHeaderWrap;
      rows := [];
    }

    function Templates(): Wraps
      reads this
    {
      Wraps(spanWrap, headerWrap, rowHeaderWrap)
    }

    /** What `Finish` appends and raises, given the current state. */
    function Pending(): Emission
      reads this
    {
      Expand(name, itemLabels, items, rows, Templates())
    }

    /**
     * `begin`: pops the choice-list key from the row (the returned row is the
     * row without it), resolves the items through `lookup`, and keeps the item
     * labels and the templates, each defaulting when its key is absent.
     */
    method Begin(initialRow: StartRow, lookup: string -> seq<Item>) returns (r: Result<StartRow>)
      modifies this
      ensures initialRow.matrixList.None? ==> r == Err(MissingChoiceList) && unchanged(this)
      ensures initialRow.matrixList.Some? ==>
        && r == Ok(initialRow.(matrixList := None))
        && begun
        && items == lookup(initialRow.matrixList.value)
        && itemLabels == initialRow.labels
        && spanWrap == (if initialRow.spanWrap.Some? then initialRow.spanWrap.value else SpanWrap)
        && headerWrap == (if initialRow.headerWrap.Some? then initialRow.headerWrap.value else HeaderWrap)
        && rowHeaderWrap == (if initialRow.rowHeaderWrap.Some? then initialRow.rowHeaderWrap.value else RowHeaderWrap)
        && rows == []
    {
      match initialRow.matrixList {
        case None =>
          return Err(MissingChoiceList);
        case Some(listName) =>
          items := lookup(listName);
          itemLabels := initialRow.labels;
          spanWrap := match initialRow.spanWrap case Some(t) => t case None => SpanWrap;
          headerWrap := match initialRow.headerWrap case Some(t) => t case None => HeaderWrap;
          rowHeaderWrap := match initialRow.rowHeaderWrap case Some(t) => t case None => RowHeaderWrap;
          rows := [];
          begun := true;
          return Ok(initialRow.(matrixList := None));
      }
    }

    /** The item blocks of `finish`: `_rows_for_item` on every item, appended in order. */
    method AppendItemBlocks(out: SurveyContents) returns (failure: Option<Error>)
      modifies out
      ensures out.rows == old(out.rows) + Emit(ItemResults(name, items, rows, Templates()), |items|, BlockSize(rows)).rows
      ensures failure == Emit(ItemResults(name, items, rows, Templates()), |items|, BlockSize(rows)).failure
    {
      var results := ItemResults(name, items, rows, Templates());
      failure := AppendBlocks(out, results, BlockSize(rows));
    }

    /**
     * `finish`: appends the header block, then the block of every item in
     * order. The previous contents stay an unchanged prefix; a block that
     * cannot be built stops the expansion with the blocks before it appended.
     */
    method Finish(out: SurveyContents) returns (failure: Option<Error>)
      requires begun
      modifies out
      ensures out.rows == old(out.rows) + Pending().rows
      ensures failure == Pending().failure
    {
      var cols, w := rows, Templates();
      ExpandUnfold(name, itemLabels, items, cols, w);
      match Header(name, itemLabels, cols, w.header) {
        case Err(e) =>
          return Some(e);
        case Ok(header) =>
          ghost var blocks := Emit(ItemResults(name, items, cols, w), |items|, BlockSize(cols));
          AppendAll(out, header);
          failure := AppendItemBlocks(out);
          ConcatAssoc(old(out.rows), header, blocks.rows);
      }
    }

    /**
     * `handle_row`: the end row triggers `Finish` and pops the handler; any
     * other row is appended to the accumulated rows and the handler stays.
     */
    method HandleRow(row: Column, out: SurveyContents) returns (r: Result<Signal>)
      requires begun
      modifies this`rows, out
      ensures row.ty == Some(EndType) ==>
        && rows == old(rows)
        && out.rows == old(out.rows) + Pending().rows
        && r == (if Pending().failure.None? then Ok(Done) else Err(Pending().failure.value))
      ensures row.ty != Some(EndType) ==>
        && rows == old(rows) + [row]
        && out.rows == old(out.rows)
        && r == Ok(Continue)
    {
      if row.ty == Some(EndType) {
        var failure := Finish(out);
        match failure {
          case None => return Ok(Done);
          case Some(e) => return Err(e);
        }
      } else {
        rows := rows + [row];
        return Ok(Continue);
      }
    }
  }
}
