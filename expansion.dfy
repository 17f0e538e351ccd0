/**
 * What `finish` appends to the survey contents, as a function of the handler's
 * state: the header block, then the block of each item in order. A block that
 * cannot be built raises after the earlier blocks were already appended, so an
 * expansion is the rows emitted together with the error that stopped it, if any.
 */
module Expansion {
  import opened Rows
  import opened Labels
  import opened Builders

  datatype Emission = Emission(rows: seq<OutRow>, failure: Option<Error>)

  /** The number of rows in one block, header or item. */
  function BlockSize(cols: seq<Column>): nat
  {
    |cols| + 3
  }

  /**
   * The number of rows in `k` blocks of `n` rows, written as a repeated sum so
   * that proofs about block offsets stay linear.
   */
  function Times(k: nat, n: nat): nat
  {
    if k == 0 then 0 else Times(k - 1, n) + n
  }

  lemma {:induction false} TimesIsProduct(k: nat, n: nat)
    ensures Times(k, n) == k * n
  {
    if k > 0 {
      TimesIsProduct(k - 1, n);
    }
  }

  lemma {:induction false} TimesMono(k: nat, m: nat, n: nat)
    requires k <= m
    ensures Times(k, n) <= Times(m, n)
    decreases m
  {
    if k < m {
      TimesMono(k, m - 1, n);
    }
  }

  /** A slice that lies inside the first part of a concatenation. */
  lemma SliceOfPrefix<T>(a: seq<T>, b: seq<T>, lo: nat, hi: nat)
    requires lo <= hi <= |a|
    ensures (a + b)[lo..hi] == a[lo..hi]
  {
  }

  /** Every block that was built has `size` rows. */
  predicate UniformBlocks(blocks: seq<Result<seq<OutRow>>>, size: nat)
  {
    forall k :: 0 <= k < |blocks| && blocks[k].Ok? ==> |blocks[k].value| == size
  }

  /** Appending two pieces one after the other is appending them together. */
  lemma ConcatAssoc<T>(a: seq<T>, b: seq<T>, c: seq<T>)
    ensures a + b + c == a + (b + c)
  {
  }

  /** A slice that lies inside the second part of a concatenation. */
  lemma SliceOfSuffix<T>(a: seq<T>, b: seq<T>, lo: nat, hi: nat)
    requires lo <= hi <= |b|
    ensures (a + b)[|a| + lo..|a| + hi] == b[lo..hi]
  {
  }

  /** The block of every item, or the error building it raises: `_rows_for_item` on each item. */
  function ItemResults(name: string, items: seq<Item>, cols: seq<Column>, w: Wraps): (r: seq<Result<seq<OutRow>>>)
    ensures |r| == |items|
    ensures forall k :: 0 <= k < |items| ==> r[k] == RowsForItem(name, items[k], cols, w)
    ensures UniformBlocks(r, BlockSize(cols))
  {
    seq(|items|, k requires 0 <= k < |items| => RowsForItem(name, items[k], cols, w))
  }

  /**
   * The first `n` blocks, appended one after the other until one of them is an
   * error: the rows appended so far, and that error.
   */
  function Emit(blocks: seq<Result<seq<OutRow>>>, n: nat, size: nat): (e: Emission)
    requires n <= |blocks| && UniformBlocks(blocks, size)
    ensures e.failure.None? <==> forall k :: 0 <= k < n ==> blocks[k].Ok?
    ensures e.failure.None? ==> |e.rows| == Times(n, size)
  {
    if n == 0 then Emission([], None)
    else
      var done := Emit(blocks, n - 1, size);
      if done.failure.Some? then done
      else
        match blocks[n - 1]
        case Err(err) => Emission(done.rows, Some(err))
        case Ok(block) => Emission(done.rows + block, None)
  }

  /** There is a first failing block, and the rows before it are as many as the blocks before it. */
  lemma {:induction false} FirstFailingBlock(blocks: seq<Result<seq<OutRow>>>, n: nat, size: nat)
    requires n <= |blocks| && UniformBlocks(blocks, size)
    requires Emit(blocks, n, size).failure.Some?
    ensures exists k :: 0 <= k < n && blocks[k] == Err(Emit(blocks, n, size).failure.value) &&
              (forall j :: 0 <= j < k ==> blocks[j].Ok?) &&
              |Emit(blocks, n, size).rows| == Times(k, size)
  {
    var done := Emit(blocks, n - 1, size);
    var e := Emit(blocks, n, size);
    if done.failure.Some? {
      FirstFailingBlock(blocks, n - 1, size);
      assert e == done;
      var k :| 0 <= k < n - 1 && blocks[k] == Err(done.failure.value) &&
               (forall j :: 0 <= j < k ==> blocks[j].Ok?) &&
               |done.rows| == Times(k, size);
      assert 0 <= k < n && blocks[k] == Err(e.failure.value) && |e.rows| == Times(k, size);
    } else {
      FirstFailureHere(blocks, n, size);
    }
  }

  /**
   * When block k is the first failing one, the emission of n blocks is the
   * complete emission of the k blocks before it, with block k's error.
   */
  lemma EmitStopsAt(blocks: seq<Result<seq<OutRow>>>, n: nat, size: nat, k: nat)
    requires k < n <= |blocks| && UniformBlocks(blocks, size)
    requires blocks[k].Err? && forall j :: 0 <= j < k ==> blocks[j].Ok?
    ensures Emit(blocks, k, size).failure.None?
    ensures Emit(blocks, n, size) == Emission(Emit(blocks, k, size).rows, Some(blocks[k].error))
  {
    assert Emit(blocks, k + 1, size) == Emission(Emit(blocks, k, size).rows, Some(blocks[k].error));
    FailureSticks(blocks, size, k + 1, n);
  }

  /**
   * A failed emission stops at the first failing block: its error is that
   * block's error, and the rows are exactly the blocks before it.
   */
  lemma EmitFirstFailure(blocks: seq<Result<seq<OutRow>>>, n: nat, size: nat)
    requires n <= |blocks| && UniformBlocks(blocks, size)
    requires Emit(blocks, n, size).failure.Some?
    ensures exists k :: 0 <= k < n && blocks[k] == Err(Emit(blocks, n, size).failure.value) &&
              (forall j :: 0 <= j < k ==> blocks[j].Ok?) &&
              Emit(blocks, k, size).failure.None? &&
              Emit(blocks, n, size).rows == Emit(blocks, k, size).rows
  {
    FirstFailingBlock(blocks, n, size);
    var k :| 0 <= k < n && blocks[k] == Err(Emit(blocks, n, size).failure.value) &&
             (forall j :: 0 <= j < k ==> blocks[j].Ok?) &&
             |Emit(blocks, n, size).rows| == Times(k, size);
    EmitStopsAt(blocks, n, size, k);
  }

  /** The block that turns a complete emission into a failed one is the failing block. */
  lemma FirstFailureHere(blocks: seq<Result<seq<OutRow>>>, n: nat, size: nat)
    requires 0 < n <= |blocks| && UniformBlocks(blocks, size)
    requires Emit(blocks, n - 1, size).failure.None? && Emit(blocks, n, size).failure.Some?
    ensures blocks[n - 1] == Err(Emit(blocks, n, size).failure.value)
    ensures Emit(blocks, n, size).rows == Emit(blocks, n - 1, size).rows
    ensures forall j :: 0 <= j < n - 1 ==> blocks[j].Ok?
  {
  }

  /** Everything `finish` appends, and the error it raises if it raises one. */
  function Expand(name: string, itemsLabel: Option<seq<string>>, items: seq<Item>, cols: seq<Column>, w: Wraps)
    : (e: Emission)
    ensures Header(name, itemsLabel, cols, w.header).Err? ==>
              e == Emission([], Some(Header(name, itemsLabel, cols, w.header).error))
    ensures e.failure.None? <==>
              Header(name, itemsLabel, cols, w.header).Ok? &&
              forall k :: 0 <= k < |items| ==> RowsForItem(name, items[k], cols, w).Ok?
  {
    match Header(name, itemsLabel, cols, w.header)
    case Err(err) => Emission([], Some(err))
    case Ok(header) =>
      var blocks := Emit(ItemResults(name, items, cols, w), |items|, BlockSize(cols));
      Emission(header + blocks.rows, blocks.failure)
  }

  /** The expansion is the header block followed by the emitted item blocks. */
  lemma ExpandUnfold(name: string, itemsLabel: Option<seq<string>>, items: seq<Item>, cols: seq<Column>, w: Wraps)
    ensures Header(name, itemsLabel, cols, w.header).Err? ==>
              Expand(name, itemsLabel, items, cols, w) == Emission([], Some(Header(name, itemsLabel, cols, w.header).error))
    ensures Header(name, itemsLabel, cols, w.header).Ok? ==>
              var blocks := Emit(ItemResults(name, items, cols, w), |items|, BlockSize(cols));
              Expand(name, itemsLabel, items, cols, w) ==
                Emission(Header(name, itemsLabel, cols, w.header).value + blocks.rows, blocks.failure)
  {
  }

  /** A complete expansion has one block of `|cols| + 3` rows for the header and for each item. */
  lemma ExpandSize(name: string, itemsLabel: Option<seq<string>>, items: seq<Item>, cols: seq<Column>, w: Wraps)
    requires Expand(name, itemsLabel, items, cols, w).failure.None?
    ensures |Expand(name, itemsLabel, items, cols, w).rows| == (|items| + 1) * (|cols| + 3)
  {
    TimesIsProduct(|items| + 1, BlockSize(cols));
  }

  /** Once the header is built it is what comes first, whatever the items do. */
  lemma ExpandHeaderFirst(name: string, itemsLabel: Option<seq<string>>, items: seq<Item>, cols: seq<Column>, w: Wraps)
    requires Header(name, itemsLabel, cols, w.header).Ok?
    ensures |Expand(name, itemsLabel, items, cols, w).rows| >= |cols| + 3
    ensures Expand(name, itemsLabel, items, cols, w).rows[..|cols| + 3] == Header(name, itemsLabel, cols, w.header).value
  {
    var header := Header(name, itemsLabel, cols, w.header).value;
    var blocks := Emit(ItemResults(name, items, cols, w), |items|, BlockSize(cols));
    assert (header + blocks.rows)[..|header|] == header;
  }

  /** With no items the expansion is the header block alone. */
  lemma ExpandNoItems(name: string, itemsLabel: Option<seq<string>>, cols: seq<Column>, w: Wraps)
    ensures Expand(name, itemsLabel, [], cols, w).failure.None? <==> Header(name, itemsLabel, cols, w.header).Ok?
    ensures Header(name, itemsLabel, cols, w.header).Ok? ==>
              Expand(name, itemsLabel, [], cols, w).rows == Header(name, itemsLabel, cols, w.header).value
  {
    if Header(name, itemsLabel, cols, w.header).Ok? {
      var header := Header(name, itemsLabel, cols, w.header).value;
      assert Expand(name, itemsLabel, [], cols, w).rows == header + [];
    }
  }

  /**
   * After a leading block of `size` rows, a failed emission holds the lead and
   * exactly the blocks before the first failing one.
   */
  lemma LeadThenFailure(lead: seq<OutRow>, blocks: seq<Result<seq<OutRow>>>, size: nat)
    requires UniformBlocks(blocks, size) && |lead| == size
    requires Emit(blocks, |blocks|, size).failure.Some?
    ensures exists k :: 0 <= k < |blocks| && blocks[k] == Err(Emit(blocks, |blocks|, size).failure.value) &&
              (forall j :: 0 <= j < k ==> blocks[j].Ok?) &&
              |lead + Emit(blocks, |blocks|, size).rows| == (k + 1) * size
  {
    FirstFailingBlock(blocks, |blocks|, size);
    var k :| 0 <= k < |blocks| && blocks[k] == Err(Emit(blocks, |blocks|, size).failure.value) &&
             (forall j :: 0 <= j < k ==> blocks[j].Ok?) &&
             |Emit(blocks, |blocks|, size).rows| == Times(k, size);
    TimesIsProduct(k + 1, size);
  }

  /**
   * An item block that cannot be built stops the expansion at the first such
   * item: the header and the blocks of the items before it are what was
   * appended, and the error is that item's error.
   */
  lemma ExpandFailsAtFirstBadItem(name: string, itemsLabel: Option<seq<string>>, items: seq<Item>, cols: seq<Column>, w: Wraps)
    requires Header(name, itemsLabel, cols, w.header).Ok?
    requires Expand(name, itemsLabel, items, cols, w).failure.Some?
    ensures exists k :: 0 <= k < |items| &&
              RowsForItem(name, items[k], cols, w) == Err(Expand(name, itemsLabel, items, cols, w).failure.value) &&
              (forall j :: 0 <= j < k ==> RowsForItem(name, items[j], cols, w).Ok?) &&
              |Expand(name, itemsLabel, items, cols, w).rows| == (k + 1) * (|cols| + 3) &&
              Expand(name, itemsLabel, items, cols, w).rows ==
                Header(name, itemsLabel, cols, w.header).value + Emit(ItemResults(name, items, cols, w), k, BlockSize(cols)).rows
  {
    var results := ItemResults(name, items, cols, w);
    var size := BlockSize(cols);
    var header := Header(name, itemsLabel, cols, w.header).value;
    ExpandUnfold(name, itemsLabel, items, cols, w);
    LeadThenFailure(header, results, size);
    var k :| 0 <= k < |results| && results[k] == Err(Emit(results, |results|, size).failure.value) &&
             (forall j :: 0 <= j < k ==> results[j].Ok?) &&
             |header + Emit(results, |results|, size).rows| == (k + 1) * size;
    EmitStopsAt(results, |results|, size, k);
    assert RowsForItem(name, items[k], cols, w) == results[k];
  }

  /** Emitting the first n blocks looks at those blocks only. */
  lemma {:induction false} EmitPrefix(a: seq<Result<seq<OutRow>>>, b: seq<Result<seq<OutRow>>>, n: nat, size: nat)
    requires n <= |a| && n <= |b| && UniformBlocks(a, size) && UniformBlocks(b, size)
    requires forall j :: 0 <= j < n ==> a[j] == b[j]
    ensures Emit(a, n, size) == Emit(b, n, size)
  {
    if n > 0 {
      EmitPrefix(a, b, n - 1, size);
    }
  }

  /**
   * When item k is the first whose block cannot be built, `finish` raises its
   * error after appending exactly what it appends, without error, for the
   * items before it alone.
   */
  lemma ExpandStopsAtItem(name: string, itemsLabel: Option<seq<string>>, items: seq<Item>, cols: seq<Column>, w: Wraps, k: nat)
    requires Header(name, itemsLabel, cols, w.header).Ok?
    requires k < |items| && RowsForItem(name, items[k], cols, w).Err?
    requires forall j :: 0 <= j < k ==> RowsForItem(name, items[j], cols, w).Ok?
    ensures Expand(name, itemsLabel, items[..k], cols, w).failure.None?
    ensures Expand(name, itemsLabel, items, cols, w) ==
              Emission(Expand(name, itemsLabel, items[..k], cols, w).rows, Some(RowsForItem(name, items[k], cols, w).error))
  {
    var size := BlockSize(cols);
    var all := ItemResults(name, items, cols, w);
    var before := ItemResults(name, items[..k], cols, w);
    ExpandUnfold(name, itemsLabel, items, cols, w);
    ExpandUnfold(name, itemsLabel, items[..k], cols, w);
    assert forall j :: 0 <= j < k ==> before[j] == all[j];
    EmitPrefix(before, all, k, size);
    EmitStopsAt(all, |items|, size, k);
  }

  /** Once a block has failed, later blocks add nothing. */
  lemma {:induction false} FailureSticks(blocks: seq<Result<seq<OutRow>>>, size: nat, k: nat, m: nat)
    requires k <= m <= |blocks| && UniformBlocks(blocks, size)
    requires Emit(blocks, k, size).failure.Some?
    ensures Emit(blocks, m, size) == Emit(blocks, k, size)
    decreases m
  {
    if k < m {
      FailureSticks(blocks, size, k, m - 1);
    }
  }

  /** Block k of what is emitted is exactly block k of the input. */
  lemma {:induction false} EmitBlockAt(blocks: seq<Result<seq<OutRow>>>, n: nat, size: nat, k: nat)
    requires k < n <= |blocks| && UniformBlocks(blocks, size)
    requires Emit(blocks, n, size).failure.None?
    ensures blocks[k].Ok?
    ensures Times(k + 1, size) <= |Emit(blocks, n, size).rows|
    ensures Emit(blocks, n, size).rows[Times(k, size) .. Times(k + 1, size)] == blocks[k].value
    decreases n
  {
    var lo, hi := Times(k, size), Times(k + 1, size);
    TimesMono(k + 1, n, size);
    var done := Emit(blocks, n - 1, size).rows;
    var block := blocks[n - 1].value;
    var all := Emit(blocks, n, size).rows;
    assert all == done + block;
    if k == n - 1 {
      assert |done| == lo;
      assert all[lo..hi] == block;
    } else {
      EmitBlockAt(blocks, n - 1, size, k);
      SliceOfPrefix(done, block, lo, hi);
    }
  }

  /** After a leading block of `size` rows, block k + 1 is block k of the emission. */
  lemma {:induction false} BlockAfterLead(lead: seq<OutRow>, blocks: seq<Result<seq<OutRow>>>, size: nat, k: nat)
    requires k < |blocks| && UniformBlocks(blocks, size) && |lead| == size
    requires Emit(blocks, |blocks|, size).failure.None?
    ensures blocks[k].Ok?
    ensures Times(k + 2, size) <= |lead + Emit(blocks, |blocks|, size).rows|
    ensures (lead + Emit(blocks, |blocks|, size).rows)[Times(k + 1, size) .. Times(k + 2, size)] == blocks[k].value
  {
    EmitBlockAt(blocks, |blocks|, size, k);
    SliceOfSuffix(lead, Emit(blocks, |blocks|, size).rows, Times(k, size), Times(k + 1, size));
  }

  /** Block k + 1 of a complete expansion is the k-th item result. */
  lemma ExpandResultAt(name: string, itemsLabel: Option<seq<string>>, items: seq<Item>, cols: seq<Column>, w: Wraps, k: nat)
    requires k < |items|
    requires Expand(name, itemsLabel, items, cols, w).failure.None?
    ensures ItemResults(name, items, cols, w)[k].Ok?
    ensures Times(k + 2, |cols| + 3) <= |Expand(name, itemsLabel, items, cols, w).rows|
    ensures Expand(name, itemsLabel, items, cols, w).rows[Times(k + 1, |cols| + 3) .. Times(k + 2, |cols| + 3)]
            == ItemResults(name, items, cols, w)[k].value
  {
    ExpandUnfold(name, itemsLabel, items, cols, w);
    BlockAfterLead(Header(name, itemsLabel, cols, w.header).value, ItemResults(name, items, cols, w), BlockSize(cols), k);
  }

  /**
   * In a complete expansion the header block comes first and block k + 1 is
   * the block of item k: nothing is reordered, dropped or shared between items.
   */
  lemma ExpandBlockAt(name: string, itemsLabel: Option<seq<string>>, items: seq<Item>, cols: seq<Column>, w: Wraps, k: nat)
    requires k < |items|
    requires Expand(name, itemsLabel, items, cols, w).failure.None?
    ensures RowsForItem(name, items[k], cols, w).Ok?
    ensures Times(k + 2, |cols| + 3) <= |Expand(name, itemsLabel, items, cols, w).rows|
    ensures Expand(name, itemsLabel, items, cols, w).rows[Times(k + 1, |cols| + 3) .. Times(k + 2, |cols| + 3)]
            == RowsForItem(name, items[k], cols, w).value
    ensures Times(k + 1, |cols| + 3) == (k + 1) * (|cols| + 3) && Times(k + 2, |cols| + 3) == (k + 2) * (|cols| + 3)
  {
    ExpandResultAt(name, itemsLabel, items, cols, w, k);
    TimesIsProduct(k + 1, |cols| + 3);
    TimesIsProduct(k + 2, |cols| + 3);
  }
}
