/**
 * The expansion of a concrete matrix: group `m1`, items `car` and `bike`, a
 * required `select_one` column `q1` and a `text` column `q2`, default templates.
 */
module Scenario {
  import opened Rows
  import opened Labels
  import opened Builders
  import opened Expansion

  const Q1 := Column(Some("select_one"), Some("q1"), Some(["Q1"]), Some(true), Some("yn"))
  const Q2 := Column(Some("text"), Some("q2"), Some(["Q2"]), None, None)
  const Car := Item(Some("car"), Some(["Car"]))
  const Bike := Item(Some("bike"), Some(["Bike"]))
  const Defaults := Wraps(SpanWrap, HeaderWrap, RowHeaderWrap)

  /** Formatting a single label applies the template to it. */
  lemma FormatOne(l: string, t: Template)
    ensures FormatAllLabels([l], t) == [Apply(t, l)]
  {
    var f := FormatAllLabels([l], t);
    assert |f| == 1 && f[0] == Apply(t, l);
  }

  /** The header block of `m1`: the item label and each column label in bold. */
  lemma M1Header()
    ensures Header("m1", Some(["Items"]), [Q1, Q2], HeaderWrap).Ok?
    ensures Header("m1", Some(["Items"]), [Q1, Q2], HeaderWrap).value[1] == NoteRow("m1_header_note", ["**Items**"], "w1")
    ensures Header("m1", Some(["Items"]), [Q1, Q2], HeaderWrap).value[2] == NoteRow("m1_header_q1", ["**Q1**"], "w2")
  {
    HeaderLayout("m1", Some(["Items"]), [Q1, Q2], HeaderWrap);
    FormatOne("Items", HeaderWrap);
    FormatOne("Q1", HeaderWrap);
    assert Apply(HeaderWrap, "Items") == "**Items**" && Apply(HeaderWrap, "Q1") == "**Q1**";
    assert "m1" + "_header_note" == "m1_header_note" && "m1" + "_header_" + "q1" == "m1_header_q1";
  }

  /**
   * The block of `bike`: its group, its row-header note, a compact
   * `select_one` question that stays required and keeps its choice list, and a
   * `text` question that defaults to not required.
   */
  lemma BikeBlock()
    ensures RowsForItem("m1", Bike, [Q1, Q2], Defaults).Ok?
    ensures RowsForItem("m1", Bike, [Q1, Q2], Defaults).value[0] == GroupStart("m1_bike")
    ensures RowsForItem("m1", Bike, [Q1, Q2], Defaults).value[1] == NoteRow("m1_bike_note", ["##### Bike"], "w1")
    ensures RowsForItem("m1", Bike, [Q1, Q2], Defaults).value[2]
              == OutRow("select_one", Some("m1_bike_q1"), Some(["<span style=\"display:none\">bike-Q1</span>"]),
                        Some("w2 horizontal-compact"), Some(true), Some("yn"))
    ensures RowsForItem("m1", Bike, [Q1, Q2], Defaults).value[3]
              == OutRow("text", Some("m1_bike_q2"), Some(["<span style=\"display:none\">bike-Q2</span>"]),
                        Some("w2 no-label"), Some(false), None)
  {
    ItemBlockLayout("m1", Bike, [Q1, Q2], Defaults);
    var block := RowsForItem("m1", Bike, [Q1, Q2], Defaults).value;
    FormatOne("Bike", RowHeaderWrap);
    assert Apply(RowHeaderWrap, "Bike") == "##### Bike";
    assert "m1" + "_" + "bike" == "m1_bike" && "m1_bike" + "_note" == "m1_bike_note";
    assert [Q1, Q2][0] == Q1 && [Q1, Q2][1] == Q2;
    assert block[2] == Question("m1_bike", "bike", Q1, SpanWrap).value;
    assert block[3] == Question("m1_bike", "bike", Q2, SpanWrap).value;
    BikeQ1();
    BikeQ2();
  }

  /** The item-prefixed labels of the two columns, in the default hidden span. */
  lemma HiddenSpans()
    ensures Apply(SpanWrap, "bike" + "-" + "Q1") == "<span style=\"display:none\">bike-Q1</span>"
    ensures Apply(SpanWrap, "bike" + "-" + "Q2") == "<span style=\"display:none\">bike-Q2</span>"
  {
  }

  /** The `q1` question of the `bike` block. */
  lemma BikeQ1()
    ensures Question("m1_bike", "bike", Q1, SpanWrap)
              == Ok(OutRow("select_one", Some("m1_bike_q1"), Some(["<span style=\"display:none\">bike-Q1</span>"]),
                           Some("w2 horizontal-compact"), Some(true), Some("yn")))
  {
    BikeQuestion(Q1, "Q1", "q1");
    assert "m1_bike" + "_" + "q1" == "m1_bike_q1";
    HiddenSpans();
  }

  /** The `q2` question of the `bike` block. */
  lemma BikeQ2()
    ensures Question("m1_bike", "bike", Q2, SpanWrap)
              == Ok(OutRow("text", Some("m1_bike_q2"), Some(["<span style=\"display:none\">bike-Q2</span>"]),
                           Some("w2 no-label"), Some(false), None))
  {
    BikeQuestion(Q2, "Q2", "q2");
    assert "m1_bike" + "_" + "q2" == "m1_bike_q2";
    HiddenSpans();
    assert "text" != "select_one" && "text" != "select_multiple";
  }

  /** A question of the `bike` block with a single label. */
  lemma BikeQuestion(col: Column, l: string, colName: string)
    requires col.ty.Some? && col.name == Some(colName) && col.labels == Some([l])
    ensures Question("m1_bike", "bike", col, SpanWrap) ==
      Ok(OutRow(col.ty.value, Some("m1_bike" + "_" + colName), Some([Apply(SpanWrap, "bike" + "-" + l)]),
                Some(if col.ty.value == "select_one" || col.ty.value == "select_multiple"
                     then "w2 horizontal-compact" else "w2 no-label"),
                Some(if col.required.Some? then col.required.value else false), col.selectFromListName))
  {
    QuestionFields("m1_bike", "bike", col, SpanWrap);
    var q := Question("m1_bike", "bike", col, SpanWrap).value;
    assert q.labels.value == [q.labels.value[0]];
  }

  /** Two items over two columns give three blocks of five rows; block 2 is the block of `bike`. */
  lemma TwoItemMatrix()
    ensures Expand("m1", Some(["Items"]), [Car, Bike], [Q1, Q2], Defaults).failure.None?
    ensures |Expand("m1", Some(["Items"]), [Car, Bike], [Q1, Q2], Defaults).rows| == 15
    ensures Expand("m1", Some(["Items"]), [Car, Bike], [Q1, Q2], Defaults).rows[..5]
              == Header("m1", Some(["Items"]), [Q1, Q2], HeaderWrap).value
    ensures Expand("m1", Some(["Items"]), [Car, Bike], [Q1, Q2], Defaults).rows[10..15]
              == RowsForItem("m1", Bike, [Q1, Q2], Defaults).value
  {
    M1Header();
    BikeBlock();
    assert RowsForItem("m1", Car, [Q1, Q2], Defaults).Ok?;
    ExpandSize("m1", Some(["Items"]), [Car, Bike], [Q1, Q2], Defaults);
    ExpandHeaderFirst("m1", Some(["Items"]), [Car, Bike], [Q1, Q2], Defaults);
    ExpandBlockAt("m1", Some(["Items"]), [Car, Bike], [Q1, Q2], Defaults, 1);
    assert Times(2, 5) == 10 && Times(3, 5) == 15;
  }

  /**
   * Names are not guaranteed unique: an item named `header` opens a group
   * and a note named like those of the header block.
   */
  lemma ItemNamedHeaderCollides()
    ensures Header("m1", Some(["Items"]), [], HeaderWrap).Ok?
    ensures RowsForItem("m1", Item(Some("header"), Some(["H"])), [], Defaults).Ok?
    ensures RowsForItem("m1", Item(Some("header"), Some(["H"])), [], Defaults).value[0].name
            == Header("m1", Some(["Items"]), [], HeaderWrap).value[0].name
    ensures RowsForItem("m1", Item(Some("header"), Some(["H"])), [], Defaults).value[1].name
            == Header("m1", Some(["Items"]), [], HeaderWrap).value[1].name == Some("m1_header_note")
  {
    var item := Item(Some("header"), Some(["H"]));
    HeaderLayout("m1", Some(["Items"]), [], HeaderWrap);
    ItemBlockLayout("m1", item, [], Defaults);
    var h := Header("m1", Some(["Items"]), [], HeaderWrap).value;
    var b := RowsForItem("m1", item, [], Defaults).value;
    assert h[0].name == Some("m1" + "_header") && h[1].name == Some("m1" + "_header_note");
    assert b[0].name == Some("m1" + "_" + "header") && b[1].name == Some("m1" + "_" + "header" + "_note");
    assert "m1" + "_" + "header" == "m1" + "_header" == "m1_header";
    assert "m1" + "_" + "header" + "_note" == "m1" + "_header_note" == "m1_header_note";
  }
}
