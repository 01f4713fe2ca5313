/**
 * The test vectors of `tests/test_parse_dotted_table.py` and
 * `tests/test_parse_fixed_width_table.py`, as lemmas about the parsers'
 * specification functions (the parser methods are proved equal to them).
 */
module TestVectors {
  import opened Wrappers
  import opened Text
  import opened Utils

  // ---------------------------------------------------------------------
  // parse_dotted_table
  // ---------------------------------------------------------------------

  lemma MatchOne()
    ensures MatchDottedLine("one.... foo") == Some(DottedField("one", Some("foo")))
  {
    assert RenderDotted("one", 4, Some("foo")) == "one.... foo";
    ParseRenderedDotted("one", 4, Some("foo"));
  }

  lemma MatchTwo()
    ensures MatchDottedLine("two.... bar") == Some(DottedField("two", Some("bar")))
  {
    assert RenderDotted("two", 4, Some("bar")) == "two.... bar";
    ParseRenderedDotted("two", 4, Some("bar"));
  }

  /** Without ` value` after the dots the value group is `None`. */
  lemma MatchTwoBare()
    ensures MatchDottedLine("two....") == Some(DottedField("two", None))
  {
    assert RenderDotted("two", 4, None) == "two....";
    ParseRenderedDotted("two", 4, None);
  }

  /** Three dots are enough. */
  lemma MatchThree()
    ensures MatchDottedLine("three... baz") == Some(DottedField("three", Some("baz")))
  {
    assert RenderDotted("three", 3, Some("baz")) == "three... baz";
    ParseRenderedDotted("three", 3, Some("baz"));
  }

  /** One more matching line adds or overwrites its name. */
  lemma DottedSnoc(lines: seq<string>, line: string, f: DottedField)
    requires MatchDottedLine(line) == Some(f)
    ensures DottedTable(lines + [line]) == DottedTable(lines)[f.name := f.value]
  {
    assert (lines + [line])[..|lines|] == lines;
  }

  lemma DottedExample1()
    ensures DottedTable(["one.... foo", "two.... bar", "three... baz"])
         == map["one" := Some("foo"), "two" := Some("bar"), "three" := Some("baz")]
  {
    MatchOne(); MatchTwo(); MatchThree();
    DottedSnoc([], "one.... foo", DottedField("one", Some("foo")));
    DottedSnoc(["one.... foo"], "two.... bar", DottedField("two", Some("bar")));
    DottedSnoc(["one.... foo", "two.... bar"], "three... baz", DottedField("three", Some("baz")));
    assert [] + ["one.... foo"] == ["one.... foo"];
    assert ["one.... foo"] + ["two.... bar"] == ["one.... foo", "two.... bar"];
    assert ["one.... foo", "two.... bar"] + ["three... baz"] == ["one.... foo", "two.... bar", "three... baz"];
  }

  lemma DottedExample2()
    ensures DottedTable(["one.... foo", "two....", "three... baz"])
         == map["one" := Some("foo"), "two" := None, "three" := Some("baz")]
  {
    MatchOne(); MatchTwoBare(); MatchThree();
    DottedSnoc([], "one.... foo", DottedField("one", Some("foo")));
    DottedSnoc(["one.... foo"], "two....", DottedField("two", None));
    DottedSnoc(["one.... foo", "two...."], "three... baz", DottedField("three", Some("baz")));
    assert [] + ["one.... foo"] == ["one.... foo"];
    assert ["one.... foo"] + ["two...."] == ["one.... foo", "two...."];
    assert ["one.... foo", "two...."] + ["three... baz"] == ["one.... foo", "two....", "three... baz"];
  }

  // ---------------------------------------------------------------------
  // parse_fixed_width_table
  // ---------------------------------------------------------------------

  /** A cell is its slice with the whitespace padding removed. */
  lemma CellIs(line: string, spec: Span, before: string, word: string, after: string)
    requires Slice(line, spec.start, spec.end) == before + word + after
    requires AllSpace(before) && AllSpace(after)
    requires word != [] ==> !IsSpace(word[0]) && !IsSpace(word[|word| - 1])
    ensures Cell(line, spec) == word
  {
    StripPadded(before, word, after);
  }

  const ThreeColumns := [Span(0, 3), Span(4, 7), Span(8, 13)]

  lemma ThreeColumnSeparator()
    ensures DashRuns("--- --- -----") == ThreeColumns
  {
    var s := "--- --- -----";
    assert RunEnd(s, 8) == 13;
    assert RunsFrom(s, 8) == [Span(8, 13)];
    assert RunEnd(s, 4) == 7;
    assert RunsFrom(s, 4) == [Span(4, 7), Span(8, 13)];
    assert RunEnd(s, 0) == 3;
  }

  lemma OneTwoThreeCells()
    ensures Cells("one two three", ThreeColumns) == ["one", "two", "three"]
  {
    OneTwoThreeCell0(); OneTwoThreeCell1(); OneTwoThreeCell2();
  }

  lemma OneTwoThreeCell0()
    ensures Cell("one two three", Span(0, 3)) == "one"
  {
    var line := "one two three";
    assert Slice(line, 0, 3) == line[0..3] == "" + "one" + "";
    CellIs(line, Span(0, 3), "", "one", "");
  }

  lemma OneTwoThreeCell1()
    ensures Cell("one two three", Span(4, 7)) == "two"
  {
    var line := "one two three";
    assert Slice(line, 4, 7) == line[4..7] == "" + "two" + "";
    CellIs(line, Span(4, 7), "", "two", "");
  }

  lemma OneTwoThreeCell2()
    ensures Cell("one two three", Span(8, 13)) == "three"
  {
    var line := "one two three";
    assert Slice(line, 8, 13) == line[8..13] == "" + "three" + "";
    CellIs(line, Span(8, 13), "", "three", "");
  }

  /** A one-line header block: each label is that line's cell, when it is already stripped and lower-case. */
  lemma SingleLineLabel(block: seq<string>, spec: Span, word: string)
    requires |block| == 1 && Cell(block[0], spec) == word
    requires word != [] && !IsSpace(word[0]) && !IsSpace(word[|word| - 1])
    requires forall k :: 0 <= k < |word| ==> !('A' <= word[k] <= 'Z')
    ensures HeaderLabel(block, spec) == word
  {
    assert ColumnFragments(block, spec) == [word];
    assert "" + word + "" == word;
    StripPadded("", word, "");
    LowerNoCapitals(word);
  }

  lemma ThreeLabels()
    ensures Labels(["one two three"], ThreeColumns) == ["one", "two", "three"]
  {
    var block := ["one two three"];
    OneTwoThreeCell0();
    OneTwoThreeCell1();
    OneTwoThreeCell2();
    SingleLineLabel(block, ThreeColumns[0], "one");
    SingleLineLabel(block, ThreeColumns[1], "two");
    SingleLineLabel(block, ThreeColumns[2], "three");
  }

  lemma FooBarBazCells()
    ensures Cells("foo bar baz", ThreeColumns) == ["foo", "bar", "baz"]
  {
    FooBarBazCell0(); FooBarBazCell1(); FooBarBazCell2();
  }

  lemma FooBarBazCell0()
    ensures Cell("foo bar baz", Span(0, 3)) == "foo"
  {
    var line := "foo bar baz";
    assert Slice(line, 0, 3) == line[0..3] == "" + "foo" + "";
    CellIs(line, Span(0, 3), "", "foo", "");
  }

  lemma FooBarBazCell1()
    ensures Cell("foo bar baz", Span(4, 7)) == "bar"
  {
    var line := "foo bar baz";
    assert Slice(line, 4, 7) == line[4..7] == "" + "bar" + "";
    CellIs(line, Span(4, 7), "", "bar", "");
  }

  lemma FooBarBazCell2()
    ensures Cell("foo bar baz", Span(8, 13)) == "baz"
  {
    var line := "foo bar baz";
    assert Slice(line, 8, 13) == line[8..11] == "" + "baz" + "";
    CellIs(line, Span(8, 13), "", "baz", "");
  }

  /** A short data line: the middle column lies in the gap, so its cell is `""`. */
  lemma FooGapBazCells()
    ensures Cells("foo     baz", ThreeColumns) == ["foo", "", "baz"]
  {
    FooGapBazCell0(); FooGapBazCell1(); FooGapBazCell2();
  }

  lemma FooGapBazCell0()
    ensures Cell("foo     baz", Span(0, 3)) == "foo"
  {
    var line := "foo     baz";
    assert Slice(line, 0, 3) == line[0..3] == "" + "foo" + "";
    CellIs(line, Span(0, 3), "", "foo", "");
  }

  lemma FooGapBazCell1()
    ensures Cell("foo     baz", Span(4, 7)) == ""
  {
    var line := "foo     baz";
    assert Slice(line, 4, 7) == line[4..7] == "   " + "" + "";
    CellIs(line, Span(4, 7), "   ", "", "");
  }

  lemma FooGapBazCell2()
    ensures Cell("foo     baz", Span(8, 13)) == "baz"
  {
    var line := "foo     baz";
    assert Slice(line, 8, 13) == line[8..11] == "" + "baz" + "";
    CellIs(line, Span(8, 13), "", "baz", "");
  }

  lemma ThreeColumnRow(a: string, b: string, c: string)
    ensures Row(["one", "two", "three"], [a, b, c]) == map["one" := a, "two" := b, "three" := c]
  {
    assert ["one", "two", "three"][..2] == ["one", "two"] && ["one", "two"][..1] == ["one"];
    assert [a, b, c][..2] == [a, b] && [a, b][..1] == [a];
    assert Row(["one"], [a]) == map["one" := a];
    assert Row(["one", "two"], [a, b]) == map["one" := a, "two" := b];
  }

  /**
   * A table whose separator is its last line but one has exactly one row: the
   * data line's cells under the labels of the header block.
   */
  lemma OneRowTable(lines: seq<string>, top: nat, block: seq<string>, sep: string, data: string,
                    labels: seq<string>, row: map<string, string>)
    requires 2 <= |lines| && Separator(lines) == Some(|lines| - 2) && HeaderStart(lines, |lines| - 2) == top
    requires lines[top..|lines| - 2] == block && lines[|lines| - 2] == sep && lines[|lines| - 1] == data
    requires Labels(block, DashRuns(sep)) == labels
    requires Row(labels, Cells(data, DashRuns(sep))) == row
    ensures Table(lines) == [row]
  {
    var mark := |lines| - 2;
    TableIsRowsOf(lines, mark);
    assert lines[mark + 1..] == [data];
    var rows := RowsOf([data], labels, DashRuns(sep));
    assert rows == [row] by {
      assert |rows| == 1 && rows[0] == row;
    }
  }

  lemma TableIsRowsOf(lines: seq<string>, mark: nat)
    requires Separator(lines) == Some(mark)
    ensures Table(lines) == RowsOf(lines[mark + 1..], Labels(lines[HeaderStart(lines, mark)..mark], DashRuns(lines[mark])),
                                   DashRuns(lines[mark]))
  {
  }

  lemma NonBlank(line: string)
    requires line != [] && !IsSpace(line[0])
    ensures Strip(line) != ""
  {
    StripEmptyIff(line);
  }

  lemma FixedExample1()
    ensures Table(["one two three", "--- --- -----", "foo bar baz"])
         == [map["one" := "foo", "two" := "bar", "three" := "baz"]]
  {
    var lines := ["one two three", "--- --- -----", "foo bar baz"];
    assert Separator(lines) == Some(1);
    NonBlank("one two three");
    assert HeaderStart(lines, 1) == 0;
    ThreeColumnSeparator();
    assert lines[0..1] == ["one two three"];
    ThreeLabels();
    FooBarBazCells();
    ThreeColumnRow("foo", "bar", "baz");
    OneRowTable(lines, 0, ["one two three"], "--- --- -----", "foo bar baz",
                ["one", "two", "three"], map["one" := "foo", "two" := "bar", "three" := "baz"]);
  }

  lemma FixedExample2()
    ensures Table(["one two three", "--- --- -----", "foo     baz"])
         == [map["one" := "foo", "two" := "", "three" := "baz"]]
  {
    var lines := ["one two three", "--- --- -----", "foo     baz"];
    assert Separator(lines) == Some(1);
    NonBlank("one two three");
    assert HeaderStart(lines, 1) == 0;
    ThreeColumnSeparator();
    assert lines[0..1] == ["one two three"];
    ThreeLabels();
    FooGapBazCells();
    ThreeColumnRow("foo", "", "baz");
    OneRowTable(lines, 0, ["one two three"], "--- --- -----", "foo     baz",
                ["one", "two", "three"], map["one" := "foo", "two" := "", "three" := "baz"]);
  }

  /** Text above the blank line that ends the header block is not part of any label. */
  lemma FixedExample3()
    ensures Table(["junk text", "", "nothing to see here", "", "one two three", "--- --- -----", "foo bar baz"])
         == [map["one" := "foo", "two" := "bar", "three" := "baz"]]
  {
    var lines := ["junk text", "", "nothing to see here", "", "one two three", "--- --- -----", "foo bar baz"];
    assert !StartsWithDash(lines[0]) && !StartsWithDash(lines[1]) && !StartsWithDash(lines[2]);
    assert !StartsWithDash(lines[3]) && !StartsWithDash(lines[4]) && StartsWithDash(lines[5]);
    assert Separator(lines) == Some(5);
    assert Strip(lines[3]) == "";
    NonBlank("one two three");
    assert HeaderStart(lines, 5) == 4;
    ThreeColumnSeparator();
    assert lines[4..5] == ["one two three"];
    ThreeLabels();
    FooBarBazCells();
    ThreeColumnRow("foo", "bar", "baz");
    OneRowTable(lines, 4, ["one two three"], "--- --- -----", "foo bar baz",
                ["one", "two", "three"], map["one" := "foo", "two" := "bar", "three" := "baz"]);
  }

  const WideColumns := [Span(0, 6), Span(7, 18), Span(19, 24)]

  /** A non-dash is skipped. */
  lemma RunsFromSkip(s: string, i: nat)
    requires i < |s| && s[i] != '-'
    ensures RunsFrom(s, i) == RunsFrom(s, i + 1)
  {
  }

  /** A run of dashes from `i` to `j` is the next span. */
  lemma RunsFromRun(s: string, i: nat, j: nat)
    requires i < j <= |s| && s[i..j] == seq(j - i, k => '-')
    requires j < |s| ==> s[j] != '-'
    ensures RunsFrom(s, i) == [Span(i, j)] + RunsFrom(s, j)
  {
    forall k | i <= k < j
      ensures s[k] == '-'
    {
      assert s[k] == s[i..j][k - i];
    }
    RunEndAt(s, i, j);
  }

  lemma WideColumnSeparator()
    ensures DashRuns("------ ----------- -----") == WideColumns
  {
    WideRuns("------ ----------- -----");
  }

  /** The separator's runs, one at a time from the right. */
  lemma WideRuns(s: string)
    requires s == "------ ----------- -----"
    ensures DashRuns(s) == WideColumns
  {
    assert s[19..24] == seq(5, k => '-');
    RunsFromRun(s, 19, 24);
    assert RunsFrom(s, 24) == [];
    RunsFromSkip(s, 18);
    assert s[7..18] == seq(11, k => '-');
    RunsFromRun(s, 7, 18);
    RunsFromSkip(s, 6);
    assert s[0..6] == seq(6, k => '-');
    RunsFromRun(s, 0, 6);
  }

  /** The header block `long` / `column long column` / `one two three`, line by line. */
  lemma WideHeader0Cells()
    ensures Cells("long                    ", WideColumns) == ["long", "", ""]
  {
    WideHeader0Cell0(); WideHeader0Cell1(); WideHeader0Cell2();
  }

  lemma WideHeader0Cell0()
    ensures Cell("long                    ", Span(0, 6)) == "long"
  {
    var line := "long                    ";
    assert Slice(line, 0, 6) == line[0..6] == "" + "long" + "  ";
    CellIs(line, Span(0, 6), "", "long", "  ");
  }

  lemma WideHeader0Cell1()
    ensures Cell("long                    ", Span(7, 18)) == ""
  {
    var line := "long                    ";
    assert Slice(line, 7, 18) == line[7..18] == "           " + "" + "";
    CellIs(line, Span(7, 18), "           ", "", "");
  }

  lemma WideHeader0Cell2()
    ensures Cell("long                    ", Span(19, 24)) == ""
  {
    var line := "long                    ";
    assert Slice(line, 19, 24) == line[19..24] == "     " + "" + "";
    CellIs(line, Span(19, 24), "     ", "", "");
  }

  lemma WideHeader1Cells()
    ensures Cells("column long column      ", WideColumns) == ["column", "long column", ""]
  {
    WideHeader1Cell0(); WideHeader1Cell1(); WideHeader1Cell2();
  }

  lemma WideHeader1Cell0()
    ensures Cell("column long column      ", Span(0, 6)) == "column"
  {
    var line := "column long column      ";
    assert Slice(line, 0, 6) == line[0..6] == "" + "column" + "";
    CellIs(line, Span(0, 6), "", "column", "");
  }

  lemma WideHeader1Cell1()
    ensures Cell("column long column      ", Span(7, 18)) == "long column"
  {
    var line := "column long column      ";
    assert Slice(line, 7, 18) == line[7..18] == "" + "long column" + "";
    CellIs(line, Span(7, 18), "", "long column", "");
  }

  lemma WideHeader1Cell2()
    ensures Cell("column long column      ", Span(19, 24)) == ""
  {
    var line := "column long column      ";
    assert Slice(line, 19, 24) == line[19..24] == "     " + "" + "";
    CellIs(line, Span(19, 24), "     ", "", "");
  }

  lemma WideHeader2Cells()
    ensures Cells("one    two         three", WideColumns) == ["one", "two", "three"]
  {
    WideHeader2Cell0(); WideHeader2Cell1(); WideHeader2Cell2();
  }

  lemma WideHeader2Cell0()
    ensures Cell("one    two         three", Span(0, 6)) == "one"
  {
    var line := "one    two         three";
    assert Slice(line, 0, 6) == line[0..6] == "" + "one" + "   ";
    CellIs(line, Span(0, 6), "", "one", "   ");
  }

  lemma WideHeader2Cell1()
    ensures Cell("one    two         three", Span(7, 18)) == "two"
  {
    var line := "one    two         three";
    assert Slice(line, 7, 18) == line[7..18] == "" + "two" + "        ";
    CellIs(line, Span(7, 18), "", "two", "        ");
  }

  lemma WideHeader2Cell2()
    ensures Cell("one    two         three", Span(19, 24)) == "three"
  {
    var line := "one    two         three";
    assert Slice(line, 19, 24) == line[19..24] == "" + "three" + "";
    CellIs(line, Span(19, 24), "", "three", "");
  }

  lemma WideDataCells()
    ensures Cells("foo    bar         baz", WideColumns) == ["foo", "bar", "baz"]
  {
    WideDataCell0(); WideDataCell1(); WideDataCell2();
  }

  lemma WideDataCell0()
    ensures Cell("foo    bar         baz", Span(0, 6)) == "foo"
  {
    var line := "foo    bar         baz";
    assert Slice(line, 0, 6) == line[0..6] == "" + "foo" + "   ";
    CellIs(line, Span(0, 6), "", "foo", "   ");
  }

  lemma WideDataCell1()
    ensures Cell("foo    bar         baz", Span(7, 18)) == "bar"
  {
    var line := "foo    bar         baz";
    assert Slice(line, 7, 18) == line[7..18] == "" + "bar" + "        ";
    CellIs(line, Span(7, 18), "", "bar", "        ");
  }

  lemma WideDataCell2()
    ensures Cell("foo    bar         baz", Span(19, 24)) == "baz"
  {
    var line := "foo    bar         baz";
    assert Slice(line, 19, 24) == line[19..22] == "" + "baz" + "";
    CellIs(line, Span(19, 24), "", "baz", "");
  }

  /** The fragments of each column, top to bottom. */
  lemma WideFragments(block: seq<string>)
    requires block == ["long                    ", "column long column      ", "one    two         three"]
    ensures ColumnFragments(block, WideColumns[0]) == ["long", "column", "one"]
    ensures ColumnFragments(block, WideColumns[1]) == ["", "long column", "two"]
    ensures ColumnFragments(block, WideColumns[2]) == ["", "", "three"]
  {
    WideHeader0Cells();
    WideHeader1Cells();
    WideHeader2Cells();
    forall t, c | 0 <= t < 3 && 0 <= c < 3
      ensures ColumnFragments(block, WideColumns[c])[t] == Cells(block[t], WideColumns)[c]
    {
    }
  }

  /** A label is the stripped, lower-cased join of its column's fragments. */
  lemma HeaderLabelIs(block: seq<string>, spec: Span, before: string, word: string)
    requires JoinWords(ColumnFragments(block, spec)) == before + word + ""
    requires AllSpace(before) && word != [] && !IsSpace(word[0]) && !IsSpace(word[|word| - 1])
    requires forall k :: 0 <= k < |word| ==> !('A' <= word[k] <= 'Z')
    ensures HeaderLabel(block, spec) == word
  {
    StripPadded(before, word, "");
    LowerNoCapitals(word);
  }

  lemma JoinThree(a: string, b: string, c: string)
    ensures JoinWords([a, b, c]) == a + " " + b + " " + c
  {
    assert [a, b, c][1..] == [b, c] && [b, c][1..] == [c];
    assert JoinWords([b, c]) == b + " " + c;
  }

  /** Fragments join top to bottom with single spaces, then the label is stripped. */
  lemma WideLabels(block: seq<string>)
    requires block == ["long                    ", "column long column      ", "one    two         three"]
    ensures Labels(block, WideColumns) == ["long column one", "long column two", "three"]
  {
    WideFragments(block);
    WideLabel0(block);
    WideLabel1(block);
    WideLabel2(block);
  }

  lemma WideLabel0(block: seq<string>)
    requires ColumnFragments(block, WideColumns[0]) == ["long", "column", "one"]
    ensures HeaderLabel(block, WideColumns[0]) == "long column one"
  {
    JoinThree("long", "column", "one");
    assert "long" + " " + "column" + " " + "one" == "" + "long column one" + "";
    HeaderLabelIs(block, WideColumns[0], "", "long column one");
  }

  lemma WideLabel1(block: seq<string>)
    requires ColumnFragments(block, WideColumns[1]) == ["", "long column", "two"]
    ensures HeaderLabel(block, WideColumns[1]) == "long column two"
  {
    JoinThree("", "long column", "two");
    assert "" + " " + "long column" + " " + "two" == " " + "long column two" + "";
    HeaderLabelIs(block, WideColumns[1], " ", "long column two");
  }

  lemma WideLabel2(block: seq<string>)
    requires ColumnFragments(block, WideColumns[2]) == ["", "", "three"]
    ensures HeaderLabel(block, WideColumns[2]) == "three"
  {
    JoinThree("", "", "three");
    assert "" + " " + "" + " " + "three" == "  " + "three" + "";
    HeaderLabelIs(block, WideColumns[2], "  ", "three");
  }

  lemma WideRow(a: string, b: string, c: string)
    ensures Row(["long column one", "long column two", "three"], [a, b, c])
         == map["long column one" := a, "long column two" := b, "three" := c]
  {
    var labels := ["long column one", "long column two", "three"];
    assert labels[..2] == ["long column one", "long column two"] && labels[..2][..1] == ["long column one"];
    assert [a, b, c][..2] == [a, b] && [a, b][..1] == [a];
    assert Row(["long column one"], [a]) == map["long column one" := a];
    assert Row(labels[..2], [a, b]) == map["long column one" := a, "long column two" := b];
  }

  /** Headers spread over three lines fold into multi-word labels. */
  lemma FixedExample4()
    ensures Table(["long                    ", "column long column      ", "one    two         three",
                   "------ ----------- -----", "foo    bar         baz"])
         == [map["long column one" := "foo", "long column two" := "bar", "three" := "baz"]]
  {
    var lines := ["long                    ", "column long column      ", "one    two         three",
                  "------ ----------- -----", "foo    bar         baz"];
    assert !StartsWithDash(lines[0]) && !StartsWithDash(lines[1]) && !StartsWithDash(lines[2]);
    assert StartsWithDash(lines[3]);
    assert Separator(lines) == Some(3);
    NonBlank("long                    ");
    NonBlank("column long column      ");
    NonBlank("one    two         three");
    assert HeaderStart(lines, 1) == 0;
    assert HeaderStart(lines, 2) == 0;
    assert HeaderStart(lines, 3) == 0;
    WideColumnSeparator();
    var block := lines[0..3];
    assert block == ["long                    ", "column long column      ", "one    two         three"];
    WideLabels(block);
    WideDataCells();
    WideRow("foo", "bar", "baz");
    OneRowTable(lines, 0, block, "------ ----------- -----", "foo    bar         baz",
                ["long column one", "long column two", "three"],
                map["long column one" := "foo", "long column two" := "bar", "three" := "baz"]);
  }
}
