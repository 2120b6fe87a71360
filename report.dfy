/** Rendering of the validation report as an aligned plain-text table.
    Colours are not modelled; each printed line is one string of the result. */
module Report {

  /** One named check result, as the validator's report lists it. */
  datatype ReportItem = ReportItem(name: string, tested: bool, pass: bool, message: string)

  const OpeningBanner := "==== Validation Report ===="
  const ClosingBanner := "==========================="
  const NameSuffix := ": "
  const PassToken := "PASS"
  const FailToken := "FAIL"
  const NotTestedToken := "NOT TESTED"
  /** Pads PASS and FAIL to the width of NOT TESTED. */
  const TokenPadding := "      "
  const Separator := " | "

  /** The longest name among the items, 0 when there are none. */
  function LongestNameLength(items: seq<ReportItem>): (r: nat)
    ensures forall i :: 0 <= i < |items| ==> |items[i].name| <= r
    ensures r == 0 || exists i :: 0 <= i < |items| && |items[i].name| == r
  {
    if items == [] then 0
    else
      var longest := LongestNameLength(items[..|items| - 1]);
      var last := |items[|items| - 1].name|;
      if last > longest then last else longest
  }

  /** Some item of the report was not tested. */
  predicate HasNotTestedItems(items: seq<ReportItem>)
    ensures HasNotTestedItems(items) ==> items != []
  {
    exists i :: 0 <= i < |items| && !items[i].tested
  }

  function Spaces(n: nat): (r: string)
    ensures |r| == n
    ensures forall k :: 0 <= k < n ==> r[k] == ' '
  {
    if n == 0 then "" else " " + Spaces(n - 1)
  }

  /** The name followed by ": ", left-padded with spaces up to `width`
      characters of name. */
  function PaddedName(name: string, width: nat): (r: string)
    ensures |r| == (if |name| < width then width else |name|) + 2
  {
    Spaces(if |name| < width then width - |name| else 0) + name + NameSuffix
  }

  /** The status column of one row. */
  function StatusToken(item: ReportItem, hasNotTestedItems: bool): (r: string)
    ensures |r| == if item.tested && !hasNotTestedItems then 4 else 10
  {
    var padding := if hasNotTestedItems then TokenPadding else "";
    if !item.tested then NotTestedToken
    else if item.pass then PassToken + padding
    else FailToken + padding
  }

  /** The width of every status token in a report. */
  function TokenWidth(hasNotTestedItems: bool): (r: nat)
  {
    if hasNotTestedItems then |NotTestedToken| else |PassToken|
  }

  /** One row of the table: the padded name, the status token, " | " and
      the message, which ends the row. */
  function Row(item: ReportItem, width: nat, hasNotTestedItems: bool): (r: string)
    ensures |r| == |PaddedName(item.name, width)| + |StatusToken(item, hasNotTestedItems)| + 3 + |item.message|
    ensures r[|r| - |item.message|..] == item.message
  {
    PaddedName(item.name, width) + StatusToken(item, hasNotTestedItems) + Separator + item.message
  }

  /** One row per item, in the items' own order. */
  function Rows(items: seq<ReportItem>, width: nat, hasNotTestedItems: bool): (r: seq<string>)
    ensures |r| == |items|
    ensures forall i :: 0 <= i < |items| ==> r[i] == Row(items[i], width, hasNotTestedItems)
  {
    if items == [] then []
    else
      Rows(items[..|items| - 1], width, hasNotTestedItems)
        + [Row(items[|items| - 1], width, hasNotTestedItems)]
  }

  /** The whole report: the opening banner, the rows, the closing banner. */
  function RenderedReport(items: seq<ReportItem>): (r: seq<string>)
    ensures |r| == |items| + 2
    ensures r[0] == OpeningBanner && r[|r| - 1] == ClosingBanner
    ensures forall i :: 0 <= i < |items| ==>
      r[i + 1] == Row(items[i], LongestNameLength(items), HasNotTestedItems(items))
  {
    [OpeningBanner] + Rows(items, LongestNameLength(items), HasNotTestedItems(items)) + [ClosingBanner]
  }

  /** A name padded to at least its own length is `width - |name|` spaces,
      the name, then ": ", so its ": " ends at offset `width + 2`. */
  lemma PaddedNameLayout(name: string, width: nat)
    requires |name| <= width
    ensures var r := PaddedName(name, width);
      && |r| == width + 2
      && (forall k :: 0 <= k < width - |name| ==> r[k] == ' ')
      && r[width - |name|..width] == name
      && r[width..] == NameSuffix
  {
    var r := PaddedName(name, width);
    var pad := Spaces(width - |name|);
    assert r == pad + name + NameSuffix;
    assert r[width - |name|..width] == (pad + name)[|pad|..];
  }

  /** Within one report every status token has the same width: that of
      NOT TESTED when some item is untested, that of PASS otherwise. */
  lemma {:induction false} TokenWidthUniform(items: seq<ReportItem>, i: nat)
    requires i < |items|
    ensures |StatusToken(items[i], HasNotTestedItems(items))| == TokenWidth(HasNotTestedItems(items))
    ensures TokenWidth(HasNotTestedItems(items)) == if HasNotTestedItems(items) then 10 else 4
  {
    if !items[i].tested {
      assert HasNotTestedItems(items);
    }
  }

  /** A status token tells whether the item was tested and, if it was,
      whether it passed. */
  lemma StatusTokenDistinguishes(a: ReportItem, b: ReportItem, hasNotTestedItems: bool)
    requires StatusToken(a, hasNotTestedItems) == StatusToken(b, hasNotTestedItems)
    ensures a.tested == b.tested
    ensures a.tested ==> a.pass == b.pass
  {
    assert StatusToken(a, hasNotTestedItems)[0] == if !a.tested then 'N' else if a.pass then 'P' else 'F';
    assert StatusToken(b, hasNotTestedItems)[0] == if !b.tested then 'N' else if b.pass then 'P' else 'F';
  }

  /** The column layout of a row: the name right-aligned so that it ends
      at offset `width`, ": " after it, the status token from `width + 2`,
      " | " after the token, and the message filling the rest. */
  ghost predicate HasColumns(row: string, item: ReportItem, width: nat, h: bool)
  {
    var tokenWidth := TokenWidth(h);
    && |item.name| <= width
    && |row| == width + 2 + tokenWidth + 3 + |item.message|
    && (forall k :: 0 <= k < width - |item.name| ==> row[k] == ' ')
    && row[width - |item.name|..width] == item.name
    && row[width..width + 2] == NameSuffix
    && row[width + 2..width + 2 + tokenWidth] == StatusToken(item, h)
    && row[width + 2 + tokenWidth..width + 5 + tokenWidth] == Separator
    && row[width + 5 + tokenWidth..] == item.message
  }

  /** A row whose name fits the name column and whose token has the
      report's token width is laid out in those columns. */
  lemma RowLayout(item: ReportItem, width: nat, h: bool)
    requires |item.name| <= width
    requires |StatusToken(item, h)| == TokenWidth(h)
    ensures HasColumns(Row(item, width, h), item, width, h)
  {
    var name := PaddedName(item.name, width);
    var token := StatusToken(item, h);
    PaddedNameLayout(item.name, width);
    var row := Row(item, width, h);
    assert row == name + (token + (Separator + item.message));
    assert row[..width + 2] == name;
    assert row[width + 2..] == token + (Separator + item.message);
  }

  /** Column alignment: every row of a report is laid out in the same
      columns, fixed by the longest name length and by whether some item is
      untested; the status token and the message can be read back from
      fixed offsets of the row. */
  lemma RowColumns(items: seq<ReportItem>, i: nat)
    requires i < |items|
    ensures HasColumns(RenderedReport(items)[i + 1], items[i],
      LongestNameLength(items), HasNotTestedItems(items))
  {
    var width := LongestNameLength(items);
    var h := HasNotTestedItems(items);
    TokenWidthUniform(items, i);
    RowLayout(items[i], width, h);
  }

  /** The first pass's flag after one more item: it stays set once set, and
      is set by any untested item. */
  lemma {:induction false} HasNotTestedItemsSnoc(items: seq<ReportItem>, item: ReportItem)
    ensures HasNotTestedItems(items + [item]) <==> HasNotTestedItems(items) || !item.tested
  {
    var all := items + [item];
    if HasNotTestedItems(items) {
      var i :| 0 <= i < |items| && !items[i].tested;
      assert !all[i].tested;
    }
    if !item.tested {
      assert !all[|items|].tested;
    }
    if HasNotTestedItems(all) {
      var i :| 0 <= i < |all| && !all[i].tested;
      if i < |items| {
        assert !items[i].tested;
      }
    }
  }

  /** The two-banner report for an empty item list. */
  lemma EmptyReport()
    ensures RenderedReport([]) == [OpeningBanner, ClosingBanner]
  {
  }

  /** The items of the three-item scenario below. */
  function ScenarioItems(): (r: seq<ReportItem>)
    ensures |r| == 3
  {
    [ ReportItem("Schema", true, true, "ok"),
      ReportItem("Model Size", true, false, "too large"),
      ReportItem("Textures", false, false, "") ]
  }

  /** "Model Size" is the longest name and "Textures" is untested. */
  lemma ScenarioScan()
    ensures LongestNameLength(ScenarioItems()) == 10
    ensures HasNotTestedItems(ScenarioItems())
  {
    var items := ScenarioItems();
    assert items[..2][..1] == items[..1];
    assert LongestNameLength(items[..1]) == 6;
    assert LongestNameLength(items[..2]) == 10;
    assert !items[2].tested;
  }

  /** The rows of the three-item scenario, at name width 10 with some item
      untested. */
  lemma ScenarioRowSchema()
    ensures Row(ScenarioItems()[0], 10, true) == "    Schema: PASS       | ok"
  {
    assert PaddedName("Schema", 10) == "    Schema: " by { assert Spaces(4) == "    "; }
  }

  lemma ScenarioRowModelSize()
    ensures Row(ScenarioItems()[1], 10, true) == "Model Size: FAIL       | too large"
  {
    assert PaddedName("Model Size", 10) == "Model Size: " by { assert Spaces(0) == ""; }
  }

  lemma ScenarioRowTextures()
    ensures Row(ScenarioItems()[2], 10, true) == "  Textures: NOT TESTED | "
  {
    assert PaddedName("Textures", 10) == "  Textures: " by { assert Spaces(2) == "  "; }
  }

  /** The three-item scenario: "Model Size" sets the name width, PASS and FAIL
      are padded to the width of NOT TESTED, and the rows keep the items'
      order between the banners. */
  lemma ThreeItemScenario()
    ensures var r := RenderedReport(ScenarioItems());
      && |r| == 5
      && r[0] == OpeningBanner
      && r[1] == "    Schema: PASS       | ok"
      && r[2] == "Model Size: FAIL       | too large"
      && r[3] == "  Textures: NOT TESTED | "
      && r[4] == ClosingBanner
  {
    ScenarioScan();
    ScenarioRowSchema();
    ScenarioRowModelSize();
    ScenarioRowTextures();
  }

  /** The first pass over the items: the longest name length and whether any
      item is untested. */
  method ScanItems(items: seq<ReportItem>) returns (longestNameLength: nat, hasNotTestedItems: bool)
    ensures longestNameLength == LongestNameLength(items)
    ensures hasNotTestedItems == HasNotTestedItems(items)
  {
    longestNameLength := 0;
    hasNotTestedItems := false;
    for i := 0 to |items|
      invariant longestNameLength == LongestNameLength(items[..i])
      invariant hasNotTestedItems == HasNotTestedItems(items[..i])
    {
      var item := items[i];
      assert items[..i + 1][..i] == items[..i];
      if |item.name| > longestNameLength {
        longestNameLength := |item.name|;
      }
      if !item.tested {
        hasNotTestedItems := true;
      }
      assert items[..i + 1] == items[..i] + [item];
      HasNotTestedItemsSnoc(items[..i], item);
    }
    assert items[..|items|] == items;
  }

  /** Pads a name by prepending one space at a time until the name column
      is `longestNameLength` wide. */
  method FormatName(name: string, longestNameLength: nat) returns (itemNameFormatted: string)
    ensures itemNameFormatted == PaddedName(name, longestNameLength)
  {
    itemNameFormatted := name + NameSuffix;
    var i := |name|;
    while i < longestNameLength
      invariant i == |name| || |name| < i <= longestNameLength
      invariant itemNameFormatted == Spaces(i - |name|) + name + NameSuffix
    {
      itemNameFormatted := " " + itemNameFormatted;
      i := i + 1;
    }
  }

  /** Both passes: scan the items, then emit the banners and one formatted
      row per item. */
  method RenderLines(items: seq<ReportItem>) returns (lines: seq<string>)
    ensures lines == RenderedReport(items)
  {
    var longestNameLength, hasNotTestedItems := ScanItems(items);
    lines := [OpeningBanner];
    for i := 0 to |items|
      invariant lines == [OpeningBanner] + Rows(items[..i], longestNameLength, hasNotTestedItems)
    {
      var item := items[i];
      var itemNameFormatted := FormatName(item.name, longestNameLength);
      var line := itemNameFormatted + StatusToken(item, hasNotTestedItems) + Separator + item.message;
      assert items[..i + 1][..i] == items[..i];
      lines := lines + [line];
    }
    assert items[..|items|] == items;
    lines := lines + [ClosingBanner];
  }
}
