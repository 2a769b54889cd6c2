/**
 The ingredient table of the markdown export: printer, parser, and exactly when what is printed
 is read back unchanged.
 */
module IngredientTable {
  import opened Text
  import opened Wrappers

  datatype Ingredient = Ingredient(quantity: string, unit: string, item: string, optional: bool)

  datatype Widths = Widths(quantity: nat, unit: nat, item: nat)

  // ---------- printing ----------

  function WidthsOf(xs: seq<Ingredient>): Widths {
    if xs == [] then Widths(3, 4, 10)
    else
      var w := WidthsOf(xs[1..]);
      Widths(Max(w.quantity, |xs[0].quantity|), Max(w.unit, |xs[0].unit|), Max(w.item, |xs[0].item|))
  }

  function Pad(s: string, width: nat): string {
    s + Repeat(' ', if |s| < width then width - |s| else 0)
  }

  /** One line of the table: every cell between bars, with a space on each side. */
  function Line(cells: seq<string>): string {
    "|" + Cells(cells)
  }

  function Cells(cells: seq<string>): string {
    if cells == [] then "" else (" " + cells[0] + " ") + "|" + Cells(cells[1..])
  }

  predicate AnyOptional(xs: seq<Ingredient>) {
    exists x :: x in xs && x.optional
  }

  function PaddedHeadings(w: Widths, wide: bool): seq<string> {
    [Pad("Qty", w.quantity), Pad("Unit", w.unit), Pad("Ingredient", w.item)]
      + if wide then [Pad("Optional", 8)] else []
  }

  function Header(w: Widths, wide: bool): string {
    Line(PaddedHeadings(w, wide))
  }

  function Separator(w: Widths, wide: bool): string {
    Line([Repeat('-', w.quantity), Repeat('-', w.unit), Repeat('-', w.item)]
         + if wide then [Repeat('-', 8)] else [])
  }

  function PaddedCellsOf(x: Ingredient, w: Widths, wide: bool): seq<string> {
    [Pad(x.quantity, w.quantity), Pad(x.unit, w.unit), Pad(x.item, w.item)]
    + if wide then [Pad(if x.optional then "yes" else "", 8)] else []
  }

  function Row(x: Ingredient, w: Widths, wide: bool): string {
    Line(PaddedCellsOf(x, w, wide))
  }

  function Rows(xs: seq<Ingredient>, w: Widths, wide: bool): (rows: seq<string>)
    ensures |rows| == |xs|
  {
    if xs == [] then [] else [Row(xs[0], w, wide)] + Rows(xs[1..], w, wide)
  }

  function BuildTable(xs: seq<Ingredient>): string {
    if xs == [] then ""
    else
      var w, wide := WidthsOf(xs), AnyOptional(xs);
      Join([Header(w, wide), Separator(w, wide)] + Rows(xs, w, wide), '\n')
  }

  // ---------- parsing ----------

  /** `.map(trim).filter(Boolean)`. */
  function TrimmedNonEmpty(pieces: seq<string>): seq<string> {
    if pieces == [] then []
    else (if Trim(pieces[0]) == "" then [] else [Trim(pieces[0])]) + TrimmedNonEmpty(pieces[1..])
  }

  function Lines(text: string): seq<string> {
    TrimmedNonEmpty(Split(text, '\n'))
  }

  /** `\|\s*word\s*\|`, ignoring case: some piece between two bars is the word. */
  predicate HasCell(line: string, word: string) {
    var pieces := Split(line, '|');
    exists k :: 0 < k < |pieces| - 1 && SameWord(Trim(pieces[k]), word)
  }

  predicate RuleChar(c: char) {
    IsSpace(c) || c == '-' || c == '|'
  }

  predicate OnlyRules(s: string) {
    forall c :: c in s ==> RuleChar(c)
  }

  /** `^\|[\s-|]+\|$`. */
  predicate IsSeparator(line: string) {
    && |line| >= 3 && line[0] == '|' && line[|line| - 1] == '|'
    && OnlyRules(line)
  }

  predicate IsSkipped(line: string) {
    line == "" || line[0] != '|' || IsSeparator(line) || HasCell(line, "Qty")
  }

  predicate SaysYes(cell: string) {
    SameWord(cell, "yes") || SameWord(cell, "true") || SameWord(cell, "optional")
  }

  /** The ingredient a table row stands for; none when nothing is left of its cells. */
  function FromCells(cells: seq<string>, optionalColumn: bool): (found: seq<Ingredient>)
    ensures |found| <= 1
  {
    if |cells| >= 3 then
      [Ingredient(cells[0], cells[1], cells[2], optionalColumn && |cells| >= 4 && SaysYes(cells[3]))]
    else if |cells| == 2 then [Ingredient(cells[0], "", cells[1], false)]
    else if |cells| == 1 then [Ingredient("", "", cells[0], false)]
    else []
  }

  function FromLine(line: string, optionalColumn: bool): (found: seq<Ingredient>)
    ensures |found| <= 1
  {
    if IsSkipped(line) then [] else FromCells(TrimmedNonEmpty(Split(line, '|')), optionalColumn)
  }

  function FromLines(lines: seq<string>, optionalColumn: bool): (found: seq<Ingredient>)
    ensures |found| <= |lines|
  {
    if lines == [] then [] else FromLine(lines[0], optionalColumn) + FromLines(lines[1..], optionalColumn)
  }

  predicate HasOptionalColumn(lines: seq<string>) {
    exists line :: line in lines && HasCell(line, "Optional")
  }

  function ParseTable(text: string): seq<Ingredient> {
    FromLines(Lines(text), HasOptionalColumn(Lines(text)))
  }

  lemma {:induction false} FromLinesJoin(a: seq<string>, b: seq<string>, optionalColumn: bool)
    ensures FromLines(a + b, optionalColumn) == FromLines(a, optionalColumn) + FromLines(b, optionalColumn)
  {
    if a == [] {
      assert a + b == b;
    } else {
      assert (a + b)[0] == a[0] && (a + b)[1..] == a[1..] + b;
      FromLinesJoin(a[1..], b, optionalColumn);
    }
  }

  lemma FromLinesSnoc(lines: seq<string>, i: nat, optionalColumn: bool)
    requires i < |lines|
    ensures FromLines(lines[..i + 1], optionalColumn)
         == FromLines(lines[..i], optionalColumn) + FromLine(lines[i], optionalColumn)
  {
    var last := [lines[i]];
    assert last[1..] == [];
    assert lines[..i + 1] == lines[..i] + last;
    FromLinesJoin(lines[..i], last, optionalColumn);
  }

  /** The first loop of parseIngredientTable. */
  method DetectOptionalColumn(lines: seq<string>) returns (hasOptionalCol: bool)
    ensures hasOptionalCol == HasOptionalColumn(lines)
  {
    hasOptionalCol := false;
    for i := 0 to |lines|
      invariant !hasOptionalCol && forall k :: 0 <= k < i ==> !HasCell(lines[k], "Optional")
    {
      if HasCell(lines[i], "Optional") { return true; }
    }
  }

  method ParseIngredientTable(text: string) returns (ingredients: seq<Ingredient>)
    ensures ingredients == ParseTable(text)
  {
    var lines := Lines(text);
    ingredients := [];

    var hasOptionalCol := DetectOptionalColumn(lines);

    for i := 0 to |lines|
      invariant ingredients == FromLines(lines[..i], hasOptionalCol)
    {
      ghost var before := ingredients;
      var line := lines[i];
      assert before + [] == before;
      FromLinesSnoc(lines, i, hasOptionalCol);
      if line == "" || line[0] != '|' { continue; }
      if IsSeparator(line) { continue; }
      if HasCell(line, "Qty") { continue; }

      var cells := TrimmedNonEmpty(Split(line, '|'));
      if |cells| >= 3 {
        var optional := hasOptionalCol && |cells| >= 4 && SaysYes(cells[3]);
        ingredients := ingredients + [Ingredient(cells[0], cells[1], cells[2], optional)];
      } else if |cells| == 2 {
        ingredients := ingredients + [Ingredient(cells[0], "", cells[1], false)];
      } else if |cells| == 1 {
        ingredients := ingredients + [Ingredient("", "", cells[0], false)];
      }
    }
    assert lines[..|lines|] == lines;
  }

  // ---------- the round trip ----------

  /** What a cell of the format can hold at all. */
  predicate CleanCell(s: string) {
    Trimmed(s) && '|' !in s && '\n' !in s
  }

  predicate Clean(x: Ingredient) {
    CleanCell(x.quantity) && CleanCell(x.unit) && CleanCell(x.item)
  }

  predicate LooksLikeRule(x: Ingredient) {
    !x.optional && OnlyRules(x.quantity) && OnlyRules(x.unit) && OnlyRules(x.item)
  }

  predicate LooksLikeHeader(x: Ingredient) {
    SameWord(x.quantity, "Qty") || SameWord(x.unit, "Qty") || SameWord(x.item, "Qty")
  }

  /** The row can be told apart from the header and the rule, and its missing cells can be told. */
  predicate Readable(x: Ingredient) {
    && !LooksLikeRule(x) && !LooksLikeHeader(x)
    && x.item != ""
    && (x.quantity == "" ==> x.unit == "")
    && (x.optional ==> x.quantity != "" && x.unit != "")
  }

  lemma PadIsClean(s: string, width: nat)
    requires CleanCell(s)
    ensures '|' !in Pad(s, width) && '\n' !in Pad(s, width)
    ensures Trim(" " + Pad(s, width) + " ") == s
    ensures OnlyRules(Pad(s, width)) <==> OnlyRules(s)
  {
    var blanks := Repeat(' ', if |s| < width then width - |s| else 0);
    assert Blank(blanks + " ");
    assert " " + Pad(s, width) + " " == " " + s + (blanks + " ");
    TrimAround(" ", s, blanks + " ");
    forall c | c in s && OnlyRules(Pad(s, width)) ensures RuleChar(c) {
      assert c in Pad(s, width);
    }
  }

  /** The pieces between the bars of a printed line are the cells with a space on each side. */
  function Spaced(cells: seq<string>): (pieces: seq<string>)
    ensures |pieces| == |cells|
    ensures forall k :: 0 <= k < |cells| ==> pieces[k] == " " + cells[k] + " "
  {
    seq(|cells|, k requires 0 <= k < |cells| => " " + cells[k] + " ")
  }

  lemma {:induction false} CellsSplit(cells: seq<string>)
    requires forall s :: s in cells ==> '|' !in s
    ensures Split(Cells(cells), '|') == Spaced(cells) + [""]
  {
    if cells == [] {
      assert Spaced(cells) == [];
    } else {
      var s := " " + cells[0] + " ";
      assert '|' !in s;
      SplitAfter(s, Cells(cells[1..]), '|');
      assert s + ['|'] + Cells(cells[1..]) == Cells(cells);
      CellsSplit(cells[1..]);
      assert Spaced(cells) == [s] + Spaced(cells[1..]);
    }
  }

  lemma LineSplits(cells: seq<string>)
    requires forall s :: s in cells ==> '|' !in s
    ensures Split(Line(cells), '|') == [""] + Spaced(cells) + [""]
  {
    CellsSplit(cells);
    SplitAfter("", Cells(cells), '|');
    assert "" + ['|'] + Cells(cells) == Line(cells);
  }

  lemma OnlyRulesJoin(a: string, b: string)
    ensures OnlyRules(a + b) <==> OnlyRules(a) && OnlyRules(b)
  {
    forall c | c in a || c in b ensures c in a + b {}
  }

  lemma {:induction false} CellsChars(cells: seq<string>)
    ensures OnlyRules(Cells(cells)) <==> forall s :: s in cells ==> OnlyRules(s)
    ensures (forall s :: s in cells ==> '\n' !in s) ==> '\n' !in Cells(cells)
    ensures cells != [] ==> |Cells(cells)| >= 3 && Cells(cells)[|Cells(cells)| - 1] == '|'
  {
    if cells == [] {
      assert Cells(cells) == "";
    } else {
      CellsChars(cells[1..]);
      var rest := Cells(cells[1..]);
      assert Cells(cells) == (" " + cells[0]) + (" |" + rest);
      OnlyRulesJoin(" ", cells[0]);
      OnlyRulesJoin(" |", rest);
      OnlyRulesJoin(" " + cells[0], " |" + rest);
      assert cells == [cells[0]] + cells[1..];
    }
  }

  /** A printed line survives the splitting of the text into trimmed, nonempty lines. */
  lemma LineIsKept(cells: seq<string>)
    requires cells != [] && forall s :: s in cells ==> '\n' !in s
    ensures Line(cells) != "" && Trim(Line(cells)) == Line(cells) && '\n' !in Line(cells)
    ensures IsSeparator(Line(cells)) <==> forall s :: s in cells ==> OnlyRules(s)
  {
    CellsChars(cells);
    var line := Line(cells);
    assert line[0] == '|' && line[|line| - 1] == '|';
    TrimAround("", line, "");
    assert "" + line + "" == line;
    OnlyRulesJoin("|", Cells(cells));
  }

  // ---------- one row ----------

  predicate CleanCells(cells: seq<string>) {
    forall s :: s in cells ==> CleanCell(s)
  }

  /** Cells as they are printed: each padded to the width of its column. */
  predicate PaddedFrom(padded: seq<string>, cells: seq<string>) {
    && |padded| == |cells|
    && forall k :: 0 <= k < |cells| ==> padded[k] == Pad(cells[k], |padded[k]|)
  }

  function NonEmpty(cells: seq<string>): seq<string> {
    if cells == [] then [] else Kept(cells[0]) + NonEmpty(cells[1..])
  }

  function Kept(cell: string): seq<string> {
    if cell == "" then [] else [cell]
  }

  lemma PaddedIsClean(padded: seq<string>, cells: seq<string>)
    requires CleanCells(cells) && PaddedFrom(padded, cells)
    ensures forall k :: 0 <= k < |cells| ==>
      && '|' !in padded[k] && '\n' !in padded[k]
      && Trim(" " + padded[k] + " ") == cells[k]
      && (OnlyRules(padded[k]) <==> OnlyRules(cells[k]))
  {
    forall k | 0 <= k < |cells|
      ensures '|' !in padded[k] && '\n' !in padded[k]
      ensures Trim(" " + padded[k] + " ") == cells[k]
      ensures OnlyRules(padded[k]) <==> OnlyRules(cells[k])
    {
      assert cells[k] in cells;
      PadIsClean(cells[k], |padded[k]|);
    }
  }

  lemma {:induction false} TrimmedPieces(pieces: seq<string>, cells: seq<string>)
    requires |pieces| == |cells| + 1 && pieces[|cells|] == ""
    requires forall k :: 0 <= k < |cells| ==> Trim(pieces[k]) == cells[k]
    ensures TrimmedNonEmpty(pieces) == NonEmpty(cells)
  {
    if cells == [] {
      assert pieces == [""];
      assert TrimmedNonEmpty(pieces[1..]) == [];
    } else {
      TrimmedPieces(pieces[1..], cells[1..]);
    }
  }

  /** Piece k + 1 of a printed line, trimmed, is cell k. */
  lemma LinePieces(padded: seq<string>, cells: seq<string>)
    requires CleanCells(cells) && PaddedFrom(padded, cells)
    ensures var pieces := Split(Line(padded), '|');
      && |pieces| == |cells| + 2 && pieces[0] == "" && pieces[|cells| + 1] == ""
      && forall k :: 0 <= k < |cells| ==> Trim(pieces[k + 1]) == cells[k]
  {
    PaddedIsClean(padded, cells);
    LineSplits(padded);
    var pieces := Split(Line(padded), '|');
    forall k | 0 <= k < |cells| ensures Trim(pieces[k + 1]) == cells[k] {
      assert pieces[k + 1] == Spaced(padded)[k];
    }
  }

  lemma LineHasCells(padded: seq<string>, cells: seq<string>)
    requires CleanCells(cells) && PaddedFrom(padded, cells)
    ensures TrimmedNonEmpty(Split(Line(padded), '|')) == NonEmpty(cells)
  {
    LinePieces(padded, cells);
    var pieces := Split(Line(padded), '|');
    assert forall k :: 0 <= k < |cells| ==> pieces[1..][k] == pieces[k + 1];
    TrimmedPieces(pieces[1..], cells);
    assert Trim(pieces[0]) == "";
  }

  lemma LineHasWord(padded: seq<string>, cells: seq<string>, word: string)
    requires CleanCells(cells) && PaddedFrom(padded, cells)
    ensures HasCell(Line(padded), word) <==> exists k :: 0 <= k < |cells| && SameWord(cells[k], word)
  {
    LinePieces(padded, cells);
    var pieces := Split(Line(padded), '|');
    if k :| 0 <= k < |cells| && SameWord(cells[k], word) {
      assert SameWord(Trim(pieces[k + 1]), word);
    }
    if k :| 0 < k < |pieces| - 1 && SameWord(Trim(pieces[k]), word) {
      assert Trim(pieces[k - 1 + 1]) == cells[k - 1];
    }
  }

  lemma LineIsRule(padded: seq<string>, cells: seq<string>)
    requires cells != [] && CleanCells(cells) && PaddedFrom(padded, cells)
    ensures Line(padded) != "" && Trim(Line(padded)) == Line(padded) && '\n' !in Line(padded)
    ensures IsSeparator(Line(padded)) <==> forall k :: 0 <= k < |cells| ==> OnlyRules(cells[k])
  {
    PaddedIsClean(padded, cells);
    LineIsKept(padded);
    forall k | 0 <= k < |cells| ensures OnlyRules(padded[k]) <==> OnlyRules(cells[k]) {}
  }

  /** The cells of a row before padding. */
  function CellsOf(x: Ingredient, wide: bool): seq<string> {
    [x.quantity, x.unit, x.item] + if wide then [if x.optional then "yes" else ""] else []
  }

  lemma RowIsPadded(x: Ingredient, w: Widths, wide: bool)
    requires Clean(x)
    ensures PaddedFrom(PaddedCellsOf(x, w, wide), CellsOf(x, wide)) && CleanCells(CellsOf(x, wide))
  {
  }

  lemma CellsLeft(x: Ingredient, wide: bool)
    requires x.optional ==> wide
    ensures NonEmpty(CellsOf(x, wide))
         == Kept(x.quantity) + (Kept(x.unit) + (Kept(x.item) + if x.optional then ["yes"] else []))
  {
    var cells := CellsOf(x, wide);
    var none: seq<string> := [];
    assert cells[1..] == [x.unit, x.item] + cells[3..];
    assert cells[1..][1..] == [x.item] + cells[3..];
    assert cells[1..][1..][1..] == cells[3..];
    assert cells[3..] == if wide then [if x.optional then "yes" else ""] else none;
    if wide {
      assert cells[3..][1..] == none;
    }
    var last := if x.optional then ["yes"] else none;
    assert NonEmpty(cells[3..]) == last;
    assert NonEmpty(cells[1..][1..]) == Kept(x.item) + last;
    assert NonEmpty(cells[1..]) == Kept(x.unit) + (Kept(x.item) + last);
  }

  /** What is read from the cells left of a row. */
  lemma CellsAreRead(x: Ingredient, wide: bool, optionalColumn: bool)
    requires (x.optional ==> wide) && (wide ==> optionalColumn)
    ensures FromCells(NonEmpty(CellsOf(x, wide)), optionalColumn) == [x]
       <==> x.item != "" && (x.quantity == "" ==> x.unit == "") && (x.optional ==> x.quantity != "" && x.unit != "")
  {
    CellsLeft(x, wide);
    assert SaysYes("yes");
    var last := Kept(x.item) + if x.optional then ["yes"] else [];
    if x.quantity == "" {
      assert NonEmpty(CellsOf(x, wide)) == Kept(x.unit) + last;
      ShiftedCells(x, last, optionalColumn);
    } else if x.unit == "" {
      assert NonEmpty(CellsOf(x, wide)) == [x.quantity] + last;
    } else {
      assert NonEmpty(CellsOf(x, wide)) == [x.quantity, x.unit] + last;
    }
  }

  lemma ShiftedCells(x: Ingredient, last: seq<string>, optionalColumn: bool)
    requires x.quantity == "" && last == Kept(x.item) + if x.optional then ["yes"] else []
    ensures FromCells(Kept(x.unit) + last, optionalColumn) == [x] <==> x.item != "" && x.unit == "" && !x.optional
  {
  }

  /** A row is read back as the ingredient it was printed from exactly when it is readable. */
  lemma RowIsReadIff(x: Ingredient, w: Widths, wide: bool, optionalColumn: bool)
    requires Clean(x) && (x.optional ==> wide) && (wide ==> optionalColumn)
    ensures FromLine(Row(x, w, wide), optionalColumn) == [x] <==> Readable(x)
  {
    RowIsPadded(x, w, wide);
    var cells, padded := CellsOf(x, wide), PaddedCellsOf(x, w, wide);
    LineIsRule(padded, cells);
    LineHasCells(padded, cells);
    LineHasWord(padded, cells, "Qty");
    CellsAreRead(x, wide, optionalColumn);
    RuleCells(x, wide);
    HeaderCells(x, wide);
  }

  lemma RuleCells(x: Ingredient, wide: bool)
    requires x.optional ==> wide
    ensures (forall k :: 0 <= k < |CellsOf(x, wide)| ==> OnlyRules(CellsOf(x, wide)[k])) <==> LooksLikeRule(x)
  {
    var cells := CellsOf(x, wide);
    assert cells[0] == x.quantity && cells[1] == x.unit && cells[2] == x.item;
    if wide {
      assert cells[3] == if x.optional then "yes" else "";
      assert 'y' in "yes" && !RuleChar('y');
    }
  }

  lemma HeaderCells(x: Ingredient, wide: bool)
    ensures (exists k :: 0 <= k < |CellsOf(x, wide)| && SameWord(CellsOf(x, wide)[k], "Qty")) <==> LooksLikeHeader(x)
  {
    var cells := CellsOf(x, wide);
    assert cells[0] == x.quantity && cells[1] == x.unit && cells[2] == x.item;
    if wide {
      assert cells[3] == if x.optional then "yes" else "";
      assert Lower("yes"[0]) != Lower("Qty"[0]);
    }
  }

  // ---------- the whole table ----------

  function Headings(wide: bool): seq<string> {
    ["Qty", "Unit", "Ingredient"] + if wide then ["Optional"] else []
  }

  lemma HeadingsAreClean(w: Widths, wide: bool)
    ensures CleanCells(Headings(wide)) && PaddedFrom(PaddedHeadings(w, wide), Headings(wide))
  {
    assert CleanCell("Qty") && CleanCell("Unit") && CleanCell("Ingredient") && CleanCell("Optional");
  }

  lemma HeaderIsRead(w: Widths, wide: bool)
    ensures Header(w, wide) != "" && Trim(Header(w, wide)) == Header(w, wide) && '\n' !in Header(w, wide)
    ensures IsSkipped(Header(w, wide))
    ensures wide ==> HasCell(Header(w, wide), "Optional")
  {
    var cells := Headings(wide);
    var padded := PaddedHeadings(w, wide);
    HeadingsAreClean(w, wide);
    LineIsRule(padded, cells);
    LineHasWord(padded, cells, "Qty");
    LineHasWord(padded, cells, "Optional");
    assert SameWord(cells[0], "Qty");
    assert wide ==> SameWord(cells[3], "Optional");
  }

  lemma SeparatorIsRead(w: Widths, wide: bool)
    ensures var s := Separator(w, wide); s != "" && Trim(s) == s && '\n' !in s && IsSkipped(s)
  {
    LineIsKept([Repeat('-', w.quantity), Repeat('-', w.unit), Repeat('-', w.item)]
               + if wide then [Repeat('-', 8)] else []);
  }

  lemma {:induction false} RowsAreKept(xs: seq<Ingredient>, w: Widths, wide: bool)
    requires forall x :: x in xs ==> Clean(x)
    ensures forall row :: row in Rows(xs, w, wide) ==> row != "" && Trim(row) == row && '\n' !in row
  {
    if xs != [] {
      RowsAreKept(xs[1..], w, wide);
      RowIsPadded(xs[0], w, wide);
      LineIsRule(PaddedCellsOf(xs[0], w, wide), CellsOf(xs[0], wide));
    }
  }

  lemma {:induction false} KeptLines(lines: seq<string>)
    requires forall l :: l in lines ==> l != "" && Trim(l) == l
    ensures TrimmedNonEmpty(lines) == lines
  {
    if lines != [] {
      forall l | l in lines[1..] ensures l != "" && Trim(l) == l {
        assert l in lines;
      }
      KeptLines(lines[1..]);
      assert lines == [lines[0]] + lines[1..];
    }
  }

  /** Splitting the printed text into lines gives the lines it was printed from. */
  lemma TableLines(xs: seq<Ingredient>)
    requires xs != [] && forall x :: x in xs ==> Clean(x)
    ensures var w, wide := WidthsOf(xs), AnyOptional(xs);
      Lines(BuildTable(xs)) == [Header(w, wide), Separator(w, wide)] + Rows(xs, w, wide)
  {
    var w, wide := WidthsOf(xs), AnyOptional(xs);
    var lines := [Header(w, wide), Separator(w, wide)] + Rows(xs, w, wide);
    HeaderIsRead(w, wide);
    SeparatorIsRead(w, wide);
    RowsAreKept(xs, w, wide);
    SplitOfJoin(lines, '\n');
    KeptLines(lines);
  }

  /** Each row yields at most one ingredient, so the lists agree only if every row is readable. */
  lemma {:induction false} RowsAreReadIff(xs: seq<Ingredient>, w: Widths, wide: bool, optionalColumn: bool)
    requires forall x :: x in xs ==> Clean(x) && (x.optional ==> wide)
    requires wide ==> optionalColumn
    ensures FromLines(Rows(xs, w, wide), optionalColumn) == xs <==> forall x :: x in xs ==> Readable(x)
  {
    if xs == [] {
      assert Rows(xs, w, wide) == [];
    } else {
      var rows := Rows(xs, w, wide);
      var found, rest := FromLine(rows[0], optionalColumn), FromLines(rows[1..], optionalColumn);
      assert rows[1..] == Rows(xs[1..], w, wide);
      RowIsReadIff(xs[0], w, wide, optionalColumn);
      RowsAreReadIff(xs[1..], w, wide, optionalColumn);
      assert xs == [xs[0]] + xs[1..];
      FirstAndRest(found, rest, xs[0], xs[1..]);
      assert (forall x :: x in xs ==> Readable(x)) <==> Readable(xs[0]) && forall x :: x in xs[1..] ==> Readable(x);
    }
  }

  lemma FirstAndRest(found: seq<Ingredient>, rest: seq<Ingredient>, x: Ingredient, xs: seq<Ingredient>)
    requires |found| <= 1 && |rest| <= |xs|
    ensures found + rest == [x] + xs <==> found == [x] && rest == xs
  {
    if found + rest == [x] + xs {
      assert (found + rest)[0] == found[0] && (found + rest)[1..] == rest;
      assert ([x] + xs)[1..] == xs;
    }
  }

  lemma {:induction false} TrimmedNonEmptyIsClean(pieces: seq<string>)
    requires forall p :: p in pieces ==> '|' !in p && '\n' !in p
    ensures forall s :: s in TrimmedNonEmpty(pieces) ==> CleanCell(s)
  {
    if pieces != [] {
      TrimTrims(pieces[0]);
      TrimmedNonEmptyIsClean(pieces[1..]);
    }
  }

  lemma {:induction false} LinesAreFree(pieces: seq<string>)
    requires forall p :: p in pieces ==> '\n' !in p
    ensures forall s :: s in TrimmedNonEmpty(pieces) ==> '\n' !in s
  {
    if pieces != [] {
      TrimTrims(pieces[0]);
      LinesAreFree(pieces[1..]);
    }
  }

  lemma {:induction false} FromLinesIsClean(lines: seq<string>, optionalColumn: bool)
    requires forall line :: line in lines ==> '\n' !in line
    ensures forall x :: x in FromLines(lines, optionalColumn) ==> Clean(x)
  {
    if lines != [] {
      PiecesAreFree(lines[0], '|');
      TrimmedNonEmptyIsClean(Split(lines[0], '|'));
      FromLinesIsClean(lines[1..], optionalColumn);
    }
  }

  /** Whatever the text, the parser only produces cells the format can hold. */
  lemma ParsedIsClean(text: string)
    ensures forall x :: x in ParseTable(text) ==> Clean(x)
  {
    PiecesAreFree(text, '\n');
    LinesAreFree(Split(text, '\n'));
    FromLinesIsClean(Lines(text), HasOptionalColumn(Lines(text)));
  }

  lemma SkipTwo(a: string, b: string, rows: seq<string>, optionalColumn: bool)
    requires IsSkipped(a) && IsSkipped(b)
    ensures FromLines([a, b] + rows, optionalColumn) == FromLines(rows, optionalColumn)
  {
    var lines := [a, b] + rows;
    assert lines[1..] == [b] + rows;
    assert lines[1..][1..] == rows;
    assert FromLines(lines[1..], optionalColumn) == FromLine(b, optionalColumn) + FromLines(rows, optionalColumn);
  }

  /** Only the rows of a printed table yield ingredients, and an optional one has its column. */
  lemma TableRows(xs: seq<Ingredient>) returns (optionalColumn: bool)
    requires xs != [] && forall x :: x in xs ==> Clean(x)
    ensures ParseTable(BuildTable(xs)) == FromLines(Rows(xs, WidthsOf(xs), AnyOptional(xs)), optionalColumn)
    ensures AnyOptional(xs) ==> optionalColumn
  {
    var w, wide := WidthsOf(xs), AnyOptional(xs);
    TableLines(xs);
    HeaderIsRead(w, wide);
    SeparatorIsRead(w, wide);
    var lines := Lines(BuildTable(xs));
    optionalColumn := HasOptionalColumn(lines);
    assert lines[0] == Header(w, wide) && lines[0] in lines;
    SkipTwo(Header(w, wide), Separator(w, wide), Rows(xs, w, wide), optionalColumn);
  }

  /**
   The round trip, for every list of ingredients: printing and parsing gives the list back, with
   its order and its optional flags, exactly when every cell is one the format can hold and every
   row is readable.
   */
  lemma RoundTripIff(xs: seq<Ingredient>)
    ensures ParseTable(BuildTable(xs)) == xs <==> forall x :: x in xs ==> Clean(x) && Readable(x)
  {
    ParsedIsClean(BuildTable(xs));
    if xs == [] {
      assert Lines("") == [];
    } else if forall x :: x in xs ==> Clean(x) {
      var optionalColumn := TableRows(xs);
      RowsAreReadIff(xs, WidthsOf(xs), AnyOptional(xs), optionalColumn);
    }
  }
}
