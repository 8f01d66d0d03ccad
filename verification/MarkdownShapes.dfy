/**
 Which block a line starts and where the block ends, stated on the patterns of
 the lines alone.
 */
module MarkdownShapes {

  import opened Options
  import opened Sequences
  import opened JsText
  import opened MarkdownLines
  import opened Markdown

  // ----- lines by their patterns -----

  /** White space and three backticks. */
  ghost predicate FenceLine(line: string) {
    exists indent, rest :: FenceApart(line, indent, rest)
  }

  ghost predicate FenceApart(line: string, indent: string, rest: string) {
    AllSpaces(indent) && line == indent + ("```" + rest)
  }

  ghost predicate ItemLine(ordered: bool, line: string) {
    exists indent, marker, gap, text :: ItemApart(line, indent, marker, gap, text) && IsMarker(ordered, marker)
  }

  ghost predicate HeadingLine(line: string) {
    exists hashes, gap, text :: HeadingApart(line, hashes, gap, text)
  }

  /** Three dashes or more between white space. */
  ghost predicate RuleLine(line: string) {
    exists indent, dashes, tail :: RuleApart(line, indent, dashes, tail)
  }

  ghost predicate RuleApart(line: string, indent: string, dashes: string, tail: string) {
    AllSpaces(indent) && AllSpaces(tail) && AllDashes(dashes) && line == indent + (dashes + tail)
  }

  /** White space, one to four hashes and white space: enough to end a paragraph, though not to be a heading. */
  ghost predicate HashLine(line: string) {
    exists indent, hashes, rest :: HashApart(line, indent, hashes, rest)
  }

  ghost predicate HashApart(line: string, indent: string, hashes: string, rest: string) {
    && AllSpaces(indent) && 1 <= |hashes| <= 4 && AllHashes(hashes) && rest != "" && IsSpace(rest[0])
    && line == indent + (hashes + rest)
  }

  /** Three dashes or more, with a colon at either end or not. */
  ghost predicate SeparatorCell(cell: string) {
    exists left, dashes: nat, right :: dashes >= 3 && cell == DashCell(left, dashes, right)
  }

  /** A line with a pipe above a line of cells of dashes. */
  ghost predicate TableLines(lines: seq<string>, k: nat) {
    && k + 1 < |lines| && '|' in lines[k] && '|' in lines[k + 1]
    && (forall cell :: cell in Cells(lines[k + 1]) ==> SeparatorCell(cell))
  }

  lemma BlankIs(line: string)
    ensures IsBlank(line) <==> AllSpaces(line)
  {
    TrimTrims(line);
    hide Trim;
    hide IsSpace;
  }

  lemma FenceIs(line: string)
    ensures IsFence(line) <==> FenceLine(line)
  {
    hide TrimStart;
    var s := TrimStart(line);
    TrimStartIndent(line);
    if IsFence(line) {
      assert s == "```" + s[3..];
      assert FenceApart(line, line[..|line| - |s|], s[3..]);
    }
    if FenceLine(line) {
      var indent, rest :| FenceApart(line, indent, rest);
      assert ("```" + rest)[0] == '`';
      TrimStartSplits(indent, "```" + rest);
    }
  }

  lemma ItemIs(ordered: bool, line: string)
    ensures IsItem(ordered, line) <==> ItemLine(ordered, line)
  {
    hide IsItem;
    hide ItemApart;
    hide IsMarker;
    if IsItem(ordered, line) {
      var indent, marker, gap := ItemComesApart(ordered, line);
    }
    if ItemLine(ordered, line) {
      var indent, marker, gap, text :| ItemApart(line, indent, marker, gap, text) && IsMarker(ordered, marker);
      ItemReads(ordered, line, indent, marker, gap, text);
    }
  }

  lemma HeadingIs(line: string)
    ensures HeadingOf(line).Some? <==> HeadingLine(line)
  {
    hide HeadingOf;
    hide HeadingApart;
    if HeadingOf(line).Some? {
      var hashes, gap := HeadingComesApart(line);
    }
    if HeadingLine(line) {
      var hashes, gap, text :| HeadingApart(line, hashes, gap, text);
      HeadingReads(line, hashes, gap, text);
    }
  }

  lemma {:induction false} TrimEndSplits(s: string, tail: string)
    requires AllSpaces(tail) && (s != "" ==> !IsSpace(s[|s| - 1]))
    ensures TrimEnd(s + tail) == s
  {
    hide IsSpace;
    if tail == "" {
      assert s + tail == s;
    } else {
      var front, last := tail[..|tail| - 1], tail[|tail| - 1];
      assert last in tail;
      assert (s + tail)[..|s + tail| - 1] == s + front;
      TrimEndSplits(s, front);
    }
  }

  lemma RuleParts(line: string)
    requires IsRule(line)
    ensures RuleLine(line)
  {
    hide TrimStart;
    hide TrimEnd;
    hide IsSpace;
    var s := TrimStart(line);
    var t := TrimEnd(s);
    TrimStartIndent(line);
    TrimEndCuts(s);
    var tail := s[|t|..];
    assert s == t + tail;
    forall c | c in tail ensures IsSpace(c) {
      var i :| 0 <= i < |tail| && tail[i] == c;
      assert s[|t| + i] == c;
    }
    assert RuleApart(line, line[..|line| - |s|], t, tail);
  }

  lemma RuleWhole(line: string)
    requires RuleLine(line)
    ensures IsRule(line)
  {
    hide TrimStart;
    hide TrimEnd;
    hide IsSpace;
    var indent, dashes, tail :| RuleApart(line, indent, dashes, tail);
    assert dashes[0] in dashes && dashes[|dashes| - 1] in dashes;
    Solid('-');
    assert (dashes + tail)[0] == dashes[0];
    TrimStartSplits(indent, dashes + tail);
    TrimEndSplits(dashes, tail);
  }

  lemma RuleIs(line: string)
    ensures IsRule(line) <==> RuleLine(line)
  {
    hide IsRule;
    hide RuleLine;
    if IsRule(line) {
      RuleParts(line);
    }
    if RuleLine(line) {
      RuleWhole(line);
    }
  }

  lemma HashIs(line: string)
    ensures var s := TrimStart(line); var h := HashRun(s);
            1 <= h <= 4 && |s| > h && IsSpace(s[h]) <==> HashLine(line)
  {
    hide TrimStart;
    hide IsSpace;
    hide HashRun;
    var s := TrimStart(line);
    var h := HashRun(s);
    TrimStartIndent(line);
    HashesCounted(s);
    if 1 <= h <= 4 && |s| > h && IsSpace(s[h]) {
      assert s == s[..h] + s[h..];
      assert HashApart(line, line[..|line| - |s|], s[..h], s[h..]);
    }
    if HashLine(line) {
      var indent, hashes, rest :| HashApart(line, indent, hashes, rest);
      assert (hashes + rest)[0] == hashes[0] && hashes[0] in hashes;
      Solid('#');
      TrimStartSplits(indent, hashes + rest);
      HashRunIs(hashes, rest);
    }
  }

  lemma TableIs(lines: seq<string>, k: nat)
    ensures TableStarts(lines, k) <==> TableLines(lines, k)
  {
    hide Cells;
    hide IsDashCell;
    hide SeparatorCell;
    if k + 1 < |lines| {
      forall cell | cell in Cells(lines[k + 1]) ensures IsDashCell(cell) <==> SeparatorCell(cell) {
        DashCellIs(cell);
      }
    }
  }

  lemma DashCellIs(cell: string)
    ensures IsDashCell(cell) <==> SeparatorCell(cell)
  {
    hide IsDashCell;
    hide DashCell;
    if IsDashCell(cell) {
      var left, dashes, right := DashCellComesApart(cell);
    }
    if left, dashes: nat, right :| dashes >= 3 && cell == DashCell(left, dashes, right) {
      DashCellReads(left, dashes, right);
    }
  }

  /** A line behind which no paragraph goes on. */
  ghost predicate EndsParagraph(lines: seq<string>, k: nat)
    requires k < |lines|
  {
    || AllSpaces(lines[k]) || FenceLine(lines[k]) || ItemLine(false, lines[k]) || ItemLine(true, lines[k])
    || HashLine(lines[k]) || TableLines(lines, k)
  }

  lemma EndsIs(lines: seq<string>, k: nat)
    requires k < |lines|
    ensures GoesOn(ParagraphRun, lines, k) <==> !EndsParagraph(lines, k)
  {
    BlankIs(lines[k]);
    FenceIs(lines[k]);
    ItemIs(false, lines[k]);
    ItemIs(true, lines[k]);
    HashIs(lines[k]);
    TableIs(lines, k);
    hide IsBlank;
    hide AllSpaces;
    hide IsFence;
    hide FenceLine;
    hide IsBullet;
    hide IsNumbered;
    hide ItemLine;
    hide HashLine;
    hide TableStarts;
    hide TableLines;
    hide TrimStart;
    hide HashRun;
    hide IsSpace;
  }

  lemma {:induction false} RunEndIs(run: Run, lines: seq<string>, from: nat)
    requires from <= |lines|
    ensures var r := RunEnd(run, lines, from);
            && (forall k :: from <= k < r ==> GoesOn(run, lines, k))
            && (r < |lines| ==> !GoesOn(run, lines, r))
    decreases |lines| - from
  {
    hide GoesOn;
    if from < |lines| && GoesOn(run, lines, from) {
      RunEndIs(run, lines, from + 1);
    }
  }

  // ----- blocks by their lines -----

  /** The content is what stands between two fences, or behind the one up to the end. */
  ghost predicate CodeReads(lines: seq<string>, b: Block) {
    && b.body.Code?
    && var stop := b.start + 1 + |b.body.content|;
       && stop <= |lines| && b.body.content == lines[b.start + 1..stop]
       && (forall l :: l in b.body.content ==> !FenceLine(l))
       && (if stop == |lines| then b.stop == stop else b.stop == stop + 1 && FenceLine(lines[stop]))
  }

  /** The header, then below the dashes every line up to the first without a pipe. */
  ghost predicate TableReads(lines: seq<string>, b: Block) {
    && b.body.Table? && b.start + 2 <= b.stop <= |lines|
    && b.body.header == Row(Cells(lines[b.start])) && |b.body.rows| == b.stop - b.start - 2
    && (forall i :: 0 <= i < |b.body.rows| ==>
          b.body.rows[i] == Row(Cells(lines[b.start + 2 + i])) && '|' in lines[b.start + 2 + i])
    && (b.stop < |lines| ==> '|' !in lines[b.stop])
  }

  /** One line; of all ways to match it, the one with the shortest text. */
  ghost predicate HeadingReadsLine(line: string, level: nat, text: string) {
    && (exists hashes, gap :: |hashes| == level && HeadingApart(line, hashes, gap, text))
    && (forall hashes, gap, more :: HeadingApart(line, hashes, gap, more) ==> |hashes| == level && |text| <= |more|)
  }

  /** The text of every line up to the first that is no such item. */
  ghost predicate ItemsRead(lines: seq<string>, b: Block, ordered: bool) {
    && b.body.Items? && b.body.ordered == ordered && b.start < b.stop <= |lines|
    && |b.body.items| == b.stop - b.start
    && (forall i :: 0 <= i < |b.body.items| ==> TextOfItem(ordered, lines[b.start + i], b.body.items[i]))
    && (b.stop < |lines| ==> !ItemLine(ordered, lines[b.stop]))
  }

  ghost predicate TextOfItem(ordered: bool, line: string, text: string) {
    exists indent, marker, gap :: ItemApart(line, indent, marker, gap, text) && IsMarker(ordered, marker)
  }

  /** Every line up to the first that ends a paragraph. */
  ghost predicate ParagraphReads(lines: seq<string>, b: Block) {
    && b.body.Paragraph? && b.start < b.stop <= |lines| && b.body.content == lines[b.start..b.stop]
    && (forall k :: b.start < k < b.stop ==> !EndsParagraph(lines, k))
    && (b.stop < |lines| ==> EndsParagraph(lines, b.stop))
  }

  /** The block its first line starts, the patterns tried in the parser's order. */
  ghost predicate BlockReads(lines: seq<string>, b: Block) {
    b.start < |lines| && !AllSpaces(lines[b.start]) &&
    var line := lines[b.start];
    if FenceLine(line) then CodeReads(lines, b)
    else if TableLines(lines, b.start) then TableReads(lines, b)
    else if HeadingLine(line) then
      b.stop == b.start + 1 && b.body.Heading? && HeadingReadsLine(line, b.body.level, b.body.text)
    else if ItemLine(true, line) then ItemsRead(lines, b, true)
    else if ItemLine(false, line) then ItemsRead(lines, b, false)
    else if RuleLine(line) then b.stop == b.start + 1 && b.body.Rule?
    else ParagraphReads(lines, b)
  }

  lemma CodeIs(lines: seq<string>, i: nat)
    requires i < |lines| && KindAt(lines, i).FencedKind?
    ensures CodeReads(lines, BlockAt(lines, i))
  {
    hide IsFence;
    hide FenceLine;
    RunEndIs(CodeRun, lines, i + 1);
    var k := RunEnd(CodeRun, lines, i + 1);
    hide RunEnd;
    hide KindAt;
    forall j | i + 1 <= j < |lines| ensures IsFence(lines[j]) <==> FenceLine(lines[j]) {
      FenceIs(lines[j]);
    }
    var b := BlockAt(lines, i);
    assert b.body == Code(lines[i + 1..k]);
    forall l | l in b.body.content ensures !FenceLine(l) {
      var j :| 0 <= j < |b.body.content| && b.body.content[j] == l;
      assert l == lines[i + 1 + j] && GoesOn(CodeRun, lines, i + 1 + j);
    }
  }

  lemma PipeNotBlank(line: string)
    requires '|' in line
    ensures !IsBlank(line)
  {
    hide IsSpace;
    BlankIs(line);
    Solid('|');
  }

  lemma TableBlock(lines: seq<string>, i: nat)
    requires i < |lines| && KindAt(lines, i).TableKind?
    ensures i + 2 <= |lines|
    ensures var k := RunEnd(TableRun, lines, i + 2);
            BlockAt(lines, i) == Block(i, k, Table(RowOf(lines[i]), Rows(lines[i + 2..k])))
  {
    hide IsFence;
    hide HasPipe;
    hide IsSeparator;
    hide HeadingOf;
    hide Rows;
    hide RowOf;
    hide GoesOn;
    hide RunEnd;
  }

  lemma TableBlockIs(lines: seq<string>, i: nat)
    requires i < |lines| && KindAt(lines, i).TableKind?
    ensures TableReads(lines, BlockAt(lines, i))
  {
    hide Cells;
    hide BlockAt;
    hide KindAt;
    hide RunEnd;
    hide IsBlank;
    hide GoesOn;
    hide Rows;
    hide RowOf;
    TableBlock(lines, i);
    RunEndIs(TableRun, lines, i + 2);
    var k := RunEnd(TableRun, lines, i + 2);
    forall j | i + 2 <= j < |lines| ensures GoesOn(TableRun, lines, j) <==> '|' in lines[j] {
      TableGoesOn(lines, j);
    }
    RowsOf(lines[i]);
    TableRead(lines, i, k, Rows(lines[i + 2..k]));
  }

  lemma TableRead(lines: seq<string>, i: nat, k: nat, rows: seq<Row>)
    requires i + 2 <= k <= |lines| && rows == Rows(lines[i + 2..k])
    requires forall j :: i + 2 <= j < k ==> '|' in lines[j]
    requires k < |lines| ==> '|' !in lines[k]
    ensures TableReads(lines, Block(i, k, Table(Row(Cells(lines[i])), rows)))
  {
    hide Cells;
    hide Rows;
    RowsCount(lines[i + 2..k]);
    forall j | 0 <= j < |rows| ensures rows[j] == Row(Cells(lines[i + 2 + j])) {
      RowsAt(lines[i + 2..k], j);
    }
  }

  lemma RowsOf(line: string)
    ensures RowOf(line) == Row(Cells(line))
  {
  }

  lemma RowsCount(lines: seq<string>)
    ensures |Rows(lines)| == |lines|
  {
  }

  lemma RowsAt(lines: seq<string>, j: nat)
    requires j < |lines|
    ensures |Rows(lines)| == |lines| && Rows(lines)[j] == Row(Cells(lines[j]))
  {
    hide Cells;
  }

  lemma TableGoesOn(lines: seq<string>, k: nat)
    requires k < |lines|
    ensures GoesOn(TableRun, lines, k) <==> '|' in lines[k]
  {
    hide IsBlank;
    if '|' in lines[k] {
      PipeNotBlank(lines[k]);
    }
  }

  lemma HeadingBlockIs(lines: seq<string>, i: nat)
    requires i < |lines| && KindAt(lines, i).HeadingKind?
    ensures var b := BlockAt(lines, i); b.stop == i + 1 && b.body.Heading? && HeadingReadsLine(lines[i], b.body.level, b.body.text)
  {
    hide HeadingOf;
    hide HeadingApart;
    var hashes, gap := HeadingComesApart(lines[i]);
    forall hashes, gap, more | HeadingApart(lines[i], hashes, gap, more)
      ensures |hashes| == HeadingOf(lines[i]).value.level && |HeadingOf(lines[i]).value.text| <= |more|
    {
      HeadingReads(lines[i], hashes, gap, more);
    }
  }

  lemma ItemsBlock(lines: seq<string>, i: nat, ordered: bool)
    requires i < |lines| && KindAt(lines, i) == ListKind(ordered)
    ensures var k := RunEnd(ItemRun(ordered), lines, i);
            i < k && BlockAt(lines, i) == Block(i, k, Items(ordered, Texts(ordered, lines[i..k])))
  {
    hide IsFence;
    hide TableStarts;
    hide HeadingOf;
    hide IsBullet;
    hide IsNumbered;
    hide Texts;
    hide RunEnd;
    KindFits(lines, i);
  }

  lemma ItemsBlockIs(lines: seq<string>, i: nat, ordered: bool)
    requires i < |lines| && KindAt(lines, i) == ListKind(ordered)
    ensures ItemsRead(lines, BlockAt(lines, i), ordered)
  {
    hide IsBullet;
    hide IsNumbered;
    hide ItemText;
    hide TextOfItem;
    hide ItemLine;
    hide BlockAt;
    hide KindAt;
    hide RunEnd;
    ItemsBlock(lines, i, ordered);
    RunEndIs(ItemRun(ordered), lines, i);
    var b := BlockAt(lines, i);
    forall j | 0 <= j < |b.body.items| ensures TextOfItem(ordered, lines[i + j], b.body.items[j]) {
      assert lines[i..b.stop][j] == lines[i + j] && GoesOn(ItemRun(ordered), lines, i + j);
      ItemHasText(ordered, lines[i + j]);
    }
    if b.stop < |lines| {
      ItemIs(ordered, lines[b.stop]);
    }
  }

  lemma ItemHasText(ordered: bool, line: string)
    requires IsItem(ordered, line)
    ensures TextOfItem(ordered, line, ItemText(ordered, line))
  {
    hide IsItem;
    hide ItemApart;
    hide IsMarker;
    hide ItemText;
    var indent, marker, gap := ItemComesApart(ordered, line);
  }

  lemma ParagraphBlock(lines: seq<string>, i: nat)
    requires i < |lines| && KindAt(lines, i).ParagraphKind?
    ensures var k := RunEnd(ParagraphRun, lines, i + 1);
            BlockAt(lines, i) == Block(i, k, Paragraph(lines[i..k]))
  {
    hide IsFence;
    hide TableStarts;
    hide HeadingOf;
    hide IsBullet;
    hide IsNumbered;
    hide IsRule;
    hide GoesOn;
    hide RunEnd;
  }

  lemma ParagraphIs(lines: seq<string>, i: nat)
    requires i < |lines| && KindAt(lines, i).ParagraphKind?
    ensures ParagraphReads(lines, BlockAt(lines, i))
  {
    hide GoesOn;
    hide EndsParagraph;
    hide RunEnd;
    hide KindAt;
    hide BlockAt;
    ParagraphBlock(lines, i);
    RunEndIs(ParagraphRun, lines, i + 1);
    forall k | i < k < |lines| ensures GoesOn(ParagraphRun, lines, k) <==> !EndsParagraph(lines, k) {
      EndsIs(lines, k);
    }
  }

  lemma BlockIs(lines: seq<string>, i: nat)
    requires i < |lines| && !IsBlank(lines[i])
    ensures BlockReads(lines, BlockAt(lines, i))
  {
    hide IsBlank;
    hide AllSpaces;
    hide IsFence;
    hide FenceLine;
    hide TableStarts;
    hide TableLines;
    hide HeadingOf;
    hide HeadingLine;
    hide IsBullet;
    hide IsNumbered;
    hide ItemLine;
    hide IsRule;
    hide RuleLine;
    hide CodeReads;
    hide TableReads;
    hide HeadingReadsLine;
    hide ItemsRead;
    hide ParagraphReads;
    BlankIs(lines[i]);
    FenceIs(lines[i]);
    TableIs(lines, i);
    HeadingIs(lines[i]);
    ItemIs(true, lines[i]);
    ItemIs(false, lines[i]);
    RuleIs(lines[i]);
    match KindAt(lines, i) {
      case FencedKind => CodeIs(lines, i);
      case TableKind => TableBlockIs(lines, i);
      case HeadingKind => HeadingBlockIs(lines, i);
      case ListKind(ordered) => ItemsBlockIs(lines, i, ordered);
      case RuleKind =>
      case ParagraphKind => ParagraphIs(lines, i);
    }
  }

  /** Every block of a text is the one its first line starts, and ends where its kind ends. */
  lemma BlocksHaveShape(lines: seq<string>)
    ensures forall b :: b in Blocks(lines, 0) ==> BlockReads(lines, b)
  {
    hide BlockReads;
    hide BlockAt;
    hide IsBlank;
    hide Blocks;
    BlocksRead(lines, 0);
    forall b | b in Blocks(lines, 0) ensures BlockReads(lines, b) {
      BlockIs(lines, b.start);
    }
  }
}
