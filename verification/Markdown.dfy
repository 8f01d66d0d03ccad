/**
 The block parser of the assistant's Markdown subset: an index-driven loop with
 one-line lookahead for tables and paragraphs.
 */
module Markdown {

  import opened Options
  import opened Sequences
  import opened JsText
  import opened MarkdownLines

  // ----- blocks -----

  datatype Row = Row(cells: seq<string>)

  datatype Body =
    | Code(content: seq<string>)
    | Table(header: Row, rows: seq<Row>)
    | Heading(level: nat, text: string)
    | Items(ordered: bool, items: seq<string>)
    | Rule
    | Paragraph(content: seq<string>)

  /** A block and the lines `start .. stop` it was read from; `start` is its key. */
  datatype Block = Block(start: nat, stop: nat, body: Body)

  predicate TableStarts(lines: seq<string>, k: nat) {
    k + 1 < |lines| && HasPipe(lines[k]) && IsSeparator(lines[k + 1])
  }

  /** The four loops that extend a block line by line. */
  datatype Run = CodeRun | TableRun | ItemRun(ordered: bool) | ParagraphRun

  /** The loop's guard at line `k`. */
  predicate GoesOn(run: Run, lines: seq<string>, k: nat)
    requires k < |lines|
  {
    match run
    case CodeRun => !IsFence(lines[k])
    case TableRun => HasPipe(lines[k]) && !IsBlank(lines[k])
    case ItemRun(ordered) => if ordered then IsNumbered(lines[k]) else IsBullet(lines[k])
    case ParagraphRun => !IsBlank(lines[k]) && !BreaksParagraph(lines[k]) && !TableStarts(lines, k)
  }

  /** Where the loop stops. */
  function RunEnd(run: Run, lines: seq<string>, from: nat): (r: nat)
    requires from <= |lines|
    ensures from <= r <= |lines|
    ensures from < |lines| && GoesOn(run, lines, from) ==> r > from
    decreases |lines| - from
  {
    if from == |lines| || !GoesOn(run, lines, from) then from else RunEnd(run, lines, from + 1)
  }

  /** The branch the parser takes at a non-blank line. */
  datatype Kind = FencedKind | TableKind | HeadingKind | ListKind(ordered: bool) | RuleKind | ParagraphKind

  function KindAt(lines: seq<string>, i: nat): Kind
    requires i < |lines|
  {
    if IsFence(lines[i]) then FencedKind
    else if TableStarts(lines, i) then TableKind
    else if HeadingOf(lines[i]).Some? then HeadingKind
    else if IsBullet(lines[i]) || IsNumbered(lines[i]) then ListKind(IsNumbered(lines[i]))
    else if IsRule(lines[i]) then RuleKind
    else ParagraphKind
  }

  function RowOf(line: string): Row {
    Row(Cells(line))
  }

  function Rows(lines: seq<string>): seq<Row> {
    Map(RowOf, lines)
  }

  function Texts(ordered: bool, lines: seq<string>): seq<string> {
    Map((line: string) => ItemText(ordered, line), lines)
  }

  /** The loop that extends a block of this kind, if it has one. */
  function RunOf(kind: Kind): Option<Run> {
    match kind
    case FencedKind => Some(CodeRun)
    case TableKind => Some(TableRun)
    case ListKind(ordered) => Some(ItemRun(ordered))
    case ParagraphKind => Some(ParagraphRun)
    case _ => None
  }

  /** Where that loop starts. */
  function RunFrom(kind: Kind, i: nat): nat {
    match kind case TableKind => i + 2 case ListKind(_) => i case _ => i + 1
  }

  /** Where the lines the block is built from start; its first line is given separately. */
  function ContentFrom(kind: Kind, i: nat): nat {
    match kind case TableKind => i + 2 case ListKind(_) => i case ParagraphKind => i case _ => i + 1
  }

  /** The block's loop starts inside the text, and a list's first line is an item. */
  predicate Fits(kind: Kind, lines: seq<string>, i: nat) {
    && i < |lines|
    && RunFrom(kind, i) <= |lines|
    && (kind.ListKind? ==> GoesOn(ItemRun(kind.ordered), lines, i))
  }

  lemma KindFits(lines: seq<string>, i: nat)
    requires i < |lines|
    ensures Fits(KindAt(lines, i), lines, i)
  {
    hide IsFence;
    hide HasPipe;
    hide IsSeparator;
    hide HeadingOf;
    hide IsBullet;
    hide IsNumbered;
    hide IsRule;
  }

  /** The end of the block's content. */
  function EndOf(kind: Kind, lines: seq<string>, i: nat): (k: nat)
    requires Fits(kind, lines, i)
    ensures ContentFrom(kind, i) <= k <= |lines| && i < k
  {
    hide GoesOn;
    if RunOf(kind).None? then i + 1 else RunEnd(RunOf(kind).value, lines, RunFrom(kind, i))
  }

  function BodyOf(kind: Kind, line: string, content: seq<string>): Body {
    match kind
    case FencedKind => Code(content)
    case TableKind => Table(RowOf(line), Rows(content))
    case HeadingKind =>
      var heading := HeadingOf(line);
      if heading.Some? then Heading(heading.value.level, heading.value.text) else Rule
    case ListKind(ordered) => Items(ordered, Texts(ordered, content))
    case RuleKind => Rule
    case ParagraphKind => Paragraph(content)
  }

  /** The block that starts at a non-blank line. A closing fence belongs to its code block. */
  function BlockAt(lines: seq<string>, i: nat): (b: Block)
    requires i < |lines|
    ensures b.start == i && i < b.stop <= |lines|
  {
    var kind := KindAt(lines, i);
    KindFits(lines, i);
    hide KindAt;
    hide Fits;
    hide BodyOf;
    var k := EndOf(kind, lines, i);
    Block(i, if kind.FencedKind? && k < |lines| then k + 1 else k,
          BodyOf(kind, lines[i], lines[ContentFrom(kind, i)..k]))
  }

  function Blocks(lines: seq<string>, i: nat): seq<Block>
    requires i <= |lines|
    decreases |lines| - i
  {
    if i == |lines| then []
    else if IsBlank(lines[i]) then Blocks(lines, i + 1)
    else
      var b := BlockAt(lines, i);
      [b] + Blocks(lines, b.stop)
  }

  /** The lines of a fenced block, up to its closing fence. */
  method TakeCode(lines: seq<string>, from: nat) returns (code: seq<string>, index: nat)
    requires from <= |lines|
    ensures index == RunEnd(CodeRun, lines, from) && code == lines[from..index]
  {
    hide IsFence;
    code, index := [], from;
    while index < |lines| && !IsFence(lines[index])
      invariant from <= index <= |lines| && code == lines[from..index]
      invariant RunEnd(CodeRun, lines, index) == RunEnd(CodeRun, lines, from)
    {
      code := code + [lines[index]];
      index := index + 1;
    }
  }

  /** The rows of a table: lines with a pipe. */
  method TakeRows(lines: seq<string>, from: nat) returns (rows: seq<Row>, index: nat)
    requires from <= |lines|
    ensures index == RunEnd(TableRun, lines, from) && rows == Rows(lines[from..index])
  {
    hide IsBlank;
    hide HasPipe;
    hide RowOf;
    rows, index := [], from;
    while index < |lines| && HasPipe(lines[index]) && !IsBlank(lines[index])
      invariant from <= index <= |lines| && |rows| == index - from
      invariant forall k :: 0 <= k < |rows| ==> rows[k] == RowOf(lines[from + k])
      invariant RunEnd(TableRun, lines, index) == RunEnd(TableRun, lines, from)
    {
      rows := rows + [RowOf(lines[index])];
      index := index + 1;
    }
    RowsAre(lines[from..index], rows);
  }

  lemma RowsAre(lines: seq<string>, rows: seq<Row>)
    requires |rows| == |lines| && forall k :: 0 <= k < |rows| ==> rows[k] == RowOf(lines[k])
    ensures rows == Rows(lines)
  {
    hide RowOf;
  }

  /** The items of one list: consecutive lines with the marker of the first. */
  method TakeItems(lines: seq<string>, from: nat, ordered: bool) returns (items: seq<string>, index: nat)
    requires from <= |lines|
    ensures index == RunEnd(ItemRun(ordered), lines, from) && items == Texts(ordered, lines[from..index])
  {
    hide ItemText;
    hide IsBullet;
    hide IsNumbered;
    items, index := [], from;
    while index < |lines| && if ordered then IsNumbered(lines[index]) else IsBullet(lines[index])
      invariant from <= index <= |lines| && |items| == index - from
      invariant forall k :: 0 <= k < |items| ==> items[k] == ItemText(ordered, lines[from + k])
      invariant RunEnd(ItemRun(ordered), lines, index) == RunEnd(ItemRun(ordered), lines, from)
    {
      items := items + [ItemText(ordered, lines[index])];
      index := index + 1;
    }
    TextsAre(ordered, lines[from..index], items);
  }

  lemma TextsAre(ordered: bool, lines: seq<string>, items: seq<string>)
    requires |items| == |lines| && forall k :: 0 <= k < |items| ==> items[k] == ItemText(ordered, lines[k])
    ensures items == Texts(ordered, lines)
  {
    hide ItemText;
  }

  /** The rest of a paragraph: everything up to a blank line, another block's marker or a table. */
  method TakeParagraph(lines: seq<string>, start: nat) returns (paragraph: seq<string>, index: nat)
    requires start < |lines|
    ensures index == RunEnd(ParagraphRun, lines, start + 1) && paragraph == lines[start..index]
  {
    hide TableStarts;
    hide BreaksParagraph;
    hide IsBlank;
    paragraph, index := [lines[start]], start + 1;
    while index < |lines| && !IsBlank(lines[index]) && !BreaksParagraph(lines[index]) && !TableStarts(lines, index)
      invariant start + 1 <= index <= |lines| && paragraph == lines[start..index]
      invariant RunEnd(ParagraphRun, lines, index) == RunEnd(ParagraphRun, lines, start + 1)
    {
      paragraph := paragraph + [lines[index]];
      index := index + 1;
    }
  }

  /** One block, read from a non-blank line. */
  method TakeBlock(lines: seq<string>, start: nat) returns (block: Block)
    requires start < |lines|
    ensures block == BlockAt(lines, start)
  {
    hide IsFence;
    hide HeadingOf;
    hide IsBullet;
    hide IsNumbered;
    hide IsRule;
    hide RunEnd;
    hide RowOf;
    hide Rows;
    hide Texts;
    var line := lines[start];
    var body, index := Rule, start + 1;
    if IsFence(line) {
      var code;
      code, index := TakeCode(lines, start + 1);
      body := Code(code);
      if index < |lines| {
        index := index + 1;
      }
    } else if TableStarts(lines, start) {
      var rows;
      rows, index := TakeRows(lines, start + 2);
      body := Table(RowOf(line), rows);
    } else if HeadingOf(line).Some? {
      body := Heading(HeadingOf(line).value.level, HeadingOf(line).value.text);
    } else if IsBullet(line) || IsNumbered(line) {
      var items;
      items, index := TakeItems(lines, start, IsNumbered(line));
      body := Items(IsNumbered(line), items);
    } else if !IsRule(line) {
      var paragraph;
      paragraph, index := TakeParagraph(lines, start);
      body := Paragraph(paragraph);
    }
    block := Block(start, index, body);
  }

  /** The parser's loop. */
  method Parse(lines: seq<string>) returns (blocks: seq<Block>)
    ensures blocks == Blocks(lines, 0)
  {
    hide IsBlank;
    hide BlockAt;
    blocks := [];
    var index := 0;
    while index < |lines|
      invariant index <= |lines|
      invariant blocks + Blocks(lines, index) == Blocks(lines, 0)
    {
      if IsBlank(lines[index]) {
        index := index + 1;
      } else {
        var block := TakeBlock(lines, index);
        assert (blocks + [block]) + Blocks(lines, block.stop) == blocks + ([block] + Blocks(lines, block.stop));
        blocks := blocks + [block];
        index := block.stop;
      }
    }
  }

  // ----- the blocks partition the non-blank lines -----

  /** Line `j` belongs to the block. */
  predicate Covers(b: Block, j: nat) {
    b.start <= j < b.stop
  }

  ghost predicate Ordered(blocks: seq<Block>, from: nat, n: nat) {
    && (forall k :: 0 <= k < |blocks| ==> from <= blocks[k].start < blocks[k].stop <= n)
    && (forall k, l :: 0 <= k < l < |blocks| ==> blocks[k].stop <= blocks[l].start)
  }

  lemma OrderedCons(b: Block, blocks: seq<Block>, n: nat)
    requires b.start < b.stop <= n && Ordered(blocks, b.stop, n)
    ensures Ordered([b] + blocks, b.start, n)
  {
  }

  lemma {:induction false} BlocksOrdered(lines: seq<string>, i: nat)
    requires i <= |lines|
    ensures Ordered(Blocks(lines, i), i, |lines|)
    decreases |lines| - i
  {
    hide BlockAt;
    hide IsBlank;
    if i < |lines| {
      if IsBlank(lines[i]) {
        BlocksOrdered(lines, i + 1);
      } else {
        var b := BlockAt(lines, i);
        BlocksOrdered(lines, b.stop);
        OrderedCons(b, Blocks(lines, b.stop), |lines|);
        hide Ordered;
      }
    }
  }

  /** A block starts at a non-blank line and is the block read there. */
  lemma {:induction false} BlocksRead(lines: seq<string>, i: nat)
    requires i <= |lines|
    ensures forall b :: b in Blocks(lines, i) ==> b.start < |lines| && !IsBlank(lines[b.start]) && b == BlockAt(lines, b.start)
    decreases |lines| - i
  {
    hide BlockAt;
    hide IsBlank;
    if i < |lines| {
      BlocksRead(lines, if IsBlank(lines[i]) then i + 1 else BlockAt(lines, i).stop);
    }
  }

  lemma {:induction false} NonBlankCovered(lines: seq<string>, i: nat, j: nat)
    requires i <= j < |lines| && !IsBlank(lines[j])
    ensures exists b :: b in Blocks(lines, i) && Covers(b, j)
    decreases |lines| - i
  {
    hide BlockAt;
    hide IsBlank;
    if IsBlank(lines[i]) {
      NonBlankCovered(lines, i + 1, j);
    } else {
      var b := BlockAt(lines, i);
      assert b in Blocks(lines, i);
      if j < b.stop {
        assert Covers(b, j);
      } else {
        NonBlankCovered(lines, b.stop, j);
      }
    }
  }

  /** Line `j` lies in block `k` and in no other. */
  ghost predicate OnlyIn(blocks: seq<Block>, k: nat, j: nat)
    requires k < |blocks|
  {
    Covers(blocks[k], j) && forall l :: 0 <= l < |blocks| && l != k ==> !Covers(blocks[l], j)
  }

  lemma OrderedDisjoint(blocks: seq<Block>, from: nat, n: nat, k: nat, j: nat)
    requires Ordered(blocks, from, n) && k < |blocks| && Covers(blocks[k], j)
    ensures OnlyIn(blocks, k, j)
  {
    forall l | 0 <= l < |blocks| && l != k ensures !Covers(blocks[l], j) {
      if l < k {
        assert blocks[l].stop <= blocks[k].start;
      } else {
        assert blocks[k].stop <= blocks[l].start;
      }
    }
  }

  /**
   The blocks cover ordered, disjoint line ranges inside the text, their keys
   strictly increase, and every non-blank line lies in exactly one block (so
   every line outside the blocks is blank).
   */
  lemma BlocksPartition(lines: seq<string>)
    ensures var blocks := Blocks(lines, 0);
            && Ordered(blocks, 0, |lines|)
            && (forall k, l :: 0 <= k < l < |blocks| ==> blocks[k].start < blocks[l].start)
            && (forall j :: 0 <= j < |lines| && !IsBlank(lines[j]) ==> exists k :: 0 <= k < |blocks| && OnlyIn(blocks, k, j))
  {
    hide IsBlank;
    hide Blocks;
    hide OnlyIn;
    var blocks := Blocks(lines, 0);
    BlocksOrdered(lines, 0);
    forall j | 0 <= j < |lines| && !IsBlank(lines[j]) ensures exists k :: 0 <= k < |blocks| && OnlyIn(blocks, k, j) {
      NonBlankCovered(lines, 0, j);
      var b :| b in blocks && Covers(b, j);
      var k :| 0 <= k < |blocks| && blocks[k] == b;
      OrderedDisjoint(blocks, 0, |lines|, k, j);
    }
  }

  // ----- texts separated by a blank line parse independently -----

  function ShiftBlock(b: Block, offset: nat): Block {
    b.(start := b.start + offset, stop := b.stop + offset)
  }

  function Shift(blocks: seq<Block>, offset: nat): (r: seq<Block>)
    ensures |r| == |blocks|
    ensures forall k :: 0 <= k < |blocks| ==> r[k] == ShiftBlock(blocks[k], offset)
  {
    seq(|blocks|, k requires 0 <= k < |blocks| => ShiftBlock(blocks[k], offset))
  }

  /** A code block whose closing fence is missing: its content reaches the end of the text. */
  predicate IsOpen(b: Block) {
    b.body.Code? && b.stop == b.start + 1 + |b.body.content|
  }

  ghost predicate FencesClosed(lines: seq<string>, i: nat)
    requires i <= |lines|
  {
    forall b :: b in Blocks(lines, i) ==> !IsOpen(b)
  }

  /** `text` begins with the lines `a` and a blank line behind them. */
  ghost predicate Begins(text: seq<string>, a: seq<string>) {
    && |text| > |a|
    && (forall k :: 0 <= k < |a| ==> text[k] == a[k])
    && IsBlank(text[|a|])
  }

  lemma LineApart(text: seq<string>, a: seq<string>, k: nat)
    requires Begins(text, a) && k < |a|
    ensures |text| > |a| && text[k] == a[k]
  {
  }

  /** The table lookahead does not see past the blank line. */
  lemma TableStartsApart(text: seq<string>, a: seq<string>, k: nat)
    requires Begins(text, a) && k < |a|
    ensures TableStarts(text, k) == TableStarts(a, k)
  {
    hide IsSeparator;
    hide HasPipe;
    hide IsBlank;
    BlankLine(text[|a|]);
  }

  lemma GoesOnApart(run: Run, text: seq<string>, a: seq<string>, k: nat)
    requires Begins(text, a) && k < |a|
    ensures GoesOn(run, text, k) == GoesOn(run, a, k)
  {
    hide IsFence;
    hide IsBlank;
    hide HasPipe;
    hide IsBullet;
    hide IsNumbered;
    hide BreaksParagraph;
    hide TableStarts;
    TableStartsApart(text, a, k);
  }

  lemma BlankStops(run: Run, lines: seq<string>, k: nat)
    requires k < |lines| && IsBlank(lines[k])
    ensures GoesOn(run, lines, k) <==> run.CodeRun?
  {
    hide IsFence;
    hide IsBlank;
    hide HasPipe;
    hide IsBullet;
    hide IsNumbered;
    hide BreaksParagraph;
    hide TableStarts;
    BlankLine(lines[k]);
  }

  /** A run that ends inside `a`, or that a blank line ends, ends at the same line. An open fence runs on. */
  lemma {:induction false} RunApart(run: Run, text: seq<string>, a: seq<string>, from: nat)
    requires Begins(text, a) && from <= |a|
    ensures RunEnd(run, a, from) < |a| || !run.CodeRun? ==> RunEnd(run, text, from) == RunEnd(run, a, from)
    ensures RunEnd(run, a, from) == |a| && run.CodeRun? ==> RunEnd(run, text, from) > |a|
    decreases |a| - from
  {
    hide GoesOn;
    if from == |a| {
      BlankStops(run, text, from);
    } else {
      GoesOnApart(run, text, a, from);
      if GoesOn(run, a, from) {
        RunApart(run, text, a, from + 1);
      }
    }
  }

  lemma KindApart(text: seq<string>, a: seq<string>, i: nat)
    requires Begins(text, a) && i < |a|
    ensures KindAt(text, i) == KindAt(a, i)
  {
    hide IsFence;
    hide IsBlank;
    hide TableStarts;
    hide HeadingOf;
    hide IsBullet;
    hide IsNumbered;
    hide IsRule;
    TableStartsApart(text, a, i);
  }

  lemma SliceApart(text: seq<string>, a: seq<string>, from: nat, to: nat)
    requires Begins(text, a) && from <= to <= |a|
    ensures text[from..to] == a[from..to]
  {
    hide IsBlank;
  }

  lemma EndApart(kind: Kind, text: seq<string>, a: seq<string>, i: nat)
    requires Begins(text, a) && Fits(kind, a, i) && Fits(kind, text, i)
    ensures EndOf(kind, a, i) < |a| || !kind.FencedKind? ==> EndOf(kind, text, i) == EndOf(kind, a, i)
    ensures EndOf(kind, a, i) == |a| && kind.FencedKind? ==> EndOf(kind, text, i) > |a|
  {
    hide GoesOn;
    hide Begins;
    hide RunEnd;
    if RunOf(kind).Some? {
      RunApart(RunOf(kind).value, text, a, RunFrom(kind, i));
    }
  }

  /** A closed block is read the same with more text behind a blank line; an open one is not. */
  lemma BlockApart(text: seq<string>, a: seq<string>, i: nat)
    requires Begins(text, a) && i < |a|
    ensures BlockAt(text, i) == BlockAt(a, i) <==> !IsOpen(BlockAt(a, i))
  {
    hide KindAt;
    hide Fits;
    hide IsBlank;
    hide Begins;
    hide EndOf;
    hide RowOf;
    hide Rows;
    hide Texts;
    hide HeadingOf;
    LineApart(text, a, i);
    var kind := KindAt(a, i);
    KindApart(text, a, i);
    KindFits(a, i);
    KindFits(text, i);
    EndApart(kind, text, a, i);
    SliceApart(text, a, ContentFrom(kind, i), EndOf(kind, a, i));
  }

  /** From `offset` on, `text` consists of the lines `b`. */
  ghost predicate Ends(text: seq<string>, b: seq<string>, offset: nat) {
    exists front :: |front| == offset && text == front + b
  }

  lemma LineShift(text: seq<string>, b: seq<string>, offset: nat, k: nat)
    requires Ends(text, b, offset) && k <= |b|
    ensures |text| == offset + |b|
    ensures k < |b| ==> text[offset + k] == b[k]
  {
    var front :| |front| == offset && text == front + b;
  }

  lemma TableStartsShift(text: seq<string>, b: seq<string>, offset: nat, k: nat)
    requires Ends(text, b, offset) && k < |b|
    ensures TableStarts(text, offset + k) == TableStarts(b, k)
  {
    hide IsSeparator;
    hide HasPipe;
    hide Ends;
    LineShift(text, b, offset, k);
    if k + 1 < |b| {
      LineShift(text, b, offset, k + 1);
    }
  }

  lemma GoesOnShift(run: Run, text: seq<string>, b: seq<string>, offset: nat, k: nat)
    requires Ends(text, b, offset) && k < |b|
    ensures GoesOn(run, text, offset + k) == GoesOn(run, b, k)
  {
    hide Ends;
    hide IsFence;
    hide IsBlank;
    hide HasPipe;
    hide IsBullet;
    hide IsNumbered;
    hide BreaksParagraph;
    hide TableStarts;
    TableStartsShift(text, b, offset, k);
    LineShift(text, b, offset, k);
  }

  lemma {:induction false} RunShift(run: Run, text: seq<string>, b: seq<string>, offset: nat, from: nat)
    requires Ends(text, b, offset) && from <= |b|
    ensures RunEnd(run, text, offset + from) == offset + RunEnd(run, b, from)
    decreases |b| - from
  {
    hide GoesOn;
    if from < |b| {
      GoesOnShift(run, text, b, offset, from);
      if GoesOn(run, b, from) {
        RunShift(run, text, b, offset, from + 1);
      }
    }
  }

  lemma KindShift(text: seq<string>, b: seq<string>, offset: nat, i: nat)
    requires Ends(text, b, offset) && i < |b|
    ensures KindAt(text, offset + i) == KindAt(b, i)
  {
    hide Ends;
    hide IsFence;
    hide TableStarts;
    hide HeadingOf;
    hide IsBullet;
    hide IsNumbered;
    hide IsRule;
    TableStartsShift(text, b, offset, i);
    LineShift(text, b, offset, i);
  }

  lemma SliceShift(text: seq<string>, b: seq<string>, offset: nat, from: nat, to: nat)
    requires Ends(text, b, offset) && from <= to <= |b|
    ensures text[offset + from..offset + to] == b[from..to]
  {
    var front :| |front| == offset && text == front + b;
  }

  lemma EndShift(kind: Kind, text: seq<string>, b: seq<string>, offset: nat, i: nat)
    requires Ends(text, b, offset) && Fits(kind, b, i) && Fits(kind, text, offset + i)
    ensures EndOf(kind, text, offset + i) == offset + EndOf(kind, b, i)
  {
    hide GoesOn;
    hide Ends;
    hide RunEnd;
    if RunOf(kind).Some? {
      RunShift(RunOf(kind).value, text, b, offset, RunFrom(kind, i));
    }
  }

  lemma BlockShift(text: seq<string>, b: seq<string>, offset: nat, i: nat)
    requires Ends(text, b, offset) && i < |b|
    ensures BlockAt(text, offset + i) == ShiftBlock(BlockAt(b, i), offset)
  {
    hide Ends;
    hide RunEnd;
    hide KindAt;
    hide Fits;
    hide EndOf;
    hide BodyOf;
    LineShift(text, b, offset, i);
    var kind := KindAt(b, i);
    KindShift(text, b, offset, i);
    KindFits(b, i);
    KindFits(text, offset + i);
    EndShift(kind, text, b, offset, i);
    SliceShift(text, b, offset, ContentFrom(kind, i), EndOf(kind, b, i));
  }

  lemma {:induction false} BlocksShift(text: seq<string>, b: seq<string>, offset: nat, i: nat)
    requires Ends(text, b, offset) && i <= |b|
    ensures Blocks(text, offset + i) == Shift(Blocks(b, i), offset)
    decreases |b| - i
  {
    hide BlockAt;
    hide IsBlank;
    hide Ends;
    LineShift(text, b, offset, i);
    if i < |b| {
      if IsBlank(b[i]) {
        BlocksShift(text, b, offset, i + 1);
      } else {
        var block := BlockAt(b, i);
        BlockShift(text, b, offset, i);
        BlocksShift(text, b, offset, block.stop);
        assert Shift([block] + Blocks(b, block.stop), offset)
            == [ShiftBlock(block, offset)] + Shift(Blocks(b, block.stop), offset);
      }
    }
  }

  /** The blocks of the text from line `i` on are those of `a` from `i` on, then `rest`. */
  ghost predicate Composes(text: seq<string>, a: seq<string>, i: nat, rest: seq<Block>)
    requires i <= |a| && i <= |text|
  {
    Blocks(text, i) == Blocks(a, i) + rest
  }

  lemma ConsComposes(text: seq<string>, a: seq<string>, i: nat, rest: seq<Block>)
    requires Begins(text, a) && i < |a| && !IsBlank(a[i])
    ensures Composes(text, a, i, rest) <==>
              BlockAt(text, i) == BlockAt(a, i) && Composes(text, a, BlockAt(a, i).stop, rest)
  {
    hide BlockAt;
    hide IsBlank;
    var x, y := BlockAt(text, i), BlockAt(a, i);
    var xs, ys := Blocks(text, x.stop), Blocks(a, y.stop);
    assert Blocks(text, i) == [x] + xs;
    assert Blocks(a, i) + rest == [y] + (ys + rest);
    assert ([x] + xs)[1..] == xs && ([y] + (ys + rest))[1..] == ys + rest;
  }

  lemma {:induction false} BlocksApart(text: seq<string>, a: seq<string>, i: nat, rest: seq<Block>)
    requires Begins(text, a) && i <= |a| && Blocks(text, |a| + 1) == rest
    ensures Composes(text, a, i, rest) <==> FencesClosed(a, i)
    decreases |a| - i
  {
    hide BlockAt;
    hide IsOpen;
    hide IsBlank;
    if i < |a| {
      if IsBlank(a[i]) {
        BlocksApart(text, a, i + 1, rest);
      } else {
        var block := BlockAt(a, i);
        ConsComposes(text, a, i, rest);
        BlockApart(text, a, i);
        BlocksApart(text, a, block.stop, rest);
        assert Blocks(a, i) == [block] + Blocks(a, block.stop);
      }
    }
  }

  /**
   Lines `a`, one blank line, then `b` parse to the blocks of `a` followed by the
   blocks of `b` moved behind them, exactly when every code fence of `a` is
   closed. Neither lookahead (table, paragraph) reaches over the blank line.
   */
  lemma ParsesApart(a: seq<string>, z: string, b: seq<string>)
    requires IsBlank(z)
    ensures Blocks(a + [z] + b, 0) == Blocks(a, 0) + Shift(Blocks(b, 0), |a| + 1)
       <==> forall block :: block in Blocks(a, 0) ==> !IsOpen(block)
  {
    hide Blocks;
    hide IsBlank;
    var text := a + [z] + b;
    BlocksShift(text, b, |a| + 1, 0);
    BlocksApart(text, a, 0, Shift(Blocks(b, 0), |a| + 1));
  }

  lemma {:induction false} CodeRunsOn(lines: seq<string>, from: nat)
    requires from <= |lines| && forall k :: from <= k < |lines| ==> !IsFence(lines[k])
    ensures RunEnd(CodeRun, lines, from) == |lines|
    decreases |lines| - from
  {
    hide IsFence;
    if from < |lines| {
      CodeRunsOn(lines, from + 1);
    }
  }

  lemma FenceSolid(line: string)
    requires IsFence(line)
    ensures !IsBlank(line)
  {
    if IsBlank(line) {
      BlankLine(line);
    }
  }

  lemma CodeBlockAt(lines: seq<string>)
    requires lines != [] && IsFence(lines[0]) && forall k :: 1 <= k < |lines| ==> !IsFence(lines[k])
    ensures BlockAt(lines, 0) == Block(0, |lines|, Code(lines[1..]))
  {
    hide IsFence;
    hide GoesOn;
    hide TableStarts;
    hide Fits;
    hide RunEnd;
    hide HeadingOf;
    hide IsBullet;
    hide IsNumbered;
    hide IsRule;
    hide RowOf;
    hide Rows;
    hide Texts;
    CodeRunsOn(lines, 1);
    KindFits(lines, 0);
    assert lines[1..|lines|] == lines[1..];
  }

  /** A text that starts with a fence and has no other is one code block. */
  lemma OneCodeBlock(lines: seq<string>)
    requires lines != [] && IsFence(lines[0]) && forall k :: 1 <= k < |lines| ==> !IsFence(lines[k])
    ensures Blocks(lines, 0) == [Block(0, |lines|, Code(lines[1..]))]
  {
    hide IsFence;
    hide IsBlank;
    hide BlockAt;
    FenceSolid(lines[0]);
    CodeBlockAt(lines);
    var b := BlockAt(lines, 0);
    assert Blocks(lines, |lines|) == [];
    assert Blocks(lines, 0) == [b] + Blocks(lines, b.stop);
  }

  lemma BehindFence(fence: string, rest: seq<string>)
    requires IsFence(fence) && forall l :: l in rest ==> !IsFence(l)
    ensures Blocks([fence] + rest, 0) == [Block(0, |rest| + 1, Code(rest))]
  {
    hide IsFence;
    hide Blocks;
    var text := [fence] + rest;
    forall k | 1 <= k < |text| ensures !IsFence(text[k]) {
      assert text[k] == rest[k - 1];
    }
    assert text[1..] == rest;
    OneCodeBlock(text);
  }

  lemma BlankGoesOn(z: string, b: seq<string>)
    requires IsBlank(z) && forall l :: l in b ==> !IsFence(l)
    ensures forall l :: l in [z] + b ==> !IsFence(l)
  {
    BlankLine(z);
    hide IsFence;
    hide IsBlank;
    hide HasPipe;
    hide IsSeparator;
    hide IsBullet;
    hide IsNumbered;
  }

  lemma Behind(fence: string, z: string, b: seq<string>)
    ensures [fence] + [] == [fence] && [fence] + ([z] + b) == [fence] + [z] + b && |[z] + b| == |b| + 1
  {
  }

  /**
   What an unclosed fence does: behind it the blank line and all that follows
   become its code, instead of the blocks they are on their own.
   */
  lemma OpenFenceSwallows(fence: string, z: string, b: seq<string>)
    requires IsFence(fence) && IsBlank(z) && forall l :: l in b ==> !IsFence(l)
    ensures Blocks([fence], 0) == [Block(0, 1, Code([]))] && IsOpen(Block(0, 1, Code([])))
    ensures Blocks([fence] + [z] + b, 0) == [Block(0, |b| + 2, Code([z] + b))]
  {
    hide IsFence;
    hide IsBlank;
    hide Blocks;
    BlankGoesOn(z, b);
    Behind(fence, z, b);
    BehindFence(fence, [z] + b);
    BehindFence(fence, []);
  }
}
