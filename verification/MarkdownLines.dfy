/**
 What a line of the Markdown subset looks like: the regular expressions and cell
 splitting of the parser, each with what it matches.
 */
module MarkdownLines {

  import opened Options
  import opened Sequences
  import opened JsText

  predicate IsBlank(line: string) {
    Trim(line) == ""
  }

  /** Three backticks behind optional white space */
  predicate IsFence(line: string) {
    "```" <= TrimStart(line)
  }

  predicate HasPipe(line: string) {
    '|' in line
  }

  function IsPipe(): char -> bool {
    (c: char) => c == '|'
  }

  /** Without a pipe at the start, then without one at the end. */
  function Unpiped(s: string): string {
    var t := if s != "" && s[0] == '|' then s[1..] else s;
    if t != "" && t[|t| - 1] == '|' then t[..|t| - 1] else t
  }

  function Cells(line: string): seq<string> {
    Map(Trim, Split(IsPipe(), Unpiped(Trim(line))))
  }

  predicate AllDashes(s: string) {
    |s| >= 3 && forall c :: c in s ==> c == '-'
  }

  /** `/^:?-{3,}:?$/` */
  predicate IsDashCell(cell: string) {
    var s := if cell != "" && cell[0] == ':' then cell[1..] else cell;
    AllDashes(if s != "" && s[|s| - 1] == ':' then s[..|s| - 1] else s)
  }

  predicate IsSeparator(line: string) {
    HasPipe(line) && forall cell :: cell in Cells(line) ==> IsDashCell(cell)
  }

  function HashRun(s: string): (n: nat)
    ensures n <= |s|
    ensures n < |s| ==> s[n] != '#'
  {
    if s != "" && s[0] == '#' then 1 + HashRun(s[1..]) else 0
  }

  /** What `.` does not match. */
  predicate IsLineTerminator(c: char) {
    c == '\n' || c == '\r' || c == '\U{2028}' || c == '\U{2029}'
  }

  datatype HeadingParts = HeadingParts(level: nat, text: string)

  /**
   `/^(#{1,4})\s+(.+)$/`: the white space is taken greedily, but one character
   of it is given back when nothing else follows.
   */
  function HeadingOf(line: string): Option<HeadingParts> {
    HeadingFrom(HashRun(line), line[HashRun(line)..])
  }

  /** The heading whose `h` hashes are followed by `rest`. */
  function HeadingFrom(h: nat, rest: string): Option<HeadingParts> {
    var body := TrimStart(rest);
    var text := if body != "" || rest == "" then body else rest[|rest| - 1..];
    if 1 <= h <= 4 && |text| < |rest| && text != "" && (forall c :: c in text ==> !IsLineTerminator(c)) then
      Some(HeadingParts(h, text))
    else None
  }

  /** `/^\s*[-*+]\s+/` */
  predicate IsBullet(line: string) {
    var s := TrimStart(line);
    |s| > 1 && s[0] in {'-', '*', '+'} && IsSpace(s[1])
  }

  /** `/^\s*\d+\.\s+/` */
  predicate IsNumbered(line: string) {
    var s := TrimStart(line);
    var n := DigitRun(s);
    n > 0 && |s| > n + 1 && s[n] == '.' && IsSpace(s[n + 1])
  }

  function ItemText(ordered: bool, line: string): string {
    var s := TrimStart(line);
    var n := DigitRun(s);
    if ordered then TrimStart(if n < |s| then s[n + 1..] else "") else TrimStart(if s != "" then s[1..] else "")
  }

  /** `/^\s*---+\s*$/` */
  predicate IsRule(line: string) {
    AllDashes(Trim(line))
  }

  /** `/^\s*(#{1,4}\s|` + three backticks + `|[-*+]\s|\d+\.\s)/` */
  predicate BreaksParagraph(line: string) {
    var s := TrimStart(line);
    var h := HashRun(s);
    (1 <= h <= 4 && |s| > h && IsSpace(s[h])) || IsFence(line) || IsBullet(line) || IsNumbered(line)
  }

  lemma BlankStart(line: string)
    ensures IsBlank(line) <==> TrimStart(line) == ""
  {
    TrimTrims(line);
    TrimStartCuts(line);
    var t := TrimStart(line);
    if t != "" {
      assert t[0] in line;
    }
  }

  lemma BlankLine(line: string)
    requires IsBlank(line)
    ensures !HasPipe(line) && !IsSeparator(line) && !IsFence(line) && !IsBullet(line) && !IsNumbered(line)
  {
    TrimTrims(line);
    BlankStart(line);
  }

  // ----- what the patterns match -----

  predicate AllSpaces(s: string) {
    forall c :: c in s ==> IsSpace(c)
  }

  predicate StartsSolid(s: string) {
    s != "" ==> !IsSpace(s[0])
  }

  /** `s` is white space followed by what `TrimStart` leaves. */
  lemma {:induction false} TrimStartSplits(indent: string, s: string)
    requires AllSpaces(indent) && StartsSolid(s)
    ensures TrimStart(indent + s) == s
  {
    if indent == "" {
      assert indent + s == s;
    } else {
      assert indent[0] in indent;
      assert (indent + s)[1..] == indent[1..] + s;
      TrimStartSplits(indent[1..], s);
    }
  }

  lemma TrimStartIndent(line: string)
    ensures var t := TrimStart(line); var indent := line[..|line| - |t|];
            AllSpaces(indent) && StartsSolid(t) && line == indent + t
  {
    hide TrimStart;
    hide IsSpace;
    TrimStartCuts(line);
    var n := |line| - |TrimStart(line)|;
    forall c | c in line[..n] ensures IsSpace(c) {
      var i :| 0 <= i < n && line[..n][i] == c;
      assert IsSpace(line[i]);
    }
  }

  /** A list item apart: its indent, its marker, the white space behind it, its text. */
  ghost predicate ItemApart(line: string, indent: string, marker: string, gap: string, text: string) {
    && line == indent + (marker + (gap + text))
    && AllSpaces(indent) && AllSpaces(gap) && gap != "" && StartsSolid(text)
  }

  ghost predicate IsMarker(ordered: bool, marker: string) {
    if ordered then |marker| > 1 && AllDigits(marker[..|marker| - 1]) && marker[|marker| - 1] == '.'
    else |marker| == 1 && marker[0] in {'-', '*', '+'}
  }

  predicate IsItem(ordered: bool, line: string) {
    if ordered then IsNumbered(line) else IsBullet(line)
  }

  lemma Solid(c: char)
    requires IsDigit(c) || c in {'-', '*', '+', '#', '|'}
    ensures !IsSpace(c)
  {
  }

  lemma NumberReads(line: string, indent: string, marker: string, gap: string, text: string)
    requires ItemApart(line, indent, marker, gap, text) && IsMarker(true, marker)
    ensures IsNumbered(line) && ItemText(true, line) == text
  {
    hide IsSpace;
    hide TrimStart;
    hide DigitRun;
    var s, digits := marker + (gap + text), marker[..|marker| - 1];
    Solid(s[0]);
    TrimStartSplits(indent, s);
    TrimStartSplits(gap, text);
    assert s == digits + ("." + (gap + text));
    DigitRunOf(digits, "." + (gap + text));
    assert s[|digits| + 1..] == gap + text;
    assert s[|digits| + 1] == gap[0] && gap[0] in gap;
  }

  lemma BulletReads(line: string, indent: string, marker: string, gap: string, text: string)
    requires ItemApart(line, indent, marker, gap, text) && IsMarker(false, marker)
    ensures IsBullet(line) && ItemText(false, line) == text
  {
    hide IsSpace;
    hide TrimStart;
    hide DigitRun;
    var s := marker + (gap + text);
    assert |marker| == 1 && s[0] == marker[0];
    Solid(s[0]);
    TrimStartSplits(indent, s);
    TrimStartSplits(gap, text);
    assert s[1..] == gap + text;
    assert s[1] == gap[0] && gap[0] in gap;
  }

  /** A line that comes apart this way is an item, and its text is what is left. */
  lemma ItemReads(ordered: bool, line: string, indent: string, marker: string, gap: string, text: string)
    requires ItemApart(line, indent, marker, gap, text) && IsMarker(ordered, marker)
    ensures IsItem(ordered, line) && ItemText(ordered, line) == text
  {
    hide ItemApart;
    hide IsMarker;
    hide ItemText;
    hide IsNumbered;
    hide IsBullet;
    if ordered {
      NumberReads(line, indent, marker, gap, text);
    } else {
      BulletReads(line, indent, marker, gap, text);
    }
  }

  /** `rest` behind a marker starts with the white space the marker needs. */
  lemma GapApart(indent: string, marker: string, rest: string) returns (gap: string)
    requires AllSpaces(indent) && rest != "" && IsSpace(rest[0])
    ensures ItemApart(indent + (marker + rest), indent, marker, gap, TrimStart(rest))
  {
    hide IsSpace;
    var text := TrimStart(rest);
    TrimStartIndent(rest);
    hide TrimStart;
    gap := rest[..|rest| - |text|];
    assert rest == gap + text;
    assert gap != "";
  }

  lemma NumberComesApart(line: string) returns (indent: string, marker: string, gap: string)
    requires IsNumbered(line)
    ensures IsMarker(true, marker) && ItemApart(line, indent, marker, gap, ItemText(true, line))
  {
    hide IsSpace;
    hide TrimStart;
    hide DigitRun;
    hide StartsSolid;
    var s := TrimStart(line);
    var n := DigitRun(s);
    TrimStartIndent(line);
    hide AllSpaces;
    indent, marker := line[..|line| - |s|], s[..n + 1];
    var rest := s[n + 1..];
    assert rest[0] == s[n + 1];
    gap := GapApart(indent, marker, rest);
    hide ItemApart;
    assert s == marker + rest;
    assert marker[..|marker| - 1] == s[..n];
  }

  lemma BulletComesApart(line: string) returns (indent: string, marker: string, gap: string)
    requires IsBullet(line)
    ensures IsMarker(false, marker) && ItemApart(line, indent, marker, gap, ItemText(false, line))
  {
    hide IsSpace;
    hide TrimStart;
    hide DigitRun;
    hide StartsSolid;
    var s := TrimStart(line);
    TrimStartIndent(line);
    hide AllSpaces;
    indent, marker := line[..|line| - |s|], s[..1];
    var rest := s[1..];
    assert rest[0] == s[1];
    gap := GapApart(indent, marker, rest);
    hide ItemApart;
    assert s == marker + rest;
  }

  /** Every item comes apart this way. */
  lemma ItemComesApart(ordered: bool, line: string) returns (indent: string, marker: string, gap: string)
    requires IsItem(ordered, line)
    ensures IsMarker(ordered, marker) && ItemApart(line, indent, marker, gap, ItemText(ordered, line))
  {
    hide ItemApart;
    hide IsMarker;
    hide ItemText;
    hide IsNumbered;
    hide IsBullet;
    if ordered {
      indent, marker, gap := NumberComesApart(line);
    } else {
      indent, marker, gap := BulletComesApart(line);
    }
  }

  ghost predicate AllHashes(s: string) {
    forall c :: c in s ==> c == '#'
  }

  /** `^(#{1,4})\s+(.+)$` with its groups and the white space between them. */
  ghost predicate HeadingApart(line: string, hashes: string, gap: string, text: string) {
    && line == hashes + (gap + text)
    && 1 <= |hashes| <= 4 && AllHashes(hashes)
    && gap != "" && AllSpaces(gap)
    && text != "" && forall c :: c in text ==> !IsLineTerminator(c)
  }

  lemma HashRunIs(hashes: string, rest: string)
    requires AllHashes(hashes) && (rest != "" ==> rest[0] != '#')
    ensures HashRun(hashes + rest) == |hashes|
  {
    if hashes == "" {
      assert hashes + rest == rest;
    } else {
      assert hashes[0] in hashes;
      assert (hashes + rest)[1..] == hashes[1..] + rest;
      assert forall c :: c in hashes[1..] ==> c in hashes;
      HashRunIs(hashes[1..], rest);
    }
  }

  lemma HashesCounted(line: string)
    ensures AllHashes(line[..HashRun(line)])
  {
    if line != "" && line[0] == '#' {
      HashesCounted(line[1..]);
      assert line[..HashRun(line)] == ['#'] + line[1..][..HashRun(line[1..])];
    }
  }

  lemma {:induction false} TrimStartSkips(gap: string, s: string)
    requires AllSpaces(gap)
    ensures TrimStart(gap + s) == TrimStart(s)
  {
    if gap == "" {
      assert gap + s == s;
    } else {
      assert gap[0] in gap;
      assert (gap + s)[1..] == gap[1..] + s;
      assert forall c :: c in gap[1..] ==> c in gap;
      TrimStartSkips(gap[1..], s);
    }
  }

  lemma TrimStartWithin(s: string)
    ensures forall c :: c in TrimStart(s) ==> c in s
  {
  }

  lemma LastCharacter(gap: string, text: string)
    requires text != ""
    ensures (gap + text)[|gap + text| - 1..] == [text[|text| - 1]]
  {
  }

  lemma HeadingFromReads(h: nat, gap: string, text: string, rest: string)
    requires 1 <= h <= 4 && gap != "" && AllSpaces(gap) && text != "" && rest == gap + text
    requires forall c :: c in text ==> !IsLineTerminator(c)
    ensures var heading := HeadingFrom(h, rest);
            heading.Some? && heading.value.level == h && |heading.value.text| <= |text|
  {
    hide IsSpace;
    hide IsLineTerminator;
    hide AllSpaces;
    hide TrimStart;
    TrimStartSkips(gap, text);
    TrimStartWithin(text);
    LastCharacter(gap, text);
    var body, last := TrimStart(rest), rest[|rest| - 1..];
    assert |rest| == |gap| + |text|;
    assert last == [text[|text| - 1]];
    assert !IsLineTerminator(last[0]);
  }

  /** A line that comes apart this way is a heading of that level; its text is the shortest possible. */
  lemma HeadingReads(line: string, hashes: string, gap: string, text: string)
    requires HeadingApart(line, hashes, gap, text)
    ensures HeadingOf(line).Some? && HeadingOf(line).value.level == |hashes| && |HeadingOf(line).value.text| <= |text|
  {
    hide IsSpace;
    hide HashRun;
    hide HeadingFrom;
    hide IsLineTerminator;
    var rest := gap + text;
    assert gap[0] in gap;
    Solid('#');
    HashRunIs(hashes, rest);
    assert line[|hashes|..] == rest;
    HeadingFromReads(|hashes|, gap, text, rest);
  }

  lemma HeadingFromComesApart(h: nat, rest: string) returns (gap: string)
    requires HeadingFrom(h, rest).Some?
    ensures var text := HeadingFrom(h, rest).value.text;
            && rest == gap + text && gap != "" && AllSpaces(gap) && text != ""
            && forall c :: c in text ==> !IsLineTerminator(c)
    ensures 1 <= h <= 4 && HeadingFrom(h, rest).value.level == h
  {
    hide IsSpace;
    hide IsLineTerminator;
    TrimStartIndent(rest);
    hide TrimStart;
    hide StartsSolid;
    var body, text := TrimStart(rest), HeadingFrom(h, rest).value.text;
    gap := rest[..|rest| - |text|];
    if body == "" {
      assert rest[..|rest| - |body|] == rest;
      assert forall c :: c in gap ==> c in rest;
    }
  }

  /** Every heading comes apart this way. */
  lemma HeadingComesApart(line: string) returns (hashes: string, gap: string)
    requires HeadingOf(line).Some?
    ensures |hashes| == HeadingOf(line).value.level && HeadingApart(line, hashes, gap, HeadingOf(line).value.text)
  {
    hide IsSpace;
    hide HashRun;
    hide HeadingFrom;
    hide IsLineTerminator;
    hide AllSpaces;
    HashesCounted(line);
    hide AllHashes;
    var h := HashRun(line);
    var rest := line[h..];
    hashes := line[..h];
    gap := HeadingFromComesApart(h, rest);
    assert line == hashes + rest;
  }

  // ----- table rows -----

  /** `:`, at least three dashes, `:`, the colons being optional. */
  function DashCell(left: bool, dashes: nat, right: bool): string {
    (if left then ":" else "") + seq(dashes, _ => '-') + (if right then ":" else "")
  }

  lemma DashCellReads(left: bool, dashes: nat, right: bool)
    requires dashes >= 3
    ensures IsDashCell(DashCell(left, dashes, right))
  {
    var cell, run := DashCell(left, dashes, right), seq(dashes, _ => '-');
    var s := if cell != "" && cell[0] == ':' then cell[1..] else cell;
    assert s == run + if right then ":" else "";
    assert (if s[|s| - 1] == ':' then s[..|s| - 1] else s) == run;
  }

  lemma DashCellComesApart(cell: string) returns (left: bool, dashes: nat, right: bool)
    requires IsDashCell(cell)
    ensures dashes >= 3 && cell == DashCell(left, dashes, right)
  {
    left := cell != "" && cell[0] == ':';
    var s := if left then cell[1..] else cell;
    right := s != "" && s[|s| - 1] == ':';
    var run := if right then s[..|s| - 1] else s;
    dashes := |run|;
    forall i | 0 <= i < dashes ensures run[i] == '-' {
      assert run[i] in run;
    }
    assert run == seq(dashes, _ => '-');
  }

  /** Cells as a row can write them: no pipe, no white space at either end. */
  ghost predicate PlainCells(cells: seq<string>) {
    forall cell :: cell in cells ==> '|' !in cell && IsTrimmed(cell)
  }

  lemma {:induction false} TrimmedCells(cells: seq<string>)
    requires PlainCells(cells)
    ensures Map(Trim, cells) == cells
  {
    forall i | 0 <= i < |cells| ensures Trim(cells[i]) == cells[i] {
      assert cells[i] in cells;
      TrimmedFixed(cells[i]);
    }
  }

  lemma UnpipedRow(inner: string)
    ensures Unpiped("|" + inner + "|") == inner
  {
    var line := "|" + inner + "|";
    assert line[1..] == inner + "|";
    assert (inner + "|")[..|inner|] == inner;
  }

  /** A row written with pipes around and between its cells reads back as those cells. */
  lemma CellsRoundTrip(cells: seq<string>)
    requires cells != [] && PlainCells(cells)
    ensures Cells("|" + Join(cells, '|') + "|") == cells
  {
    hide IsSpace;
    var inner := Join(cells, '|');
    Solid('|');
    hide Join;
    var line := "|" + inner + "|";
    assert line[0] == '|' && line[|line| - 1] == '|';
    TrimmedFixed(line);
    hide Trim;
    UnpipedRow(inner);
    hide Unpiped;
    forall i | 0 <= i < |cells| ensures Unbroken(IsPipe(), cells[i]) {
      assert cells[i] in cells;
    }
    SplitJoined(IsPipe(), '|', cells);
    hide Split;
    TrimmedCells(cells);
  }

  /** Without a pipe there, the row begins, or ends, with something to see. */
  ghost predicate Edged(cells: seq<string>, left: bool, right: bool)
    requires cells != []
  {
    var last := cells[|cells| - 1];
    && (!left ==> cells[0] != "" && !IsSpace(cells[0][0]))
    && (!right ==> last != "" && !IsSpace(last[|last| - 1]))
  }

  function Edge(pipe: bool): string {
    if pipe then "|" else ""
  }

  lemma {:induction false} JoinEdges(cells: seq<string>)
    requires cells != []
    ensures cells[0] != "" ==> Join(cells, '|') != "" && Join(cells, '|')[0] == cells[0][0]
    ensures var last := cells[|cells| - 1]; var s := Join(cells, '|'); last != "" ==> s != "" && s[|s| - 1] == last[|last| - 1]
  {
    if |cells| > 1 {
      JoinEdges(cells[1..]);
    }
  }

  lemma UnpipedEdges(inner: string, left: bool, right: bool)
    requires !left ==> inner != "" && inner[0] != '|'
    requires !right ==> inner != "" && inner[|inner| - 1] != '|'
    ensures Unpiped(Edge(left) + inner + Edge(right)) == inner
  {
    var line := Edge(left) + inner + Edge(right);
    if left {
      assert line[1..] == inner + Edge(right);
    } else {
      assert line == inner + Edge(right) && line[0] == inner[0];
    }
    var t := inner + Edge(right);
    if right {
      assert t[..|inner|] == inner;
    } else {
      assert t == inner;
    }
  }

  lemma EdgesTrimmed(inner: string, left: bool, right: bool)
    requires !left ==> inner != "" && !IsSpace(inner[0])
    requires !right ==> inner != "" && !IsSpace(inner[|inner| - 1])
    ensures Trim(Edge(left) + inner + Edge(right)) == Edge(left) + inner + Edge(right)
  {
    hide IsSpace;
    hide Trim;
    Solid('|');
    var line := Edge(left) + inner + Edge(right);
    if line != "" {
      assert line[0] == if left then '|' else inner[0];
      assert line[|line| - 1] == if right then '|' else inner[|inner| - 1];
    }
    TrimmedFixed(line);
  }

  /**
   A row with or without the pipe at either end reads as its cells without the
   white space around them.
   */
  lemma RowReads(cells: seq<string>, left: bool, right: bool)
    requires cells != [] && (forall i :: 0 <= i < |cells| ==> '|' !in cells[i]) && Edged(cells, left, right)
    ensures Cells(Edge(left) + Join(cells, '|') + Edge(right)) == Map(Trim, cells)
  {
    hide IsSpace;
    hide Trim;
    hide Unpiped;
    hide Edge;
    hide Join;
    hide Split;
    var inner := Join(cells, '|');
    JoinEdges(cells);
    assert '|' !in cells[0] && '|' !in cells[|cells| - 1];
    EdgesTrimmed(inner, left, right);
    UnpipedEdges(inner, left, right);
    SplitJoined(IsPipe(), '|', cells);
  }
}
