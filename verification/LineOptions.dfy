/**
 Resolution lines: a tree flattened with deduplication at every level, the lines
 existing records use, and the merge of such lists.
 */
module LineOptions {

  import opened JsText
  import opened Sequences

  datatype LineOption = LineOption(title: string, value: string, lineName: string)

  /** A line of the response; a missing or empty field is "". */
  datatype Line = Line(name: string, id: string, children: seq<Line>)

  /** A record's line as the table holds it. */
  datatype RecordLine = RecordLine(line: string, lineId: string)

  const DEFAULT_NAME := "\U{9ED8}\U{8BA4}"

  function ValueOf(): LineOption -> string {
    (o: LineOption) => o.value
  }

  /** `filter((item, index, all) => all.findIndex(same value) === index)` */
  function Distinct(options: seq<LineOption>): seq<LineOption> {
    FirstWins(ValueOf(), options)
  }

  // ----- the line tree -----

  /** The option of one line, with its localised label behind the labels above it. */
  function OptionOf(localize: (string, string) -> string, line: Line, prefix: string): LineOption {
    var lineName := if line.name != "" then line.name else DEFAULT_NAME;
    var lineId := if line.id != "" then line.id else lineName;
    var name := localize(lineName, lineId);
    LineOption(if prefix != "" then prefix + " / " + name else name, lineId, lineName)
  }

  /** Every line of the tree in preorder, duplicates included. */
  function Walk(localize: (string, string) -> string, lines: seq<Line>, prefix: string): seq<LineOption>
    decreases lines
  {
    if lines == [] then []
    else
      var o := OptionOf(localize, lines[0], prefix);
      [o] + Walk(localize, lines[0].children, o.title) + Walk(localize, lines[1..], prefix)
  }

  lemma {:induction false} WalkConcat(localize: (string, string) -> string, xs: seq<Line>, ys: seq<Line>, prefix: string)
    ensures Walk(localize, xs + ys, prefix) == Walk(localize, xs, prefix) + Walk(localize, ys, prefix)
    decreases |xs|
  {
    if xs == [] {
      assert xs + ys == ys;
    } else {
      var o := OptionOf(localize, xs[0], prefix);
      var first := [o] + Walk(localize, xs[0].children, o.title);
      assert (xs + ys)[1..] == xs[1..] + ys && (xs + ys)[0] == xs[0];
      WalkConcat(localize, xs[1..], ys, prefix);
      assert first + (Walk(localize, xs[1..], prefix) + Walk(localize, ys, prefix))
          == (first + Walk(localize, xs[1..], prefix)) + Walk(localize, ys, prefix);
    }
  }

  /** Deduplicating what is appended first changes nothing. */
  lemma DistinctStep(done: seq<LineOption>, walked: seq<LineOption>, more: seq<LineOption>, walk: seq<LineOption>)
    requires Distinct(done) == Distinct(walked) && Distinct(more) == Distinct(walk)
    ensures Distinct(done + more) == Distinct(walked + walk)
  {
    FirstWinsAbsorbs(ValueOf(), done, more);
    FirstWinsAbsorbs(ValueOf(), walked, walk);
  }

  lemma DistinctTwice(options: seq<LineOption>)
    ensures Distinct(Distinct(options)) == Distinct(options)
  {
    FirstWinsKeys(ValueOf(), options);
    FirstWinsFixes(ValueOf(), Distinct(options));
  }

  /**
   `flattenLines` deduplicates the result of every recursive call; what it
   returns is one deduplication of the plain preorder walk.
   */
  method FlattenLines(localize: (string, string) -> string, lines: seq<Line>, prefix: string) returns (options: seq<LineOption>)
    ensures options == Distinct(Walk(localize, lines, prefix))
    decreases lines
  {
    hide Distinct;
    hide OptionOf;
    var result := [];
    for i := 0 to |lines|
      invariant Distinct(result) == Distinct(Walk(localize, lines[..i], prefix))
    {
      var line := lines[i];
      var o := OptionOf(localize, line, prefix);
      var more := [o];
      if line.children != [] {
        var inner := FlattenLines(localize, line.children, o.title);
        DistinctTwice(Walk(localize, line.children, o.title));
        DistinctStep([o], [o], inner, Walk(localize, line.children, o.title));
        more := [o] + inner;
      } else {
        assert [o] + Walk(localize, line.children, o.title) == [o];
      }
      WalkOne(localize, line, prefix);
      assert lines[..i + 1] == lines[..i] + [line];
      WalkConcat(localize, lines[..i], [line], prefix);
      DistinctStep(result, Walk(localize, lines[..i], prefix), more, Walk(localize, [line], prefix));
      result := result + more;
    }
    assert lines[..|lines|] == lines;
    options := Distinct(result);
  }

  lemma WalkOne(localize: (string, string) -> string, line: Line, prefix: string)
    ensures var o := OptionOf(localize, line, prefix);
            Walk(localize, [line], prefix) == [o] + Walk(localize, line.children, o.title)
  {
    assert [line][1..] == [];
  }

  /** A way down the tree: every line is a child of the one before. */
  ghost predicate Leads(lines: seq<Line>, path: seq<Line>) {
    && path != [] && path[0] in lines
    && forall i :: 0 <= i < |path| - 1 ==> path[i + 1] in path[i].children
  }

  /** The name a line is offered under; a nameless one is the default line. */
  function NameOf(line: Line): string {
    if line.name == "" then DEFAULT_NAME else line.name
  }

  /** The identifier of a line, or its name. */
  function IdOf(line: Line): string {
    if line.id == "" then NameOf(line) else line.id
  }

  /** The localised names along a path, with slashes between them. */
  ghost function Crumbs(localize: (string, string) -> string, prefix: string, path: seq<Line>): string
    decreases |path|
  {
    if path == [] then prefix
    else
      var name := localize(NameOf(path[0]), IdOf(path[0]));
      Crumbs(localize, if prefix == "" then name else prefix + " / " + name, path[1..])
  }

  ghost predicate ComesFrom(localize: (string, string) -> string, lines: seq<Line>, prefix: string, o: LineOption, path: seq<Line>) {
    && Leads(lines, path)
    && o == LineOption(Crumbs(localize, prefix, path), IdOf(path[|path| - 1]), NameOf(path[|path| - 1]))
  }

  lemma OptionIs(localize: (string, string) -> string, line: Line, prefix: string)
    ensures ComesFrom(localize, [line], prefix, OptionOf(localize, line, prefix), [line])
  {
    assert [line][1..] == [];
  }

  /** A way below a line is a way through it. */
  lemma LeadsBelow(localize: (string, string) -> string, lines: seq<Line>, line: Line, prefix: string, o: LineOption, path: seq<Line>)
    requires line in lines
    requires ComesFrom(localize, line.children, OptionOf(localize, line, prefix).title, o, path)
    ensures ComesFrom(localize, lines, prefix, o, [line] + path)
  {
    var way := [line] + path;
    assert way[1..] == path;
    forall i | 0 <= i < |way| - 1 ensures way[i + 1] in way[i].children {
      if i > 0 {
        assert path[i - 1 + 1] in path[i - 1].children;
      }
    }
  }

  lemma LeadsThrough(localize: (string, string) -> string, lines: seq<Line>, prefix: string, o: LineOption, path: seq<Line>)
    requires ComesFrom(localize, lines, prefix, o, path) && |path| > 1
    ensures ComesFrom(localize, path[0].children, OptionOf(localize, path[0], prefix).title, o, path[1..])
  {
    var rest := path[1..];
    forall i | 0 <= i < |rest| - 1 ensures rest[i + 1] in rest[i].children {
      assert path[i + 1 + 1] in path[i + 1].children;
    }
    assert path[0 + 1] in path[0].children;
  }

  /** Every option walked comes from a way down the tree. */
  lemma {:induction false} WalkComesFrom(localize: (string, string) -> string, lines: seq<Line>, prefix: string, o: LineOption)
    returns (path: seq<Line>)
    requires o in Walk(localize, lines, prefix)
    ensures ComesFrom(localize, lines, prefix, o, path)
    decreases lines
  {
    hide Crumbs;
    hide OptionOf;
    var first := OptionOf(localize, lines[0], prefix);
    if o == first {
      OptionIs(localize, lines[0], prefix);
      path := [lines[0]];
    } else if o in Walk(localize, lines[0].children, first.title) {
      var below := WalkComesFrom(localize, lines[0].children, first.title, o);
      LeadsBelow(localize, lines, lines[0], prefix, o, below);
      path := [lines[0]] + below;
    } else {
      path := WalkComesFrom(localize, lines[1..], prefix, o);
    }
  }

  /** Every way down the tree is walked. */
  lemma {:induction false} WalkReaches(localize: (string, string) -> string, lines: seq<Line>, prefix: string, o: LineOption, path: seq<Line>)
    requires ComesFrom(localize, lines, prefix, o, path)
    ensures o in Walk(localize, lines, prefix)
    decreases lines
  {
    hide Crumbs;
    hide OptionOf;
    if path[0] == lines[0] {
      var first := OptionOf(localize, lines[0], prefix);
      if |path| == 1 {
        OptionIs(localize, lines[0], prefix);
        assert path == [lines[0]];
      } else {
        LeadsThrough(localize, lines, prefix, o, path);
        WalkReaches(localize, lines[0].children, first.title, o, path[1..]);
      }
    } else {
      WalkReaches(localize, lines[1..], prefix, o, path);
    }
  }

  /**
   Flattening offers exactly the first option of each value in preorder, and the
   options walked are the lines of the tree, each titled by the way to it.
   */
  lemma FlattenOffers(localize: (string, string) -> string, lines: seq<Line>, prefix: string, o: LineOption)
    ensures o in Distinct(Walk(localize, lines, prefix)) <==> FirstOf(Walk(localize, lines, prefix), o)
    ensures o in Walk(localize, lines, prefix) <==> exists path :: ComesFrom(localize, lines, prefix, o, path)
  {
    hide ComesFrom;
    KeepsFirst(Walk(localize, lines, prefix), o);
    if o in Walk(localize, lines, prefix) {
      var path := WalkComesFrom(localize, lines, prefix, o);
    }
    if path :| ComesFrom(localize, lines, prefix, o, path) {
      WalkReaches(localize, lines, prefix, o, path);
    }
  }

  /** No earlier option has its value. */
  ghost predicate FirstOf(options: seq<LineOption>, o: LineOption) {
    exists i :: 0 <= i < |options| && options[i] == o && forall j :: 0 <= j < i ==> options[j].value != o.value
  }

  /** Deduplicating keeps the first option of each value. */
  lemma {:induction false} KeepsFirst(options: seq<LineOption>, o: LineOption)
    ensures o in Distinct(options) <==> FirstOf(options, o)
  {
    if options != [] {
      var before, last := options[..|options| - 1], options[|options| - 1];
      KeepsFirst(before, o);
      FirstWinsAppend(ValueOf(), before, last);
      assert before + [last] == options;
      OffersIs(before, last.value);
      FirstGrows(before, last, o);
    }
  }

  lemma FirstGrows(before: seq<LineOption>, last: LineOption, o: LineOption)
    ensures FirstOf(before + [last], o) <==>
              FirstOf(before, o) || (o == last && forall p :: p in before ==> p.value != last.value)
  {
    var all := before + [last];
    if FirstOf(before, o) {
      var i :| 0 <= i < |before| && before[i] == o && forall j :: 0 <= j < i ==> before[j].value != o.value;
      assert all[i] == o && forall j :: 0 <= j < i ==> all[j] == before[j];
    }
    if o == last && forall p :: p in before ==> p.value != last.value {
      assert all[|before|] == o && forall j :: 0 <= j < |before| ==> all[j] == before[j];
    }
    if FirstOf(all, o) {
      var i :| 0 <= i < |all| && all[i] == o && forall j :: 0 <= j < i ==> all[j].value != o.value;
      assert forall j :: 0 <= j < |before| ==> before[j] == all[j];
    }
  }

  // ----- the lines records use -----

  predicate IsLetter(c: char) {
    'a' <= c <= 'z' || 'A' <= c <= 'Z'
  }

  function ToUpper(s: string): (t: string)
  {
    seq(|s|, i requires 0 <= i < |s| => if 'a' <= s[i] <= 'z' then ((s[i] as int) - 32) as char else s[i])
  }

  /** The value of a record's line; names stand in for the identifiers that say nothing. */
  function RecordValue(r: RecordLine, token: bool): string {
    var lineName, lineId := Trim(r.line), Trim(r.lineId);
    var name := ToLower(lineName);
    if lineId != "" && lineId != "0" && !(token && lineId == "0=0") then lineId
    else if name == "default" || name == DEFAULT_NAME then (if token then "default" else "0=0")
    else if |lineName| == 2 && IsLetter(lineName[0]) && IsLetter(lineName[1]) then ToUpper(lineName)
    else lineName
  }

  function RecordOption(localize: (string, string) -> string, r: RecordLine, token: bool): LineOption {
    LineOption(localize(Trim(r.line), RecordValue(r, token)), RecordValue(r, token), Trim(r.line))
  }

  predicate Usable(o: LineOption) {
    o.value != "" && o.lineName != ""
  }

  function ToOption(localize: (string, string) -> string, token: bool): RecordLine -> LineOption {
    (r: RecordLine) => RecordOption(localize, r, token)
  }

  /** The options of the records that name a line. */
  function NamedOptions(localize: (string, string) -> string, records: seq<RecordLine>, token: bool): seq<LineOption> {
    Filter(Usable, Map(ToOption(localize, token), records))
  }

  function ExistingRecordLineOptions(localize: (string, string) -> string, records: seq<RecordLine>, token: bool): seq<LineOption> {
    Distinct(NamedOptions(localize, records, token))
  }

  ghost predicate Offers(options: seq<LineOption>, value: string) {
    HasKey(ValueOf(), value, options)
  }

  /** No two options have the same value. */
  ghost predicate DistinctValues(options: seq<LineOption>) {
    forall i, j :: 0 <= i < j < |options| ==> options[i].value != options[j].value
  }

  lemma DistinctIs(options: seq<LineOption>, value: string)
    ensures DistinctValues(Distinct(options))
    ensures Offers(Distinct(options), value) <==> Offers(options, value)
    ensures forall o :: o in Distinct(options) ==> o in options
  {
    FirstWinsKeys(ValueOf(), options);
  }

  lemma OffersIs(options: seq<LineOption>, value: string)
    ensures Offers(options, value) <==> exists o :: o in options && o.value == value
  {
    if Offers(options, value) {
      var i :| 0 <= i < |options| && ValueOf()(options[i]) == value;
      assert options[i] in options;
    }
    if o :| o in options && o.value == value {
      var i :| 0 <= i < |options| && options[i] == o;
      assert ValueOf()(options[i]) == value;
    }
  }

  /**
   The options existing records give have distinct values and offer exactly the
   values of the records that name a line; a named line always has a value.
   */
  lemma RecordsOffer(localize: (string, string) -> string, records: seq<RecordLine>, token: bool, value: string)
    ensures var options := ExistingRecordLineOptions(localize, records, token);
            && DistinctValues(options)
            && (Offers(options, value) <==> exists r :: r in records && Trim(r.line) != "" && RecordValue(r, token) == value)
  {
    hide RecordValue;
    var all := Map(ToOption(localize, token), records);
    var kept := Filter(Usable, all);
    DistinctIs(kept, value);
    OffersIs(kept, value);
    forall o | o in kept && o.value == value ensures exists r :: r in records && Trim(r.line) != "" && RecordValue(r, token) == value {
      var i :| 0 <= i < |all| && all[i] == o;
      assert records[i] in records;
    }
    forall r | r in records && Trim(r.line) != "" && RecordValue(r, token) == value ensures exists o :: o in kept && o.value == value {
      var i :| 0 <= i < |records| && records[i] == r;
      NamedLineHasValue(r, token);
      assert all[i] in all && Usable(all[i]);
    }
  }

  /** The line says something of its own: an identifier that stands for a line. */
  ghost predicate Identified(r: RecordLine, token: bool) {
    var id := Trim(r.lineId);
    id != "" && id != "0" && (id == "0=0" ==> !token)
  }

  ghost predicate IsDefault(name: string) {
    ToLower(name) == "default" || ToLower(name) == "\U{9ED8}\U{8BA4}"
  }

  /** Two letters, a country. */
  ghost predicate IsCountry(name: string) {
    |name| == 2 && forall c :: c in name ==> 'a' <= c <= 'z' || 'A' <= c <= 'Z'
  }

  /**
   The value of a record is its identifier when that says something; otherwise
   the default line has the value of its interface, a country its capitals, and
   any other line its name.
   */
  lemma RecordValueReads(r: RecordLine, token: bool)
    ensures var name, value := Trim(r.line), RecordValue(r, token);
            && (Identified(r, token) ==> value == Trim(r.lineId))
            && (!Identified(r, token) && IsDefault(name) ==> value == if token then "default" else "0=0")
            && (!Identified(r, token) && IsCountry(name) ==> Capitals(name, value))
            && (!Identified(r, token) && !IsDefault(name) && !IsCountry(name) ==> value == name)
  {
    hide Trim;
    var name := Trim(r.line);
    if |name| == 2 {
      assert name[0] in name && name[1] in name;
      assert |ToLower(name)| == 2;
      assert |"default"| == 7;
      if IsCountry(name) {
        assert ToLower(name)[0] == LowerChar(name[0]);
        assert ToLower(name)[0] != DEFAULT_NAME[0];
      }
    }
  }

  /** The same letters, all capital. */
  ghost predicate Capitals(name: string, value: string) {
    |value| == |name| && forall i :: 0 <= i < |name| ==> 'A' <= value[i] <= 'Z' && LowerChar(value[i]) == LowerChar(name[i])
  }

  /** The option of a record that names a line. */
  ghost predicate OptionOfRecord(localize: (string, string) -> string, r: RecordLine, token: bool, o: LineOption) {
    && Trim(r.line) != "" && o.lineName == Trim(r.line)
    && o.value == RecordValue(r, token) && o.title == localize(Trim(r.line), RecordValue(r, token))
  }

  lemma NamedAppend(localize: (string, string) -> string, records: seq<RecordLine>, r: RecordLine, token: bool)
    ensures NamedOptions(localize, records + [r], token)
         == NamedOptions(localize, records, token) + if Trim(r.line) != "" then [RecordOption(localize, r, token)] else []
  {
    hide Trim;
    hide RecordValue;
    var f := ToOption(localize, token);
    var all := Map(f, records);
    assert Map(f, records + [r]) == all + [f(r)];
    FilterConcat(Usable, all, [f(r)]);
    FilterUnit(Usable, f(r));
    if Trim(r.line) != "" {
      NamedLineHasValue(r, token);
    }
  }

  lemma NamedHolds(localize: (string, string) -> string, records: seq<RecordLine>, token: bool, j: nat)
    requires j < |records| && Trim(records[j].line) != ""
    ensures exists p :: p in NamedOptions(localize, records, token) && p.value == RecordValue(records[j], token)
  {
    hide Trim;
    hide RecordValue;
    var all := Map(ToOption(localize, token), records);
    NamedLineHasValue(records[j], token);
    assert all[j] in all && Usable(all[j]);
    assert all[j] in NamedOptions(localize, records, token);
  }

  /** The first record with its value gives this option. */
  ghost predicate FromRecord(localize: (string, string) -> string, records: seq<RecordLine>, token: bool, o: LineOption) {
    exists i :: 0 <= i < |records| && OptionOfRecord(localize, records[i], token, o)
      && forall j :: 0 <= j < i && Trim(records[j].line) != "" ==> RecordValue(records[j], token) != o.value
  }

  lemma FromRecordGrows(localize: (string, string) -> string, records: seq<RecordLine>, r: RecordLine, token: bool, o: LineOption)
    requires FromRecord(localize, records, token, o)
    ensures FromRecord(localize, records + [r], token, o)
  {
    hide Trim;
    hide RecordValue;
    var i :| 0 <= i < |records| && OptionOfRecord(localize, records[i], token, o)
      && forall j :: 0 <= j < i && Trim(records[j].line) != "" ==> RecordValue(records[j], token) != o.value;
    var all := records + [r];
    assert all[i] == records[i];
    forall j | 0 <= j < i && Trim(all[j].line) != "" ensures RecordValue(all[j], token) != o.value {
      assert all[j] == records[j];
    }
  }

  /** The options existing records give are those of the first record of each value. */
  lemma {:induction false} RecordsOfferFirst(localize: (string, string) -> string, records: seq<RecordLine>, token: bool, o: LineOption)
    requires o in ExistingRecordLineOptions(localize, records, token)
    ensures FromRecord(localize, records, token, o)
  {
    hide Trim;
    hide RecordValue;
    hide NamedOptions;
    NoneNamed(localize, token);
    if records != [] {
      var before, last := records[..|records| - 1], records[|records| - 1];
      assert before + [last] == records;
      var named := NamedOptions(localize, before, token);
      NamedAppend(localize, before, last, token);
      if o in Distinct(named) {
        RecordsOfferFirst(localize, before, token, o);
        FromRecordGrows(localize, before, last, token, o);
      } else {
        assert Trim(last.line) != "" by {
          assert named + [] == named;
        }
        FirstWinsAppend(ValueOf(), named, RecordOption(localize, last, token));
        assert o == RecordOption(localize, last, token) && !Offers(named, o.value);
        OffersIs(named, o.value);
        forall j | 0 <= j < |records| - 1 && Trim(records[j].line) != "" ensures RecordValue(records[j], token) != o.value {
          assert records[j] == before[j];
          NamedHolds(localize, before, token, j);
        }
        assert OptionOfRecord(localize, records[|records| - 1], token, o);
      }
    }
  }

  lemma NoneNamed(localize: (string, string) -> string, token: bool)
    ensures NamedOptions(localize, [], token) == []
  {
  }

  lemma NamedLineHasValue(r: RecordLine, token: bool)
    requires Trim(r.line) != ""
    ensures RecordValue(r, token) != ""
  {
  }

  // ----- merging -----

  function Flat(groups: seq<seq<LineOption>>): seq<LineOption> {
    if groups == [] then [] else groups[0] + Flat(groups[1..])
  }

  function MergeLineOptions(groups: seq<seq<LineOption>>): seq<LineOption> {
    Distinct(Flat(groups))
  }

  lemma {:induction false} FlatConcat(gs: seq<seq<LineOption>>, hs: seq<seq<LineOption>>)
    ensures Flat(gs + hs) == Flat(gs) + Flat(hs)
  {
    if gs == [] {
      assert gs + hs == hs;
    } else {
      assert (gs + hs)[1..] == gs[1..] + hs;
      FlatConcat(gs[1..], hs);
    }
  }

  lemma FlatOne(options: seq<LineOption>)
    ensures Flat([options]) == options
  {
    assert [options][1..] == [];
    assert Flat([]) == [];
    assert options + [] == options;
  }

  lemma FlatTwo(xs: seq<LineOption>, ys: seq<LineOption>)
    ensures Flat([xs, ys]) == xs + ys
  {
    assert [xs] + [ys] == [xs, ys];
    FlatConcat([xs], [ys]);
    FlatOne(xs);
    FlatOne(ys);
  }

  /** Merging parts and then merging the results is merging everything: any grouping gives the same list. */
  lemma MergeAssociates(gs: seq<seq<LineOption>>, hs: seq<seq<LineOption>>)
    ensures MergeLineOptions([MergeLineOptions(gs), MergeLineOptions(hs)]) == MergeLineOptions(gs + hs)
  {
    hide Flat;
    FlatTwo(MergeLineOptions(gs), MergeLineOptions(hs));
    FlatConcat(gs, hs);
    FirstWinsAbsorbs(ValueOf(), Flat(gs), Flat(hs));
  }

  /** Three lists, either way round. */
  lemma MergeAssociative(xs: seq<LineOption>, ys: seq<LineOption>, zs: seq<LineOption>)
    ensures MergeLineOptions([MergeLineOptions([xs, ys]), zs]) == MergeLineOptions([xs, MergeLineOptions([ys, zs])])
  {
    hide Flat;
    hide Distinct;
    DistinctTwice(xs + ys);
    DistinctTwice(ys + zs);
    FlatTwo(xs, ys);
    FlatTwo(ys, zs);
    FlatTwo(MergeLineOptions([xs, ys]), zs);
    FlatTwo(xs, MergeLineOptions([ys, zs]));
    DistinctStep(Distinct(xs + ys), xs + ys, zs, zs);
    DistinctStep(xs, xs, Distinct(ys + zs), ys + zs);
    assert (xs + ys) + zs == xs + (ys + zs);
  }

  /** Merging a merged list again, alone or with what it was merged from, changes nothing. */
  lemma MergeIdempotent(gs: seq<seq<LineOption>>)
    ensures MergeLineOptions([MergeLineOptions(gs)]) == MergeLineOptions(gs)
    ensures MergeLineOptions([MergeLineOptions(gs)] + gs) == MergeLineOptions(gs)
  {
    hide Flat;
    hide Distinct;
    var merged := MergeLineOptions(gs);
    FlatOne(merged);
    DistinctTwice(Flat(gs));
    FlatConcat([merged], gs);
    DistinctStep(merged, Flat(gs), Flat(gs), Flat(gs));
    DistinctDoubled(Flat(gs));
  }

  lemma DistinctDoubled(xs: seq<LineOption>)
    ensures Distinct(xs + xs) == Distinct(xs)
  {
    hide Filter;
    var d := Distinct(xs);
    FirstWinsConcat(ValueOf(), xs, xs);
    FirstWinsKeys(ValueOf(), xs);
    forall o | o in d ensures !Unseen(ValueOf(), xs)(o) {
      var i :| 0 <= i < |d| && d[i] == o;
      assert HasKey(ValueOf(), o.value, d);
    }
    FilterNone(Unseen(ValueOf(), xs), d);
  }

  lemma {:induction false} FlatHolds(groups: seq<seq<LineOption>>, o: LineOption)
    ensures o in Flat(groups) <==> exists g :: g in groups && o in g
  {
    if groups != [] {
      FlatHolds(groups[1..], o);
      if g :| g in groups && o in g {
        if g != groups[0] {
          assert g in groups[1..];
        }
      }
    }
  }

  /** A merged list has distinct values and offers exactly the values of its parts. */
  lemma MergeOffers(groups: seq<seq<LineOption>>, value: string)
    ensures DistinctValues(MergeLineOptions(groups))
    ensures Offers(MergeLineOptions(groups), value) <==> exists g :: g in groups && Offers(g, value)
  {
    hide Distinct;
    DistinctIs(Flat(groups), value);
    OffersIs(Flat(groups), value);
    if o :| o in Flat(groups) && o.value == value {
      FlatHolds(groups, o);
      var g :| g in groups && o in g;
      OffersIs(g, value);
    }
    if g :| g in groups && Offers(g, value) {
      OffersIs(g, value);
      var o :| o in g && o.value == value;
      FlatHolds(groups, o);
    }
  }
}
