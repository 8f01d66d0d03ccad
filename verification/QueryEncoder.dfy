/**
 Nested request parameters as a flat query string: `appendValue`, `toQuery` and
 the Mini App's `miniQuery`.
 */
module QueryEncoder {

  import opened Options
  import opened JsText

  // ----- parameter trees -----

  /** A JavaScript value as the encoder tells values apart; a scalar is its `String(value)`. */
  datatype Value =
    | Undefined
    | Null
    | Scalar(text: string)
    | Array(items: seq<Value>)
    | Object(entries: seq<Entry>)

  datatype Entry = Entry(key: string, value: Value)

  /** `Object.entries(value)`: an array's keys are its indices. */
  function Entries(v: Value): (es: seq<Entry>)
    ensures forall i :: 0 <= i < |es| ==> es[i].value < v
  {
    match v
    case Array(items) => seq(|items|, i requires 0 <= i < |items| => Entry(Decimal(i), items[i]))
    case Object(entries) => entries
    case _ => []
  }

  /** `typeof value === 'object' && value !== null` */
  predicate IsBranch(v: Value) {
    v.Array? || v.Object?
  }

  /** Object keys are distinct, at every level. */
  ghost predicate WellFormed(v: Value)
    decreases v
  {
    && (v.Object? ==> forall i, j :: 0 <= i < j < |v.entries| ==> v.entries[i].key != v.entries[j].key)
    && (forall i :: 0 <= i < |Entries(v)| ==> WellFormed(Entries(v)[i].value))
  }

  lemma EntriesDistinct(v: Value, i: nat, j: nat)
    requires WellFormed(v) && i < |Entries(v)| && j < |Entries(v)|
    requires Entries(v)[i].key == Entries(v)[j].key
    ensures i == j
  {
    if v.Array? {
      DecimalInjective(i, j);
    }
  }

  /** The value the encoder writes for a childless node, if any. */
  function Written(v: Value, keepEmpty: bool): Option<string> {
    match v
    case Null => if keepEmpty then Some("") else None
    case Scalar(text) => if text != "" || keepEmpty then Some(text) else None
    case _ => None
  }

  function FindEntry(es: seq<Entry>, key: string): (r: Option<Entry>)
    ensures r.Some? ==> r.value in es && r.value.key == key
    ensures r.None? ==> forall e :: e in es ==> e.key != key
  {
    if es == [] then None else if es[0].key == key then Some(es[0]) else FindEntry(es[1..], key)
  }

  /** What the tree holds at a path. */
  function LeafAt(v: Value, path: seq<string>, keepEmpty: bool): Option<string>
    decreases |path|
  {
    if path == [] then Written(v, keepEmpty)
    else
      match FindEntry(Entries(v), path[0])
      case None => None
      case Some(e) => LeafAt(e.value, path[1..], keepEmpty)
  }

  /** A text is written as it is, an absent one as nothing; empty ones only when they are to be kept. */
  lemma WrittenExactly(v: Value, keepEmpty: bool, text: string)
    ensures Written(v, keepEmpty) == Some(text) <==>
              (v == Scalar(text) || (v == Null && text == "")) && (text == "" ==> keepEmpty)
  {
  }

  /** An array holds its items under their indices, an object its values under their keys, and neither anything else. */
  lemma LeafBelow(v: Value, i: nat, key: string, path: seq<string>, keepEmpty: bool)
    requires WellFormed(v)
    ensures v.Array? && i < |v.items| && key == Decimal(i) ==> LeafAt(v, [key] + path, keepEmpty) == LeafAt(v.items[i], path, keepEmpty)
    ensures v.Object? && i < |v.entries| && v.entries[i].key == key ==>
              LeafAt(v, [key] + path, keepEmpty) == LeafAt(v.entries[i].value, path, keepEmpty)
    ensures v.Array? && (forall k: nat :: k < |v.items| ==> Decimal(k) != key) ==> LeafAt(v, [key] + path, keepEmpty) == None
    ensures v.Object? && (forall k :: 0 <= k < |v.entries| ==> v.entries[k].key != key) ==> LeafAt(v, [key] + path, keepEmpty) == None
    ensures !v.Array? && !v.Object? ==> LeafAt(v, [key] + path, keepEmpty) == None
  {
    hide Decimal;
    var es := Entries(v);
    assert ([key] + path)[1..] == path;
    if i < |es| && es[i].key == key {
      var found := FindEntry(es, key).value;
      var j :| 0 <= j < |es| && es[j] == found;
      EntriesDistinct(v, i, j);
    }
  }

  // ----- the uniform flattening -----

  datatype Leaf = Leaf(path: seq<string>, text: string)

  function Under(key: string, leaves: seq<Leaf>): (r: seq<Leaf>)
    ensures |r| == |leaves|
    ensures forall i :: 0 <= i < |r| ==> r[i] == Leaf([key] + leaves[i].path, leaves[i].text)
  {
    seq(|leaves|, i requires 0 <= i < |leaves| => Leaf([key] + leaves[i].path, leaves[i].text))
  }

  /** The written leaves of the tree, in preorder. */
  function Leaves(v: Value, keepEmpty: bool): seq<Leaf>
    decreases v, |Entries(v)| + 1
  {
    if IsBranch(v) then LeavesFrom(v, 0, keepEmpty)
    else match Written(v, keepEmpty) case None => [] case Some(text) => [Leaf([], text)]
  }

  function LeavesFrom(v: Value, i: nat, keepEmpty: bool): seq<Leaf>
    requires i <= |Entries(v)|
    decreases v, |Entries(v)| - i
  {
    if i == |Entries(v)| then []
    else
      var e := Entries(v)[i];
      Under(e.key, Leaves(e.value, keepEmpty)) + LeavesFrom(v, i + 1, keepEmpty)
  }

  lemma InUnder(key: string, leaves: seq<Leaf>, path: seq<string>, text: string)
    ensures Leaf(path, text) in Under(key, leaves) <==> path != [] && path[0] == key && Leaf(path[1..], text) in leaves
  {
    var r := Under(key, leaves);
    if path != [] && path[0] == key && Leaf(path[1..], text) in leaves {
      var i :| 0 <= i < |leaves| && leaves[i] == Leaf(path[1..], text);
      assert path == [key] + path[1..];
      assert r[i] == Leaf(path, text);
    }
    if Leaf(path, text) in r {
      var i :| 0 <= i < |r| && r[i] == Leaf(path, text);
      assert ([key] + leaves[i].path)[1..] == leaves[i].path;
    }
  }

  /** The flattening holds exactly what the tree holds: each path with its text. */
  lemma {:induction false} LeavesAt(v: Value, keepEmpty: bool, path: seq<string>, text: string)
    requires WellFormed(v)
    ensures Leaf(path, text) in Leaves(v, keepEmpty) <==> LeafAt(v, path, keepEmpty) == Some(text)
    decreases v, |Entries(v)| + 1
  {
    if IsBranch(v) {
      LeavesFromAt(v, 0, keepEmpty, path, text);
      if path != [] {
        var found := FindEntry(Entries(v), path[0]);
        if found.Some? {
          var j :| 0 <= j < |Entries(v)| && Entries(v)[j] == found.value;
          forall k | 0 <= k < |Entries(v)| && Entries(v)[k].key == path[0] ensures Entries(v)[k].value == found.value.value {
            EntriesDistinct(v, j, k);
          }
        }
      }
    }
  }

  lemma {:induction false} LeavesFromAt(v: Value, i: nat, keepEmpty: bool, path: seq<string>, text: string)
    requires WellFormed(v) && i <= |Entries(v)|
    ensures Leaf(path, text) in LeavesFrom(v, i, keepEmpty) <==>
              path != [] && exists k :: i <= k < |Entries(v)| && Entries(v)[k].key == path[0]
                                && LeafAt(Entries(v)[k].value, path[1..], keepEmpty) == Some(text)
    decreases v, |Entries(v)| - i
  {
    if i < |Entries(v)| {
      var e := Entries(v)[i];
      LeavesFromAt(v, i + 1, keepEmpty, path, text);
      InUnder(e.key, Leaves(e.value, keepEmpty), path, text);
      if path != [] {
        LeavesAt(e.value, keepEmpty, path[1..], text);
      }
    }
  }

  ghost predicate DistinctPaths(leaves: seq<Leaf>) {
    forall i, j :: 0 <= i < j < |leaves| ==> leaves[i].path != leaves[j].path
  }

  lemma UnderDistinct(key: string, leaves: seq<Leaf>)
    requires DistinctPaths(leaves)
    ensures DistinctPaths(Under(key, leaves))
  {
    var r := Under(key, leaves);
    forall i, j | 0 <= i < j < |r| ensures r[i].path != r[j].path {
      assert r[i].path[1..] == leaves[i].path && r[j].path[1..] == leaves[j].path;
    }
  }

  lemma DistinctConcat(xs: seq<Leaf>, ys: seq<Leaf>)
    requires DistinctPaths(xs) && DistinctPaths(ys)
    requires forall x, y :: x in xs && y in ys ==> x.path != y.path
    ensures DistinctPaths(xs + ys)
  {
    var zs := xs + ys;
    forall i, j | 0 <= i < j < |zs| ensures zs[i].path != zs[j].path {
      if i < |xs| <= j {
        assert zs[i] in xs && zs[j] in ys;
      }
    }
  }

  /** No path is written twice. */
  lemma {:induction false} LeavesDistinct(v: Value, keepEmpty: bool)
    requires WellFormed(v)
    ensures DistinctPaths(Leaves(v, keepEmpty))
    decreases v, |Entries(v)| + 1
  {
    if IsBranch(v) {
      LeavesFromDistinct(v, 0, keepEmpty);
    }
  }

  lemma {:induction false} LeavesFromDistinct(v: Value, i: nat, keepEmpty: bool)
    requires WellFormed(v) && i <= |Entries(v)|
    ensures DistinctPaths(LeavesFrom(v, i, keepEmpty))
    decreases v, |Entries(v)| - i
  {
    if i < |Entries(v)| {
      var e := Entries(v)[i];
      var first, rest := Under(e.key, Leaves(e.value, keepEmpty)), LeavesFrom(v, i + 1, keepEmpty);
      LeavesDistinct(e.value, keepEmpty);
      UnderDistinct(e.key, Leaves(e.value, keepEmpty));
      LeavesFromDistinct(v, i + 1, keepEmpty);
      forall x, y | x in first && y in rest ensures x.path != y.path {
        LeavesFromAt(v, i + 1, keepEmpty, y.path, y.text);
        assert y == Leaf(y.path, y.text);
        var k :| i + 1 <= k < |Entries(v)| && Entries(v)[k].key == y.path[0];
        assert x.path[0] == e.key;
        if x.path == y.path {
          EntriesDistinct(v, i, k);
        }
      }
      DistinctConcat(first, rest);
    }
  }

  // ----- parameter names -----

  /** `${key}[${child}]` */
  function Bracketed(key: string, child: string): string {
    key + "[" + child + "]"
  }

  function Suffix(path: seq<string>): string {
    if path == [] then "" else "[" + path[0] + "]" + Suffix(path[1..])
  }

  /** The name of the leaf at a path below the root key `path[0]`. */
  function NameOf(path: seq<string>): string
    requires path != []
  {
    path[0] + Suffix(path[1..])
  }

  /** A root key is its own name; every key below adds its brackets. */
  lemma {:induction false} NameGrows(path: seq<string>, child: string)
    requires path != []
    ensures NameOf([path[0]]) == path[0]
    ensures NameOf(path + [child]) == NameOf(path) + "[" + child + "]"
  {
    SuffixGrows(path[1..], child);
    assert (path + [child])[1..] == path[1..] + [child];
    assert path[0] + (Suffix(path[1..]) + "[" + child + "]") == path[0] + Suffix(path[1..]) + "[" + child + "]";
  }

  lemma {:induction false} SuffixGrows(path: seq<string>, child: string)
    ensures Suffix(path + [child]) == Suffix(path) + "[" + child + "]"
  {
    if path == [] {
      assert [child][1..] == [];
      assert [] + [child] == [child];
    } else {
      SuffixGrows(path[1..], child);
      assert (path + [child])[1..] == path[1..] + [child];
      assert "[" + path[0] + "]" + (Suffix(path[1..]) + "[" + child + "]") == ("[" + path[0] + "]" + Suffix(path[1..])) + "[" + child + "]";
    }
  }

  /** Read `[a][b]…` back. */
  function ParseSuffix(s: string): Option<seq<string>>
    decreases |s|
  {
    if s == "" then Some([])
    else if s[0] != '[' || ']' !in s then None
    else
      var n := IndexOf(s, ']');
      if n == |s| then None
      else
        match ParseSuffix(s[n + 1..])
        case None => None
        case Some(path) => Some([s[1..n]] + path)
  }

  function ParseName(name: string): Option<seq<string>> {
    var n := IndexOf(name, '[');
    match ParseSuffix(name[n..])
    case None => None
    case Some(path) => Some([name[..n]] + path)
  }

  lemma BracketCloses(s: string, p: string, tail: string)
    requires s == "[" + p + "]" + tail && ']' !in p
    ensures s != "" && s[0] == '[' && ']' in s && IndexOf(s, ']') == |p| + 1 < |s|
    ensures s[1..|p| + 1] == p && s[|p| + 2..] == tail
  {
    var n := |p| + 1;
    forall i | 0 <= i < n ensures s[i] != ']' {
      if i > 0 {
        assert s[i] == p[i - 1] && p[i - 1] in p;
      }
    }
    assert s[n] == ']';
    IndexOfAt(s, ']', n);
    hide IndexOf;
  }

  lemma {:induction false} SuffixParses(path: seq<string>)
    requires forall p :: p in path ==> ']' !in p
    ensures ParseSuffix(Suffix(path)) == Some(path)
  {
    hide IndexOf;
    if path != [] {
      var p, rest := path[0], path[1..];
      SuffixParses(rest);
      BracketCloses(Suffix(path), p, Suffix(rest));
      assert [p] + rest == path;
    }
  }

  /** A name the decoder takes apart again: no `[` in the root key, no `]` below. */
  ghost predicate Readable(path: seq<string>) {
    path != [] && '[' !in path[0] && forall p :: p in path[1..] ==> ']' !in p
  }

  lemma NameParses(path: seq<string>)
    requires Readable(path)
    ensures ParseName(NameOf(path)) == Some(path)
  {
    var root, rest := path[0], path[1..];
    SuffixParses(rest);
    var name := NameOf(path);
    if rest == [] {
      assert name == root;
      assert IndexOf(name, '[') == |root|;
    } else {
      assert Suffix(rest)[0] == '[';
      IndexOfAt(name, '[', |root|);
    }
    assert name[|root|..] == Suffix(rest) && name[..|root|] == root;
    assert [root] + rest == path;
  }

  // ----- URLSearchParams -----

  datatype Pair = Pair(name: string, text: string)

  predicate HasName(pairs: seq<Pair>, name: string) {
    exists i :: 0 <= i < |pairs| && pairs[i].name == name
  }

  function Without(pairs: seq<Pair>, name: string): seq<Pair> {
    if pairs == [] then []
    else (if pairs[0].name == name then [] else [pairs[0]]) + Without(pairs[1..], name)
  }

  /** `set`: the first pair of that name takes the value, its other pairs go; a new name goes last. */
  function SetPair(pairs: seq<Pair>, p: Pair): seq<Pair> {
    if pairs == [] then [p]
    else if pairs[0].name == p.name then [p] + Without(pairs[1..], p.name)
    else [pairs[0]] + SetPair(pairs[1..], p)
  }

  function SetAll(pairs: seq<Pair>, news: seq<Pair>): seq<Pair>
    decreases |news|
  {
    if news == [] then pairs else SetAll(SetPair(pairs, news[0]), news[1..])
  }

  lemma {:induction false} SetAllConcat(pairs: seq<Pair>, xs: seq<Pair>, ys: seq<Pair>)
    ensures SetAll(pairs, xs + ys) == SetAll(SetAll(pairs, xs), ys)
    decreases |xs|
  {
    if xs == [] {
      assert xs + ys == ys;
    } else {
      assert (xs + ys)[1..] == xs[1..] + ys;
      SetAllConcat(SetPair(pairs, xs[0]), xs[1..], ys);
    }
  }

  lemma {:induction false} SetNew(pairs: seq<Pair>, p: Pair)
    requires !HasName(pairs, p.name)
    ensures SetPair(pairs, p) == pairs + [p]
  {
    if pairs != [] {
      assert pairs[0].name != p.name;
      assert forall i :: 0 <= i < |pairs[1..]| ==> pairs[1..][i] == pairs[i + 1];
      SetNew(pairs[1..], p);
      assert pairs == [pairs[0]] + pairs[1..];
    }
  }

  /** Setting a name that is there changes its text in place. */
  lemma {:induction false} SetOver(pairs: seq<Pair>, p: Pair, i: nat)
    requires i < |pairs| && pairs[i].name == p.name
    requires forall j :: 0 <= j < |pairs| && j != i ==> pairs[j].name != p.name
    ensures SetPair(pairs, p) == pairs[i := p]
  {
    if i == 0 {
      NothingWithout(pairs[1..], p.name);
    } else {
      SetOver(pairs[1..], p, i - 1);
    }
  }

  lemma {:induction false} NothingWithout(pairs: seq<Pair>, name: string)
    requires forall p :: p in pairs ==> p.name != name
    ensures Without(pairs, name) == pairs
  {
    if pairs != [] {
      NothingWithout(pairs[1..], name);
    }
  }

  ghost predicate DistinctNames(pairs: seq<Pair>) {
    forall i, j :: 0 <= i < j < |pairs| ==> pairs[i].name != pairs[j].name
  }

  /** Distinct names are never overwritten. */
  lemma {:induction false} SetAllDistinct(pairs: seq<Pair>, news: seq<Pair>)
    requires DistinctNames(pairs + news)
    ensures SetAll(pairs, news) == pairs + news
    decreases |news|
  {
    if news == [] {
      assert pairs + news == pairs;
    } else {
      var all := pairs + news;
      assert forall i :: 0 <= i < |pairs| ==> all[i] == pairs[i];
      assert all[|pairs|] == news[0];
      SetNew(pairs, news[0]);
      assert (pairs + [news[0]]) + news[1..] == all;
      SetAllDistinct(pairs + [news[0]], news[1..]);
    }
  }

  class SearchParams {
    var pairs: seq<Pair>

    constructor ()
      ensures pairs == []
    {
      pairs := [];
    }

    method Assign(name: string, text: string)
      modifies this
      ensures pairs == SetPair(old(pairs), Pair(name, text))
    {
      pairs := SetPair(pairs, Pair(name, text));
    }
  }

  // ----- the encoder -----

  /** The leaves of the value encoded under `key`. */
  function Named(key: string, leaves: seq<Leaf>): (r: seq<Pair>)
    ensures |r| == |leaves|
    ensures forall i :: 0 <= i < |r| ==> r[i] == Pair(key + Suffix(leaves[i].path), leaves[i].text)
  {
    seq(|leaves|, i requires 0 <= i < |leaves| => Pair(key + Suffix(leaves[i].path), leaves[i].text))
  }

  lemma NamedUnder(key: string, child: string, leaves: seq<Leaf>)
    ensures Named(key, Under(child, leaves)) == Named(Bracketed(key, child), leaves)
  {
    var xs, ys := Named(key, Under(child, leaves)), Named(Bracketed(key, child), leaves);
    forall i | 0 <= i < |leaves| ensures xs[i] == ys[i] {
      var path := leaves[i].path;
      assert ([child] + path)[1..] == path;
      assert Suffix([child] + path) == "[" + child + "]" + Suffix(path);
      assert key + ("[" + child + "]" + Suffix(path)) == (key + "[" + child + "]") + Suffix(path);
    }
  }

  /** Encoding entry `i` and then the later ones is encoding from entry `i` on. */
  lemma NamedStep(pairs: seq<Pair>, key: string, v: Value, i: nat, keepEmpty: bool)
    requires i < |Entries(v)|
    ensures SetAll(pairs, Named(key, LeavesFrom(v, i, keepEmpty)))
         == SetAll(SetAll(pairs, Named(Bracketed(key, Entries(v)[i].key), Leaves(Entries(v)[i].value, keepEmpty))),
                   Named(key, LeavesFrom(v, i + 1, keepEmpty)))
  {
    hide Suffix;
    hide SetPair;
    var e := Entries(v)[i];
    var first, rest := Under(e.key, Leaves(e.value, keepEmpty)), LeavesFrom(v, i + 1, keepEmpty);
    NamedUnder(key, e.key, Leaves(e.value, keepEmpty));
    assert Named(key, first + rest) == Named(key, first) + Named(key, rest);
    SetAllConcat(pairs, Named(key, first), Named(key, rest));
  }

  /** One value under its key, with the array branch that inlines an item's own entries. */
  method AppendValue(q: SearchParams, key: string, value: Value, keepEmpty: bool)
    modifies q
    ensures q.pairs == SetAll(old(q.pairs), Named(key, Leaves(value, keepEmpty)))
    decreases value, 1
  {
    hide SetPair;
    hide Suffix;
    if value.Undefined? {
      return;
    }
    if value.Null? || value == Scalar("") {
      if keepEmpty {
        LeafNamed(q.pairs, key, "");
        q.Assign(key, "");
      }
      return;
    }
    if value.Array? {
      for index := 0 to |value.items|
        invariant SetAll(q.pairs, Named(key, LeavesFrom(value, index, keepEmpty)))
               == SetAll(old(q.pairs), Named(key, Leaves(value, keepEmpty)))
      {
        var item := value.items[index];
        NamedStep(q.pairs, key, value, index, keepEmpty);
        if IsBranch(item) {
          AppendEntries(q, Bracketed(key, Decimal(index)), item, keepEmpty);
        } else {
          AppendValue(q, Bracketed(key, Decimal(index)), item, keepEmpty);
        }
      }
      return;
    }
    if value.Object? {
      AppendEntries(q, key, value, keepEmpty);
      return;
    }
    LeafNamed(q.pairs, key, value.text);
    q.Assign(key, value.text);
  }

  /** `Object.entries(value).forEach(…)` */
  method AppendEntries(q: SearchParams, key: string, value: Value, keepEmpty: bool)
    requires IsBranch(value)
    modifies q
    ensures q.pairs == SetAll(old(q.pairs), Named(key, Leaves(value, keepEmpty)))
    decreases value, 0
  {
    hide SetPair;
    hide Suffix;
    var entries := Entries(value);
    for index := 0 to |entries|
      invariant SetAll(q.pairs, Named(key, LeavesFrom(value, index, keepEmpty)))
             == SetAll(old(q.pairs), Named(key, Leaves(value, keepEmpty)))
    {
      NamedStep(q.pairs, key, value, index, keepEmpty);
      AppendValue(q, Bracketed(key, entries[index].key), entries[index].value, keepEmpty);
    }
  }

  lemma LeafNamed(pairs: seq<Pair>, key: string, text: string)
    ensures SetAll(pairs, Named(key, [Leaf([], text)])) == SetPair(pairs, Pair(key, text))
  {
    assert Named(key, [Leaf([], text)])[0] == Pair(key, text);
  }

  // ----- whole requests -----

  /** The leaves of a request under their names. */
  function RootPairs(leaves: seq<Leaf>): (r: seq<Pair>)
    requires forall l :: l in leaves ==> l.path != []
    ensures |r| == |leaves|
    ensures forall i :: 0 <= i < |r| ==> r[i] == Pair(NameOf(leaves[i].path), leaves[i].text)
  {
    seq(|leaves|, i requires 0 <= i < |leaves| => Pair(NameOf(leaves[i].path), leaves[i].text))
  }

  lemma {:induction false} RootedFrom(v: Value, i: nat, keepEmpty: bool)
    requires i <= |Entries(v)|
    ensures forall l :: l in LeavesFrom(v, i, keepEmpty) ==> l.path != []
    decreases |Entries(v)| - i
  {
    if i < |Entries(v)| {
      RootedFrom(v, i + 1, keepEmpty);
    }
  }

  /** What the parameters leave in the query string. */
  function Sent(params: seq<Entry>, keepEmpty: bool): seq<Pair> {
    RootedFrom(Object(params), 0, keepEmpty);
    SetAll([], RootPairs(Leaves(Object(params), keepEmpty)))
  }

  /** The stored credential goes last, unless the parameters already carry one. */
  function WithAuth(pairs: seq<Pair>, auth: string): seq<Pair> {
    if auth != "" && !HasName(pairs, "auth_data") then SetPair(pairs, Pair("auth_data", auth)) else pairs
  }

  lemma RootStep(pairs: seq<Pair>, params: seq<Entry>, i: nat, keepEmpty: bool)
    requires i < |params|
    requires forall l :: l in LeavesFrom(Object(params), i, keepEmpty) ==> l.path != []
    requires forall l :: l in LeavesFrom(Object(params), i + 1, keepEmpty) ==> l.path != []
    ensures SetAll(pairs, RootPairs(LeavesFrom(Object(params), i, keepEmpty)))
         == SetAll(SetAll(pairs, Named(params[i].key, Leaves(params[i].value, keepEmpty))),
                   RootPairs(LeavesFrom(Object(params), i + 1, keepEmpty)))
  {
    hide Suffix;
    hide SetPair;
    var e := params[i];
    var inner := Leaves(e.value, keepEmpty);
    var first, rest := Under(e.key, inner), LeavesFrom(Object(params), i + 1, keepEmpty);
    assert LeavesFrom(Object(params), i, keepEmpty) == first + rest;
    forall l | l in first ensures l.path != [] {
    }
    forall k | 0 <= k < |inner| ensures RootPairs(first)[k] == Named(e.key, inner)[k] {
      assert first[k].path[1..] == inner[k].path;
    }
    assert RootPairs(first) == Named(e.key, inner);
    assert RootPairs(first + rest) == RootPairs(first) + RootPairs(rest);
    SetAllConcat(pairs, RootPairs(first), RootPairs(rest));
  }

  method ToQuery(params: seq<Entry>, keepEmpty: bool, auth: string) returns (q: SearchParams)
    ensures fresh(q) && q.pairs == WithAuth(Sent(params, keepEmpty), auth)
  {
    hide SetPair;
    hide Suffix;
    hide HasName;
    hide Leaves;
    hide LeavesFrom;
    hide Sent;
    LastLeaves(params, keepEmpty);
    q := new SearchParams();
    RootedFrom(Object(params), 0, keepEmpty);
    SentFrom(params, keepEmpty);
    for i := 0 to |params|
      invariant forall l :: l in LeavesFrom(Object(params), i, keepEmpty) ==> l.path != []
      invariant SetAll(q.pairs, RootPairs(LeavesFrom(Object(params), i, keepEmpty))) == Sent(params, keepEmpty)
    {
      RootedFrom(Object(params), i + 1, keepEmpty);
      RootStep(q.pairs, params, i, keepEmpty);
      AppendValue(q, params[i].key, params[i].value, keepEmpty);
    }
    if auth != "" && !HasName(q.pairs, "auth_data") {
      q.Assign("auth_data", auth);
    }
  }

  lemma LastLeaves(params: seq<Entry>, keepEmpty: bool)
    ensures LeavesFrom(Object(params), |params|, keepEmpty) == []
  {
  }

  lemma SentFrom(params: seq<Entry>, keepEmpty: bool)
    requires forall l :: l in LeavesFrom(Object(params), 0, keepEmpty) ==> l.path != []
    ensures Sent(params, keepEmpty) == SetAll([], RootPairs(LeavesFrom(Object(params), 0, keepEmpty)))
  {
  }

  /** The names the Mini App refuses. */
  predicate IsCredential(key: string) {
    key in ["auth_data", "token", "init_data"]
  }

  lemma CredentialNames()
    ensures forall key :: IsCredential(key) <==> key == "auth_data" || key == "token" || key == "init_data"
  {
  }

  /** None when the Mini App refuses the parameters. */
  method MiniQuery(params: seq<Entry>, keepEmpty: bool) returns (r: Option<SearchParams>)
    ensures r.Some? <==> forall e :: e in params ==> e.key != "auth_data" && e.key != "token" && e.key != "init_data"
    ensures r.Some? ==> fresh(r.value) && r.value.pairs == Sent(params, keepEmpty)
  {
    CredentialNames();
    hide SetPair;
    hide Suffix;
    hide IsCredential;
    hide Leaves;
    hide LeavesFrom;
    hide Sent;
    LastLeaves(params, keepEmpty);
    var q := new SearchParams();
    RootedFrom(Object(params), 0, keepEmpty);
    SentFrom(params, keepEmpty);
    for i := 0 to |params|
      invariant forall l :: l in LeavesFrom(Object(params), i, keepEmpty) ==> l.path != []
      invariant SetAll(q.pairs, RootPairs(LeavesFrom(Object(params), i, keepEmpty))) == Sent(params, keepEmpty)
      invariant forall k :: 0 <= k < i ==> !IsCredential(params[k].key)
    {
      if IsCredential(params[i].key) {
        return None;
      }
      RootedFrom(Object(params), i + 1, keepEmpty);
      RootStep(q.pairs, params, i, keepEmpty);
      AppendValue(q, params[i].key, params[i].value, keepEmpty);
    }
    return Some(q);
  }

  // ----- what a request means -----

  /** No root key contains `[` and no key below contains `]`. */
  ghost predicate ReadableKeys(v: Value, root: bool)
    decreases v
  {
    forall i :: 0 <= i < |Entries(v)| ==>
      && (if root then '[' else ']') !in Entries(v)[i].key
      && ReadableKeys(Entries(v)[i].value, false)
  }

  lemma {:induction false} LeavesReadable(v: Value, path: seq<string>, root: bool, keepEmpty: bool)
    requires ReadableKeys(v, root) && LeafAt(v, path, keepEmpty).Some?
    ensures path != [] ==> (if root then '[' else ']') !in path[0] && forall p :: p in path[1..] ==> ']' !in p
    decreases |path|
  {
    if path != [] {
      var e := FindEntry(Entries(v), path[0]).value;
      var i :| 0 <= i < |Entries(v)| && Entries(v)[i] == e;
      LeavesReadable(e.value, path[1..], false, keepEmpty);
      if |path| > 1 {
        assert path[1..] == [path[1]] + path[2..] && path[1..][1..] == path[2..];
      }
    }
  }

  lemma LeafReadable(params: seq<Entry>, keepEmpty: bool, l: Leaf)
    requires WellFormed(Object(params)) && ReadableKeys(Object(params), true)
    requires l.path != [] && l in Leaves(Object(params), keepEmpty)
    ensures Readable(l.path)
  {
    hide WellFormed;
    hide ReadableKeys;
    hide Leaves;
    hide LeafAt;
    assert l == Leaf(l.path, l.text);
    LeavesAt(Object(params), keepEmpty, l.path, l.text);
    LeavesReadable(Object(params), l.path, true, keepEmpty);
  }

  lemma NamesDistinct(leaves: seq<Leaf>)
    requires forall l :: l in leaves ==> l.path != []
    requires forall i :: 0 <= i < |leaves| ==> ParseName(NameOf(leaves[i].path)) == Some(leaves[i].path)
    requires DistinctPaths(leaves)
    ensures DistinctNames(RootPairs(leaves))
  {
    hide NameOf;
    hide ParseName;
    var pairs := RootPairs(leaves);
    forall i, j | 0 <= i < j < |pairs| ensures pairs[i].name != pairs[j].name {
      assert leaves[i].path != leaves[j].path;
      assert ParseName(pairs[i].name) == Some(leaves[i].path) && ParseName(pairs[j].name) == Some(leaves[j].path);
    }
  }

  lemma LeavesOfRoot(params: seq<Entry>, keepEmpty: bool)
    ensures Leaves(Object(params), keepEmpty) == LeavesFrom(Object(params), 0, keepEmpty)
  {
  }

  /** The pair a name and text stand for. */
  function Decode(p: Pair): Option<Leaf> {
    match ParseName(p.name)
    case None => None
    case Some(path) => Some(Leaf(path, p.text))
  }

  /**
   With readable keys nothing is overwritten: the query string holds the tree's
   leaves in preorder, and every pair decodes to its leaf.
   */
  lemma SentDecodes(params: seq<Entry>, keepEmpty: bool)
    requires WellFormed(Object(params)) && ReadableKeys(Object(params), true)
    ensures var leaves := Leaves(Object(params), keepEmpty); var pairs := Sent(params, keepEmpty);
            |pairs| == |leaves| && forall i :: 0 <= i < |pairs| ==> Decode(pairs[i]) == Some(leaves[i])
    ensures var leaves := Leaves(Object(params), keepEmpty); var pairs := Sent(params, keepEmpty);
            forall i :: 0 <= i < |pairs| ==> Readable(leaves[i].path) && pairs[i].name == NameOf(leaves[i].path)
  {
    hide SetPair;
    hide NameOf;
    hide ParseName;
    hide Leaves;
    hide WellFormed;
    hide ReadableKeys;
    hide Readable;
    hide Sent;
    hide DistinctPaths;
    hide DistinctNames;
    var tree := Object(params);
    var leaves := Leaves(tree, keepEmpty);
    RootedFrom(tree, 0, keepEmpty);
    SentFrom(params, keepEmpty);
    LeavesOfRoot(params, keepEmpty);
    var pairs := RootPairs(leaves);
    forall i | 0 <= i < |leaves| ensures Readable(leaves[i].path) && ParseName(pairs[i].name) == Some(leaves[i].path) {
      LeafReadable(params, keepEmpty, leaves[i]);
      NameParses(leaves[i].path);
    }
    LeavesDistinct(tree, keepEmpty);
    NamesDistinct(leaves);
    assert [] + pairs == pairs;
    SetAllDistinct([], pairs);
  }

  /** A name is sent with a text exactly when the tree has that leaf with that text. */
  lemma SentAt(params: seq<Entry>, keepEmpty: bool, path: seq<string>, text: string)
    requires WellFormed(Object(params)) && ReadableKeys(Object(params), true) && Readable(path)
    ensures Pair(NameOf(path), text) in Sent(params, keepEmpty) <==> LeafAt(Object(params), path, keepEmpty) == Some(text)
  {
    hide Leaves;
    hide Sent;
    hide LeafAt;
    hide WellFormed;
    hide ReadableKeys;
    hide NameOf;
    hide ParseName;
    var leaves, pairs := Leaves(Object(params), keepEmpty), Sent(params, keepEmpty);
    SentDecodes(params, keepEmpty);
    LeavesAt(Object(params), keepEmpty, path, text);
    NameParses(path);
    if Pair(NameOf(path), text) in pairs {
      var i :| 0 <= i < |pairs| && pairs[i] == Pair(NameOf(path), text);
      assert Decode(pairs[i]) == Some(Leaf(path, text));
    }
    if Leaf(path, text) in leaves {
      var i :| 0 <= i < |leaves| && leaves[i] == Leaf(path, text);
      assert pairs[i] == Pair(NameOf(path), text) by {
        assert Decode(pairs[i]) == Some(leaves[i]);
      }
    }
  }

  /** The credential is added, last, exactly when there is one and the parameters hold no `auth_data` leaf. */
  lemma AuthIsLast(params: seq<Entry>, keepEmpty: bool, auth: string)
    requires WellFormed(Object(params)) && ReadableKeys(Object(params), true)
    ensures WithAuth(Sent(params, keepEmpty), auth) == Sent(params, keepEmpty) +
              if auth != "" && LeafAt(Object(params), ["auth_data"], keepEmpty).None? then [Pair("auth_data", auth)] else []
  {
    hide Sent;
    hide LeafAt;
    hide WellFormed;
    hide ReadableKeys;
    hide SetPair;
    var pairs := Sent(params, keepEmpty);
    var path := ["auth_data"];
    assert Readable(path);
    assert NameOf(path) == "auth_data";
    var held := LeafAt(Object(params), path, keepEmpty);
    if HasName(pairs, "auth_data") {
      var i :| 0 <= i < |pairs| && pairs[i].name == "auth_data";
      assert pairs[i] == Pair("auth_data", pairs[i].text);
      SentAt(params, keepEmpty, path, pairs[i].text);
    } else {
      SetNew(pairs, Pair("auth_data", auth));
      if held.Some? {
        SentAt(params, keepEmpty, path, held.value);
      }
    }
  }

  /** Equal query strings come from trees that hold the same leaves (a credential among them aside). */
  lemma QueryInjective(xs: seq<Entry>, ys: seq<Entry>, keepEmpty: bool, auth: string, path: seq<string>)
    requires WellFormed(Object(xs)) && ReadableKeys(Object(xs), true)
    requires WellFormed(Object(ys)) && ReadableKeys(Object(ys), true)
    requires WithAuth(Sent(xs, keepEmpty), auth) == WithAuth(Sent(ys, keepEmpty), auth)
    requires Readable(path) && path != ["auth_data"]
    ensures LeafAt(Object(xs), path, keepEmpty) == LeafAt(Object(ys), path, keepEmpty)
  {
    hide Sent;
    hide LeafAt;
    hide WellFormed;
    hide ReadableKeys;
    hide WithAuth;
    hide NameOf;
    AuthIsLast(xs, keepEmpty, auth);
    AuthIsLast(ys, keepEmpty, auth);
    assert NameOf(path) != "auth_data" by {
      NameParses(path);
      NameParses(["auth_data"]);
      AuthName();
    }
    var x, y := LeafAt(Object(xs), path, keepEmpty), LeafAt(Object(ys), path, keepEmpty);
    if x.Some? {
      SentAt(xs, keepEmpty, path, x.value);
      SentAt(ys, keepEmpty, path, x.value);
      assert Pair(NameOf(path), x.value) in WithAuth(Sent(xs, keepEmpty), auth);
    }
    if y.Some? {
      SentAt(xs, keepEmpty, path, y.value);
      SentAt(ys, keepEmpty, path, y.value);
      assert Pair(NameOf(path), y.value) in WithAuth(Sent(ys, keepEmpty), auth);
    }
  }

  lemma AuthName()
    ensures NameOf(["auth_data"]) == "auth_data"
  {
    assert Suffix([]) == "";
  }

  /** `{ a: { b: "1" }, "a[b]": "2" }` */
  function Colliding(): seq<Entry> {
    [Entry("a", Object([Entry("b", Scalar("1"))])), Entry("a[b]", Scalar("2"))]
  }

  lemma CollidingLeaves()
    ensures LeavesFrom(Object(Colliding()), 0, false) == [Leaf(["a", "b"], "1"), Leaf(["a[b]"], "2")]
  {
    var tree, inner := Object(Colliding()), Colliding()[0].value;
    var none: seq<string> := [];
    assert ["b"] + none == ["b"] && ["a[b]"] + none == ["a[b]"] && ["a"] + ["b"] == ["a", "b"];
    assert LeavesFrom(inner, 1, false) == [] && LeavesFrom(tree, 2, false) == [];
    assert Entries(inner)[0] == Entry("b", Scalar("1"));
    assert Leaves(inner, false) == Under("b", [Leaf([], "1")]) == [Leaf(["b"], "1")];
    assert LeavesFrom(tree, 1, false) == Under("a[b]", [Leaf([], "2")]) == [Leaf(["a[b]"], "2")];
    assert LeavesFrom(tree, 0, false) == Under("a", [Leaf(["b"], "1")]) + [Leaf(["a[b]"], "2")];
  }

  lemma LaterSurvives()
    ensures SetAll([], [Pair("a[b]", "1"), Pair("a[b]", "2")]) == [Pair("a[b]", "2")]
  {
    assert SetPair([], Pair("a[b]", "1")) == [Pair("a[b]", "1")];
    assert SetPair([Pair("a[b]", "1")], Pair("a[b]", "2")) == [Pair("a[b]", "2")];
  }

  /** Keys with brackets can collide: the later leaf replaces the earlier one. */
  lemma BracketsCollide()
    ensures WellFormed(Object(Colliding())) && |Leaves(Object(Colliding()), false)| == 2
    ensures Sent(Colliding(), false) == [Pair("a[b]", "2")]
  {
    CollidingLeaves();
    hide LeavesFrom;
    RootedFrom(Object(Colliding()), 0, false);
    SentFrom(Colliding(), false);
    var leaves := [Leaf(["a", "b"], "1"), Leaf(["a[b]"], "2")];
    assert NameOf(leaves[0].path) == "a[b]" == NameOf(leaves[1].path) by {
      assert leaves[0].path[1..] == ["b"];
      assert Suffix([]) == "";
      assert Suffix(["b"]) == "[b]";
    }
    hide Suffix;
    assert RootPairs(leaves) == [Pair("a[b]", "1"), Pair("a[b]", "2")];
    LaterSurvives();
    hide SetAll;
  }

  /** Whatever the parameters, a query the Mini App builds names no credential. */
  lemma {:induction false} MiniQueryNamesNoCredential(params: seq<Entry>, keepEmpty: bool)
    requires forall e :: e in params ==> e.key != "auth_data" && e.key != "token" && e.key != "init_data"
    ensures forall p :: p in Sent(params, keepEmpty) ==> p.name != "auth_data" && p.name != "token" && p.name != "init_data"
  {
    CredentialNames();
    hide IsCredential;
    hide NameOf;
    hide SetPair;
    hide Leaves;
    var tree := Object(params);
    RootedFrom(tree, 0, keepEmpty);
    SentFrom(params, keepEmpty);
    var leaves := LeavesFrom(tree, 0, keepEmpty);
    var pairs := RootPairs(leaves);
    forall p | p in pairs ensures !IsCredential(p.name) {
      var i :| 0 <= i < |pairs| && pairs[i] == p;
      RootOfLeaf(params, 0, keepEmpty, leaves[i]);
      NotCredential(leaves[i].path);
    }
    SetAllNames([], pairs);
  }

  lemma NotCredential(path: seq<string>)
    requires path != [] && !IsCredential(path[0])
    ensures !IsCredential(NameOf(path))
  {
    SuffixEnds(path[1..]);
    if path[1..] == [] {
      assert NameOf(path) == path[0];
    } else {
      assert NameOf(path)[|NameOf(path)| - 1] == ']';
    }
  }

  lemma {:induction false} RootOfLeaf(params: seq<Entry>, i: nat, keepEmpty: bool, l: Leaf)
    requires i <= |params| && l in LeavesFrom(Object(params), i, keepEmpty)
    ensures l.path != [] && exists e :: e in params && e.key == l.path[0]
    decreases |params| - i
  {
    if i < |params| {
      if l in Under(params[i].key, Leaves(params[i].value, keepEmpty)) {
        assert params[i] in params;
      } else {
        RootOfLeaf(params, i + 1, keepEmpty, l);
      }
    }
  }

  lemma {:induction false} SuffixEnds(path: seq<string>)
    ensures path != [] ==> Suffix(path) != "" && Suffix(path)[|Suffix(path)| - 1] == ']'
  {
    if path != [] {
      SuffixEnds(path[1..]);
    }
  }

  lemma {:induction false} SetNames(pairs: seq<Pair>, p: Pair)
    ensures forall x :: x in SetPair(pairs, p) ==> x in pairs || x == p
  {
    if pairs != [] {
      WithoutNames(pairs[1..], p.name);
      SetNames(pairs[1..], p);
    }
  }

  lemma {:induction false} WithoutNames(pairs: seq<Pair>, name: string)
    ensures forall x :: x in Without(pairs, name) ==> x in pairs
  {
    if pairs != [] {
      WithoutNames(pairs[1..], name);
    }
  }

  lemma {:induction false} SetAllNames(pairs: seq<Pair>, news: seq<Pair>)
    ensures forall x :: x in SetAll(pairs, news) ==> x in pairs || x in news
    decreases |news|
  {
    if news != [] {
      SetNames(pairs, news[0]);
      SetAllNames(SetPair(pairs, news[0]), news[1..]);
    }
  }
}
