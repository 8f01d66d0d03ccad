/**
 Array idioms the panel uses everywhere: `map`, `filter`, and the first-wins
 deduplication `filter((x, i, all) => all.findIndex(same key) === i)`.
 */
module Sequences {

  function Map<A, B>(f: A -> B, xs: seq<A>): (ys: seq<B>)
    ensures |ys| == |xs|
    ensures forall i :: 0 <= i < |xs| ==> ys[i] == f(xs[i])
  {
    if xs == [] then [] else [f(xs[0])] + Map(f, xs[1..])
  }

  function Filter<A(!new)>(keep: A -> bool, xs: seq<A>): (ys: seq<A>)
    ensures forall y :: y in ys <==> y in xs && keep(y)
  {
    if xs == [] then []
    else (if keep(xs[0]) then [xs[0]] else []) + Filter(keep, xs[1..])
  }

  lemma {:induction false} FilterConcat<A(!new)>(keep: A -> bool, xs: seq<A>, ys: seq<A>)
    ensures Filter(keep, xs + ys) == Filter(keep, xs) + Filter(keep, ys)
  {
    if xs == [] {
      assert xs + ys == ys;
    } else {
      assert (xs + ys)[1..] == xs[1..] + ys;
      FilterConcat(keep, xs[1..], ys);
    }
  }

  lemma FilterUnit<A(!new)>(keep: A -> bool, x: A)
    ensures Filter(keep, [x]) == if keep(x) then [x] else []
    ensures Filter(keep, []) == []
  {
  }

  lemma FilterCons<A(!new)>(keep: A -> bool, x: A, xs: seq<A>)
    ensures Filter(keep, [x] + xs) == if keep(x) then [x] + Filter(keep, xs) else Filter(keep, xs)
  {
    assert ([x] + xs)[1..] == xs;
  }

  lemma {:induction false} FilterNone<A(!new)>(keep: A -> bool, xs: seq<A>)
    requires forall x :: x in xs ==> !keep(x)
    ensures Filter(keep, xs) == []
  {
    if xs != [] {
      FilterNone(keep, xs[1..]);
    }
  }

  lemma {:induction false} FilterSame<A(!new)>(p: A -> bool, q: A -> bool, xs: seq<A>)
    requires forall x :: x in xs ==> p(x) == q(x)
    ensures Filter(p, xs) == Filter(q, xs)
  {
    if xs != [] {
      FilterSame(p, q, xs[1..]);
    }
  }

  /** No two positions carry the same key. */
  ghost predicate DistinctBy<A, K>(key: A -> K, xs: seq<A>) {
    forall i, j :: 0 <= i < j < |xs| ==> key(xs[i]) != key(xs[j])
  }

  ghost predicate HasKey<A, K>(key: A -> K, k: K, xs: seq<A>) {
    exists i :: 0 <= i < |xs| && key(xs[i]) == k
  }

  /** Keep an element exactly when no earlier element carries its key. */
  function FirstWins<A, K(==)>(key: A -> K, xs: seq<A>): (ys: seq<A>)
  {
    if xs == [] then []
    else
      var before := xs[..|xs| - 1];
      var last := xs[|xs| - 1];
      if exists i :: 0 <= i < |before| && key(before[i]) == key(last) then FirstWins(key, before)
      else FirstWins(key, before) + [last]
  }

  lemma HasKeyConcat<A, K>(key: A -> K, k: K, xs: seq<A>, ys: seq<A>)
    ensures HasKey(key, k, xs + ys) <==> HasKey(key, k, xs) || HasKey(key, k, ys)
  {
    var both := xs + ys;
    forall i | 0 <= i < |both| && key(both[i]) == k ensures HasKey(key, k, xs) || HasKey(key, k, ys) {
      if i < |xs| {
        assert key(xs[i]) == k;
      } else {
        assert key(ys[i - |xs|]) == k;
      }
    }
    forall i | 0 <= i < |xs| && key(xs[i]) == k ensures HasKey(key, k, both) {
      assert key(both[i]) == k;
    }
    forall i | 0 <= i < |ys| && key(ys[i]) == k ensures HasKey(key, k, both) {
      assert key(both[|xs| + i]) == k;
    }
  }

  lemma FirstWinsAppend<A, K>(key: A -> K, xs: seq<A>, x: A)
    ensures FirstWins(key, xs + [x]) == FirstWins(key, xs) + if HasKey(key, key(x), xs) then [] else [x]
  {
    assert (xs + [x])[..|xs|] == xs;
  }

  lemma HasKeyOne<A, K>(key: A -> K, k: K, x: A)
    ensures HasKey(key, k, [x]) <==> key(x) == k
  {
    assert [x][0] == x;
  }

  lemma DistinctAppend<A, K>(key: A -> K, xs: seq<A>, x: A)
    requires DistinctBy(key, xs) && !HasKey(key, key(x), xs)
    ensures DistinctBy(key, xs + [x])
  {
    var all := xs + [x];
    forall i, j | 0 <= i < j < |all| ensures key(all[i]) != key(all[j]) {
      assert all[i] == xs[i];
    }
  }

  lemma {:induction false} FirstWinsKeys<A(!new), K(!new)>(key: A -> K, xs: seq<A>)
    ensures DistinctBy(key, FirstWins(key, xs))
    ensures forall k :: HasKey(key, k, FirstWins(key, xs)) <==> HasKey(key, k, xs)
    ensures forall y :: y in FirstWins(key, xs) ==> y in xs
  {
    if xs != [] {
      hide DistinctBy;
      hide HasKey;
      var before, last := xs[..|xs| - 1], xs[|xs| - 1];
      FirstWinsKeys(key, before);
      var kept := FirstWins(key, before);
      FirstWinsAppend(key, before, last);
      assert before + [last] == xs;
      if !HasKey(key, key(last), before) {
        DistinctAppend(key, kept, last);
      }
      forall k ensures HasKey(key, k, FirstWins(key, xs)) <==> HasKey(key, k, xs) {
        HasKeyConcat(key, k, before, [last]);
        HasKeyConcat(key, k, kept, [last]);
        HasKeyOne(key, k, last);
      }
    }
  }

  lemma {:induction false} FirstWinsFixes<A, K>(key: A -> K, xs: seq<A>)
    requires DistinctBy(key, xs)
    ensures FirstWins(key, xs) == xs
  {
    if xs != [] {
      FirstWinsFixes(key, xs[..|xs| - 1]);
      assert xs == xs[..|xs| - 1] + [xs[|xs| - 1]];
    }
  }

  ghost function Unseen<A, K(!new)>(key: A -> K, seen: seq<A>): A -> bool {
    y => !HasKey(key, key(y), seen)
  }

  /** Deduplicating a concatenation keeps the left part and what is new on the right. */
  lemma {:induction false} FirstWinsConcat<A(!new), K(!new)>(key: A -> K, xs: seq<A>, ys: seq<A>)
    ensures FirstWins(key, xs + ys) == FirstWins(key, xs) + Filter(Unseen(key, xs), FirstWins(key, ys))
  {
    hide Filter;
    if ys == [] {
      assert xs + ys == xs;
      FilterNone(Unseen(key, xs), ys);
    } else {
      var before, last := ys[..|ys| - 1], ys[|ys| - 1];
      var unseen := Unseen(key, xs);
      var new1 := if HasKey(key, key(last), xs + before) then [] else [last];
      var new2 := if HasKey(key, key(last), before) then [] else [last];
      var dx, db := FirstWins(key, xs), FirstWins(key, before);
      assert new1 == Filter(unseen, new2) by {
        HasKeyConcat(key, key(last), xs, before);
        FilterUnit(unseen, last);
      }
      calc {
        FirstWins(key, xs + ys);
        { assert xs + ys == (xs + before) + [last]; FirstWinsAppend(key, xs + before, last); }
        FirstWins(key, xs + before) + new1;
        { FirstWinsConcat(key, xs, before); }
        dx + Filter(unseen, db) + Filter(unseen, new2);
        dx + (Filter(unseen, db) + Filter(unseen, new2));
        { FilterConcat(unseen, db, new2); }
        dx + Filter(unseen, db + new2);
        { assert ys == before + [last]; FirstWinsAppend(key, before, last); }
        dx + Filter(unseen, FirstWins(key, ys));
      }
    }
  }

  /** Deduplicating the parts first changes nothing. */
  lemma FirstWinsAbsorbs<A(!new), K(!new)>(key: A -> K, xs: seq<A>, ys: seq<A>)
    ensures FirstWins(key, FirstWins(key, xs) + FirstWins(key, ys)) == FirstWins(key, xs + ys)
  {
    var dx, dy := FirstWins(key, xs), FirstWins(key, ys);
    FirstWinsKeys(key, xs);
    FirstWinsKeys(key, ys);
    FirstWinsFixes(key, dx);
    FirstWinsFixes(key, dy);
    FirstWinsConcat(key, dx, dy);
    FirstWinsConcat(key, xs, ys);
    FilterSame(Unseen(key, dx), Unseen(key, xs), dy);
  }
}
