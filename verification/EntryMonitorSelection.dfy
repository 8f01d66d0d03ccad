/**
 What a selection holds after the user ticks rules, stated on the keys and the
 rules alone.
 */
module EntryMonitorSelection {

  import opened Sequences
  import opened EntryMonitorModel
  import opened EntryMonitorTab

  /** The positive offered keys, each at its first occurrence. */
  function Picked(offered: set<int>, keys: seq<int>): seq<int> {
    if keys == [] then []
    else
      var before, last := Picked(offered, keys[..|keys| - 1]), keys[|keys| - 1];
      if last > 0 && last in offered && last !in before then before + [last] else before
  }

  /** The selection an edit of it leaves. */
  function SelectionAfter(offered: set<int>, selected: seq<int>, edit: Edit): seq<int>
    requires !edit.ChangeDraft?
  {
    match edit
    case SelectPolicies(keys) => Picked(offered, keys)
    case SelectPolicy(id, on) => if on then Picked(offered, selected + [id]) else Picked(offered - {id}, selected)
  }

  function Positive(): int -> bool {
    (id: int) => id > 0
  }

  lemma FilterLast(keep: int -> bool, xs: seq<int>, x: int)
    ensures Filter(keep, xs + [x]) == if keep(x) then Filter(keep, xs) + [x] else Filter(keep, xs)
  {
    FilterConcat(keep, xs, [x]);
    FilterUnit(keep, x);
  }

  lemma PickedLast(offered: set<int>, keys: seq<int>, last: int)
    ensures var before := Picked(offered, keys);
            Picked(offered, keys + [last]) == if last > 0 && last in offered && last !in before then before + [last] else before
  {
    assert (keys + [last])[..|keys|] == keys;
  }

  lemma {:induction false} ChoosesPicked(offered: set<int>, keys: seq<int>)
    ensures Filter(Within(offered), FirstWins(Identity, Filter(Positive(), keys))) == Picked(offered, keys)
  {
    if keys != [] {
      hide FirstWins;
      hide Filter;
      hide Picked;
      hide HasKey;
      var before, last := keys[..|keys| - 1], keys[|keys| - 1];
      ChoosesPicked(offered, before);
      assert keys == before + [last];
      FilterLast(Positive(), before, last);
      PickedLast(offered, before, last);
      var positive := Filter(Positive(), before);
      if last > 0 {
        FirstWinsAppend(Identity, positive, last);
        FirstWinsKeys(Identity, positive);
        HasKeyIn(last, FirstWins(Identity, positive));
        FilterLast(Within(offered), FirstWins(Identity, positive), last);
      }
    }
  }

  lemma HasKeyIn(id: int, ids: seq<int>)
    ensures HasKey(Identity, id, ids) <==> id in ids
  {
    if id in ids {
      var i :| 0 <= i < |ids| && ids[i] == id;
      assert Identity(ids[i]) == id;
    }
  }

  lemma {:induction false} PickedWithout(offered: set<int>, selected: seq<int>, id: int)
    ensures Picked(offered, Filter((other: int) => other != id, selected)) == Picked(offered - {id}, selected)
  {
    if selected != [] {
      hide Filter;
      hide Picked;
      var before, last := selected[..|selected| - 1], selected[|selected| - 1];
      PickedWithout(offered, before, id);
      assert selected == before + [last];
      var keep := (other: int) => other != id;
      FilterLast(keep, before, last);
      PickedLast(offered, Filter(keep, before), last);
      PickedLast(offered - {id}, before, last);
    }
  }

  /** The tab's own edits leave exactly that selection. */
  lemma EditPicks(t: Tab, edit: Edit)
    requires !edit.ChangeDraft?
    ensures Edited(t, edit).selected == SelectionAfter(SelectableIDs(t.policies), t.selected, edit)
  {
    hide SelectableIDs;
    hide FirstWins;
    hide Picked;
    var offered := SelectableIDs(t.policies);
    var keys := match edit
      case SelectPolicies(keys) => keys
      case SelectPolicy(id, on) => (if on then t.selected + [id] else Filter((other: int) => other != id, t.selected))
      case ChangeDraft(_, _) => [];
    ChoosesPicked(offered, keys);
    PickedWithout(offered, t.selected, if edit.SelectPolicy? then edit.id else 0);
    PositiveSame(keys);
    hide Filter;
  }

  lemma PositiveSame(keys: seq<int>)
    ensures UniqueIDs(keys) == FirstWins(Identity, Filter(Positive(), keys))
  {
    FilterSame(Positive(), (id: int) => id > 0, keys);
    hide FirstWins;
    hide Filter;
  }

  // ----- what a pick is -----

  function FirstAt(keys: seq<int>, id: int): (n: nat)
    ensures n <= |keys|
    ensures id in keys <==> n < |keys|
  {
    if keys == [] || keys[0] == id then 0
    else assert keys == [keys[0]] + keys[1..]; 1 + FirstAt(keys[1..], id)
  }

  /** A rule of this id is enabled, not hidden, and has an address to monitor. */
  ghost predicate Monitorable(policies: seq<Policy>, id: int) {
    exists p :: p in policies && p.id == id && Selectable(p)
  }

  /** Exactly the positive monitorable keys but for `without`, in the order of their first occurrences. */
  ghost predicate PicksFrom(r: seq<int>, keys: seq<int>, policies: seq<Policy>, without: set<int>) {
    && (forall id :: id in r <==> id in keys && id !in without && id > 0 && Monitorable(policies, id))
    && (forall i, j :: 0 <= i < j < |r| ==> FirstAt(keys, r[i]) < FirstAt(keys, r[j]))
  }

  lemma {:induction false} FirstAtAppend(keys: seq<int>, last: int, id: int)
    ensures FirstAt(keys + [last], id) == if id in keys then FirstAt(keys, id) else if id == last then |keys| else |keys| + 1
  {
    if keys == [] {
      assert [] + [last] == [last];
    } else {
      assert (keys + [last])[1..] == keys[1..] + [last];
      assert keys == [keys[0]] + keys[1..];
      FirstAtAppend(keys[1..], last, id);
    }
  }

  lemma {:induction false} PickedMembers(offered: set<int>, keys: seq<int>)
    ensures forall id :: id in Picked(offered, keys) <==> id in keys && id > 0 && id in offered
  {
    if keys != [] {
      PickedMembers(offered, keys[..|keys| - 1]);
      assert keys == keys[..|keys| - 1] + [keys[|keys| - 1]];
    }
  }

  lemma {:induction false} PickedOrder(offered: set<int>, keys: seq<int>)
    ensures var r := Picked(offered, keys);
            forall i, j :: 0 <= i < j < |r| ==> FirstAt(keys, r[i]) < FirstAt(keys, r[j])
  {
    if keys != [] {
      hide Picked;
      hide FirstAt;
      var before, last := keys[..|keys| - 1], keys[|keys| - 1];
      assert keys == before + [last];
      PickedOrder(offered, before);
      PickedMembers(offered, before);
      PickedLast(offered, before, last);
      var front, r := Picked(offered, before), Picked(offered, keys);
      forall i, j | 0 <= i < j < |r| ensures FirstAt(keys, r[i]) < FirstAt(keys, r[j]) {
        FirstAtAppend(before, last, r[i]);
        FirstAtAppend(before, last, r[j]);
        assert r[i] == front[i] && front[i] in before;
        if j < |front| {
          assert r[j] == front[j] && front[j] in before;
        }
      }
    }
  }

  lemma OfferedIs(policies: seq<Policy>)
    ensures forall id :: id in SelectableIDs(policies) <==> Monitorable(policies, id)
  {
    hide Selectable;
  }

  lemma PickedPicks(policies: seq<Policy>, keys: seq<int>, without: set<int>)
    ensures PicksFrom(Picked(SelectableIDs(policies) - without, keys), keys, policies, without)
  {
    hide SelectableIDs;
    hide Monitorable;
    hide Picked;
    hide FirstAt;
    OfferedIs(policies);
    PickedMembers(SelectableIDs(policies) - without, keys);
    PickedOrder(SelectableIDs(policies) - without, keys);
  }

  /** After any edit of the selection: exactly the keys ticked that can be monitored, in their order. */
  lemma SelectionDecided(t: Tab, edit: Edit)
    requires !edit.ChangeDraft?
    ensures var r := SelectionAfter(SelectableIDs(t.policies), t.selected, edit);
            && (edit.SelectPolicies? ==> PicksFrom(r, edit.keys, t.policies, {}))
            && (edit.SelectPolicy? && edit.on ==> PicksFrom(r, t.selected + [edit.id], t.policies, {}))
            && (edit.SelectPolicy? && !edit.on ==> PicksFrom(r, t.selected, t.policies, {edit.id}))
  {
    hide SelectableIDs;
    hide PicksFrom;
    hide Picked;
    var offered := SelectableIDs(t.policies);
    assert offered - {} == offered;
    if edit.SelectPolicies? {
      PickedPicks(t.policies, edit.keys, {});
    } else if edit.on {
      PickedPicks(t.policies, t.selected + [edit.id], {});
    } else {
      PickedPicks(t.policies, t.selected, {edit.id});
    }
  }
}
