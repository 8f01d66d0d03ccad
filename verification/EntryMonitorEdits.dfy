/**
 What single steps of a tab show and send, stated on their fields: the one value
 an edit changes, the live data an answer brings, and the bodies that go out.
 */
module EntryMonitorEdits {

  import opened Options
  import opened JsText
  import opened Sequences
  import opened EntryMonitorModel
  import opened EntryMonitorTab
  import opened EntryMonitorSelection
  import opened EntryMonitorRuns

  // ----- what an edit changes -----

  /** Everything of a target but its port and its auto-split flag. */
  ghost predicate SameTarget(t: Target, u: Target) {
    u == t.(port := u.port, autoSplit := u.autoSplit)
  }

  /** The draft differs from `d` at most in the one value. */
  ghost predicate DiffersIn(d: Draft, e: Draft, aspect: Aspect) {
    && e == d.(enabled := e.enabled, interval := e.interval, timeout := e.timeout, failures := e.failures,
               successes := e.successes, targets := e.targets)
    && (e.enabled == d.enabled || aspect.Enabled?)
    && (e.interval == d.interval || aspect.Interval?)
    && (e.timeout == d.timeout || aspect.Timeout?)
    && (e.failures == d.failures || aspect.Failures?)
    && (e.successes == d.successes || aspect.Successes?)
    && |e.targets| == |d.targets|
    && (forall i :: 0 <= i < |d.targets| ==>
          && SameTarget(d.targets[i], e.targets[i])
          && (e.targets[i].port == d.targets[i].port || aspect == PortOf(d.targets[i].key))
          && (e.targets[i].autoSplit == d.targets[i].autoSplit || aspect == AutoSplitOf(d.targets[i].key)))
  }

  lemma ChangeDiffers(d: Draft, change: Change)
    ensures DiffersIn(d, Changed(d, change), AspectOf(change))
  {
  }

  /** An edit changes its own value, in its own draft, and nothing else of the tab but the marks that it was edited. */
  lemma EditChangesOneValue(t: Tab, edit: Edit)
    ensures var u := Edited(t, edit);
            && u == t.(drafts := u.drafts, selected := u.selected, editVersion := u.editVersion, dirty := u.dirty)
            && (edit.ChangeDraft? ==> u.selected == t.selected && u.drafts.Keys == t.drafts.Keys)
            && (!edit.ChangeDraft? ==> u.drafts == t.drafts)
            && (edit.ChangeDraft? && edit.id !in t.drafts ==> u == t)
            && (!edit.ChangeDraft? || edit.id in t.drafts ==> u.dirty && u.editVersion == t.editVersion + 1)
    ensures edit.ChangeDraft? ==>
              forall id :: id in t.drafts ==>
                if id == edit.id then DiffersIn(t.drafts[id], Edited(t, edit).drafts[id], AspectOf(edit.change))
                else Edited(t, edit).drafts[id] == t.drafts[id]
  {
    hide SelectableIDs;
    hide Changed;
    hide DiffersIn;
    hide AspectOf;
    if edit.ChangeDraft? && edit.id in t.drafts {
      ChangeDiffers(t.drafts[edit.id], edit.change);
    }
  }

  // ----- the live data an answer brings -----

  /** The target has the live data of `l`. */
  ghost predicate LiveOf(t: Target, l: Target) {
    l.key == t.key && t.id == l.id && t.sort == l.sort && t.states == l.states && (l.host != "" ==> t.host == l.host)
  }

  /** The draft shows the live data of `live`: its names, and under every key of its targets their data. */
  ghost predicate ShowsLive(d: Draft, live: Draft) {
    && d.policyName == live.policyName && d.action == live.action
    && (forall t :: t in live.targets ==> t.key in KeysOf(d.targets))
    && (forall t :: t in d.targets && t.key in KeysOf(live.targets) ==>
          exists l :: l in live.targets && LiveOf(t, l))
  }

  /** The tab shows the rules of the payload and every draft's live data. */
  ghost predicate ShowsPayload(t: Tab, payload: Payload) {
    var c := Normalize(payload);
    && t.loaded && t.policies == c.policies
    && (forall id :: id in c.drafts ==> id in t.drafts && ShowsLive(t.drafts[id], c.drafts[id]))
  }

  lemma SameShows(d: Draft)
    ensures ShowsLive(d, d)
  {
    forall t | t in d.targets ensures LiveOf(t, t) {
      SelfLive(t);
    }
  }

  lemma RefreshShows(was: Target, live: seq<Target>)
    requires was.key in KeysOf(live)
    ensures exists l :: l in live && LiveOf(Refresh(was, live), l)
  {
    var l := LastWithKey(live, was.key).value;
    assert l in live && LiveOf(Refresh(was, live), l);
  }

  lemma MergeShows(existing: Draft, live: Draft)
    ensures ShowsLive(MergeDraft(existing, live), live)
  {
    hide MergeTargets;
    hide Refresh;
    hide LiveOf;
    var merged := MergeTargets(existing.targets, live.targets);
    MergeMembers(existing.targets, live.targets);
    forall t | t in merged && t.key in KeysOf(live.targets) ensures exists l :: l in live.targets && LiveOf(t, l) {
      if t in live.targets {
        SelfLive(t);
      } else {
        var was :| was in existing.targets && t == Refresh(was, live.targets);
        RefreshShows(was, live.targets);
      }
    }
  }

  lemma SelfLive(t: Target)
    ensures LiveOf(t, t)
  {
  }

  /** Whatever is unsaved, the answer still wanted brings its rules and live data; any other leaves the tab alone. */
  lemma AnswerShowsLive(w: World, sequence: nat, payload: Payload)
    requires sequence in w.fetches
    ensures var t := Next(w, FetchLands(sequence, payload)).tab;
            if sequence == w.tab.sequence then ShowsPayload(t, payload) else t == w.tab
  {
    hide Normalize;
    hide MergeDraft;
    hide ShowsLive;
    var c := Normalize(payload);
    forall id | id in c.drafts ensures ShowsLive(c.drafts[id], c.drafts[id]) {
      SameShows(c.drafts[id]);
    }
    forall id | id in c.drafts && id in w.tab.drafts ensures ShowsLive(MergeDraft(w.tab.drafts[id], c.drafts[id]), c.drafts[id]) {
      MergeShows(w.tab.drafts[id], c.drafts[id]);
    }
  }

  /** So does the answer to a save, edited meanwhile or not. */
  lemma ReceiptShowsLive(w: World, payload: Payload)
    requires w.save.Some?
    ensures ShowsPayload(Next(w, SaveLands(payload)).tab, payload)
  {
    hide Normalize;
    hide MergeDraft;
    hide ShowsLive;
    var c := Normalize(payload);
    forall id | id in c.drafts ensures ShowsLive(c.drafts[id], c.drafts[id]) {
      SameShows(c.drafts[id]);
    }
    forall id | id in c.drafts && id in w.tab.drafts ensures ShowsLive(MergeDraft(w.tab.drafts[id], c.drafts[id]), c.drafts[id]) {
      MergeShows(w.tab.drafts[id], c.drafts[id]);
    }
  }

  // ----- the bodies that go out -----

  /** The key of a fixed leaf: `policy:`, digits, `:split-group:`, digits, behind and in front of white space. */
  ghost predicate LeafKey(key: string) {
    exists a, b :: AllDigits(a) && AllDigits(b) && Trim(key) == LeafText(a, b)
  }

  function LeafText(a: string, b: string): string {
    "policy:" + (a + (":split-group:" + b))
  }

  const HEAD := "policy:"
  const MIDDLE := ":split-group:"

  lemma LeafReads(rest: string, a: string, b: string)
    requires rest == a + (MIDDLE + b) && AllDigits(a)
    ensures DigitRun(rest) == |a| > 0 && MIDDLE <= rest[|a|..] && rest[|a|..][|MIDDLE|..] == b
  {
    hide DigitRun;
    var tail := MIDDLE + b;
    assert forall c :: c in a ==> IsDigit(c);
    DigitRunOf(a, tail);
    assert rest[|a|..] == tail && tail[|MIDDLE|..] == b;
  }

  lemma LeafComesApart(rest: string, n: nat)
    requires n == DigitRun(rest) > 0 && MIDDLE <= rest[n..]
    ensures AllDigits(rest[..n]) && rest == rest[..n] + (MIDDLE + rest[n..][|MIDDLE|..])
  {
    hide DigitRun;
    assert rest == rest[..n] + rest[n..];
    assert rest[n..] == MIDDLE + rest[n..][|MIDDLE|..];
  }

  lemma LeafKeys(key: string)
    ensures IsSplitLeaf(key) <==> LeafKey(key)
  {
    hide Trim;
    hide DigitRun;
    hide AllDigits;
    var s := Trim(key);
    if IsSplitLeaf(key) {
      var rest := s[|HEAD|..];
      var n := DigitRun(rest);
      LeafComesApart(rest, n);
      assert s == LeafText(rest[..n], rest[n..][|MIDDLE|..]);
    }
    if LeafKey(key) {
      var a, b :| AllDigits(a) && AllDigits(b) && s == LeafText(a, b);
      var rest := a + (MIDDLE + b);
      assert s == HEAD + rest && s[|HEAD|..] == rest;
      LeafReads(rest, a, b);
    }
  }

  /** What the server may be sent for one target. */
  ghost predicate TargetInRange(key: string, port: int, autoSplit: bool) {
    key != "" && 1 <= port <= 65535 && (autoSplit ==> LeafKey(key))
  }

  /** What the server may be sent for one rule. */
  ghost predicate InRange(i: SaveItem) {
    && 5 <= i.interval <= 3600 && 100 <= i.timeout <= 60000 && 2 <= i.failures <= 10 && 1 <= i.successes <= 10
    && i.targets != []
    && (forall t :: t in i.targets ==> TargetInRange(t.key, t.port, t.autoSplit))
  }

  /** The rule is still one to monitor, its draft's body is in range, and every target has a host. */
  ghost predicate Fit(t: Tab, id: int) {
    && PolicyFor(t.policies, id).Some? && Selectable(PolicyFor(t.policies, id).value)
    && id in t.drafts && InRange(ItemBody(id, t.drafts[id]))
    && (forall x :: x in t.drafts[id].targets ==> x.host != "")
  }

  lemma SendableFits(t: Tab, id: int)
    ensures Sendable(t.policies, t.drafts, id) <==> Fit(t, id)
  {
    hide Selectable;
    hide IsSplitLeaf;
    hide LeafKey;
    hide PolicyFor;
    if id in t.drafts {
      var ts := t.drafts[id].targets;
      var bodies := Map(TargetBody, ts);
      assert ItemBody(id, t.drafts[id]).targets == bodies;
      forall x | x in ts ensures TargetBody(x) in bodies {
        var i :| 0 <= i < |ts| && ts[i] == x;
        assert bodies[i] == TargetBody(x);
      }
      forall b | b in bodies ensures exists x :: x in ts && TargetBody(x) == b {
        var i :| 0 <= i < |bodies| && bodies[i] == b;
        assert ts[i] in ts;
      }
      forall x | x in ts ensures IsSplitLeaf(x.key) <==> LeafKey(x.key) {
        LeafKeys(x.key);
      }
      assert bodies != [] <==> ts != [];
      hide Map;
    }
  }

  /** A save goes out, from a tab with none in flight, exactly when every selected rule fits. */
  lemma SaveSendsFit(w: World)
    requires Inv(w) && Possible(w, PressSave) && w.save.None?
    ensures Next(w, PressSave).save.Some? <==> forall id :: id in w.tab.selected ==> Fit(w.tab, id)
    ensures Next(w, PressSave).save.Some? ==>
              var request := Next(w, PressSave).save.value.request;
              && request.revision == w.tab.revision && |request.items| == |w.tab.selected|
              && (forall i :: 0 <= i < |request.items| ==>
                    w.tab.selected[i] in w.tab.drafts && request.items[i] == ItemBody(w.tab.selected[i], w.tab.drafts[w.tab.selected[i]]))
  {
    hide Sendable;
    hide Fit;
    hide ItemBody;
    hide EnabledAmong;
    hide BaseTracked;
    hide RunsNameSaved;
    hide SaveCaptured;
    forall id ensures Sendable(w.tab.policies, w.tab.drafts, id) <==> Fit(w.tab, id) {
      SendableFits(w.tab, id);
    }
    if AllSendable(w.tab) {
      SendableDrafts(w.tab);
    }
  }

  /** The body in flight is in range, and a run it is for has something to run. */
  ghost predicate SentSound(w: World) {
    && (w.save.Some? ==>
          && (forall i :: i in w.save.value.request.items ==> InRange(i))
          && (w.save.value.forRun ==> w.save.value.request.enabledPolicyIDs != []))
    && (forall p :: p in w.posted ==> p.policyIDs != [])
  }

  lemma RequestSound(t: Tab)
    requires SaveWanted(t).Some?
    ensures forall i :: i in SaveWanted(t).value.items ==> InRange(i)
  {
    hide InRange;
    hide Sendable;
    hide ItemBody;
    hide EnabledAmong;
    SendableDrafts(t);
    var items := ItemBodies(t.selected, t.drafts);
    forall i | i in items ensures InRange(i) {
      var k :| 0 <= k < |items| && items[k] == i;
      assert Sendable(t.policies, t.drafts, t.selected[k]);
      FitInRange(t, t.selected[k]);
    }
  }

  lemma RunNamesRule(t: Tab)
    requires SaveWanted(t).Some? && RunWanted(t)
    ensures SaveWanted(t).value.enabledPolicyIDs != []
  {
    hide AllSendable;
    hide ItemBodies;
    var k :| 0 <= k < |t.selected| && t.selected[k] in t.drafts && t.drafts[t.selected[k]].enabled;
    assert t.selected[k] in EnabledAmong(t.selected, t.drafts);
    hide EnabledAmong;
  }

  lemma FitInRange(t: Tab, id: int)
    requires Sendable(t.policies, t.drafts, id)
    ensures id in t.drafts && InRange(ItemBody(id, t.drafts[id]))
  {
    SendableFits(t, id);
    hide Sendable;
    hide InRange;
  }

  lemma NextSound(w: World, e: Event)
    requires Inv(w) && SentSound(w) && Possible(w, e)
    ensures SentSound(Next(w, e))
  {
    hide Normalize;
    hide InRange;
    if e.PressSave? || e.PressRun? {
      PressSends(w, e);
      if Next(w, e) != w {
        RequestSound(w.tab);
        if e.PressRun? {
          RunNamesRule(w.tab);
        }
      }
      hide Next;
      hide SaveWanted;
      hide Inv;
    } else {
      OthersSound(w, e);
      hide Next;
      hide Inv;
    }
  }

  lemma OthersSound(w: World, e: Event)
    requires SentSound(w) && Possible(w, e) && !e.PressSave? && !e.PressRun?
    ensures SentSound(Next(w, e))
  {
    hide Normalize;
    hide InRange;
    hide Edited;
    hide FetchLanded;
    hide SaveLanded;
  }

  lemma {:induction false} RunSound(w: World, events: seq<Event>)
    requires Inv(w) && SentSound(w) && ValidRun(w, events)
    ensures SentSound(After(w, events))
    decreases |events|
  {
    hide Inv;
    hide SentSound;
    hide Next;
    hide Possible;
    if events != [] {
      NextInv(w, events[0]);
      NextSound(w, events[0]);
      RunSound(Next(w, events[0]), events[1..]);
    }
  }

  /** In every run, every body in flight is in the ranges the server takes, and every posted detection run names a rule. */
  lemma SentInRange(events: seq<Event>)
    requires ValidRun(START, events)
    ensures var w := After(START, events);
            && (w.save.Some? ==> forall i :: i in w.save.value.request.items ==> InRange(i))
            && (forall p :: p in w.posted ==> p.policyIDs != [])
  {
    StartInv();
    RunSound(START, events);
  }
}
