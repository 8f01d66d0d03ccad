/**
 Runs of one entry-monitor tab. Polls, edits, saves and detection runs start
 whenever they like; every request in flight may be answered, fail or never
 settle, in any order.
 */
module EntryMonitorRuns {

  import opened Options
  import opened Sequences
  import opened EntryMonitorModel
  import opened EntryMonitorTab
  import opened EntryMonitorSelection

  /** A save between its request and its response; `base` is what the tab stood on when it went out. */
  datatype PendingSave = PendingSave(id: nat, request: SaveRequest, forRun: bool, base: Option<Payload>)

  /** A detection run the tab posted, and which successful save it followed. */
  datatype RunPost = RunPost(policyIDs: seq<int>, save: nat)

  /**
   The tab, its requests in flight, and the history the properties speak of:
   `base` is the last payload installed wholesale or returned by the tab's own
   save, `saved` the saves that succeeded, `posted` the runs posted.
   `fetches` maps a request's sequence number to the edit version it captured.
   */
  datatype World = World(
    tab: Tab, fetches: map<nat, nat>, save: Option<PendingSave>, posting: bool, saves: nat,
    base: Option<Payload>, saved: seq<SaveRequest>, posted: seq<RunPost>)

  const START := World(FRESH_TAB, map[], None, false, 0, None, [], [])

  datatype Event =
    | Poll
    | FetchLands(sequence: nat, payload: Payload)
    | FetchFails(sequence: nat)
    | UserEdits(edit: Edit)
    | PressSave
    | SaveLands(payload: Payload)
    | SaveFails
    | PressRun
    | RunSettles

  /**
   What the page lets happen: rules to edit are listed once a configuration is
   loaded, and the save button answers while there is something to save and no
   detection run is under way.
   */
  ghost predicate Possible(w: World, e: Event) {
    match e
    case UserEdits(_) => w.tab.loaded
    case PressSave => w.tab.dirty && !w.tab.running
    case FetchLands(sequence, _) => sequence in w.fetches
    case FetchFails(sequence) => sequence in w.fetches
    case SaveLands(_) => w.save.Some?
    case SaveFails => w.save.Some?
    case RunSettles => w.posting
    case _ => true
  }

  ghost function RequestOf(w: World, sequence: nat): FetchRequest
    requires sequence in w.fetches
  {
    FetchRequest(sequence, w.fetches[sequence])
  }

  /** The response of this request will be taken over wholesale. */
  ghost predicate Installs(w: World, sequence: nat)
    requires sequence in w.fetches
  {
    sequence == w.tab.sequence && !PreserveEdits(w.tab, RequestOf(w, sequence))
  }

  ghost function Sent(w: World, next: Tab, forRun: bool): World {
    match SaveWanted(w.tab)
    case None => w.(tab := next)
    case Some(request) =>
      w.(tab := next, saves := w.saves + 1, save := Some(PendingSave(w.saves, request, forRun, w.base)))
  }

  ghost function Next(w: World, e: Event): World
    requires Possible(w, e)
  {
    match e
    case Poll =>
      w.(tab := FetchBegun(w.tab), fetches := w.fetches[w.tab.sequence + 1 := w.tab.editVersion])
    case FetchLands(sequence, payload) =>
      w.(tab := FetchLanded(w.tab, RequestOf(w, sequence), payload), fetches := w.fetches - {sequence},
         base := if Installs(w, sequence) then Some(payload) else w.base)
    case FetchFails(sequence) => w.(fetches := w.fetches - {sequence})
    case UserEdits(edit) => w.(tab := Edited(w.tab, edit))
    case PressSave => Sent(w, SaveBegun(w.tab), false)
    case SaveLands(payload) =>
      var pending := w.save.value;
      w.(tab := SaveLanded(w.tab, pending.request, payload), save := None, base := Some(payload),
         saved := w.saved + [pending.request], posting := w.posting || pending.forRun,
         posted := if pending.forRun then w.posted + [RunPost(pending.request.enabledPolicyIDs, |w.saved|)] else w.posted)
    case SaveFails =>
      w.(tab := SaveFailed(w.tab).(running := w.tab.running && !w.save.value.forRun), save := None)
    case PressRun =>
      if !RunWanted(w.tab) then w
      else Sent(w, SaveBegun(w.tab).(running := SaveWanted(w.tab).Some?), true)
    case RunSettles => w.(tab := w.tab.(running := false), posting := false)
  }

  ghost predicate ValidRun(w: World, events: seq<Event>)
    decreases |events|
  {
    events == [] || (Possible(w, events[0]) && ValidRun(Next(w, events[0]), events[1..]))
  }

  ghost function After(w: World, events: seq<Event>): World
    requires ValidRun(w, events)
    decreases |events|
  {
    if events == [] then w else After(Next(w, events[0]), events[1..])
  }

  // ----- the invariant -----

  /** Responses in flight are older than the counters they captured. */
  ghost predicate FetchesBounded(w: World) {
    forall s :: s in w.fetches ==> s <= w.tab.sequence && w.fetches[s] <= w.tab.editVersion
  }

  /** For the request that is still live, a changed edit version shows as `dirty`. */
  ghost predicate GuardsAgree(w: World) {
    w.tab.sequence in w.fetches && w.fetches[w.tab.sequence] != w.tab.editVersion ==> w.tab.dirty
  }

  /** `saving` and `running` mirror what is in flight. */
  ghost predicate FlagsMirror(w: World) {
    && (w.tab.saving <==> w.save.Some?)
    && (w.tab.running <==> w.posting || (w.save.Some? && w.save.value.forRun))
    && !(w.posting && w.save.Some? && w.save.value.forRun)
  }

  ghost predicate SaveCaptured(w: World) {
    w.save.Some? ==>
      var p := w.save.value;
      && p.id < w.saves
      && p.request.editVersion <= w.tab.editVersion
      && (p.request.editVersion != w.tab.editVersion ==> w.tab.dirty)
      && p.base.Some?
      && p.request.revision == RevisionOf(p.base)
      && p.request.enabledPolicyIDs == EnabledItems(p.request.items)
  }

  ghost function RevisionOf(base: Option<Payload>): int {
    if base.None? then 0 else Normalize(base.value).revision
  }

  /** The tab shows exactly the normalised image of one payload. */
  ghost predicate Synced(t: Tab, payload: Payload) {
    var c := Normalize(payload);
    && t.policies == c.policies
    && t.drafts == c.drafts
    && t.selected == c.configured
    && t.revision == c.revision
  }

  ghost predicate BaseTracked(w: World) {
    && w.tab.revision == RevisionOf(w.base)
    && (w.tab.loaded <==> w.base.Some?)
    && (w.tab.dirty ==> w.tab.loaded)
    && (w.tab.loaded && !w.tab.dirty ==> Synced(w.tab, w.base.value))
    && (!w.tab.loaded ==> w.tab.drafts == map[] && w.tab.selected == [])
  }

  /** Rules enabled in a save body, in its order. */
  function EnabledItems(items: seq<SaveItem>): seq<int> {
    Map((i: SaveItem) => i.policyID, Filter((i: SaveItem) => i.enabled, items))
  }

  /** Each posted run names the enabled rules of the body its own save sent, one run per save. */
  ghost predicate RunsNameSaved(posted: seq<RunPost>, saved: seq<SaveRequest>) {
    && (forall i :: 0 <= i < |posted| ==>
          posted[i].save < |saved| && posted[i].policyIDs == EnabledItems(saved[posted[i].save].items))
    && (forall i, j :: 0 <= i < j < |posted| ==> posted[i].save < posted[j].save)
  }

  ghost predicate Inv(w: World) {
    && FetchesBounded(w)
    && GuardsAgree(w)
    && FlagsMirror(w)
    && SaveCaptured(w)
    && BaseTracked(w)
    && RunsNameSaved(w.posted, w.saved)
  }

  lemma {:induction false} EnabledAmongItems(ids: seq<int>, drafts: Drafts)
    requires forall i :: 0 <= i < |ids| ==> ids[i] in drafts
    ensures EnabledAmong(ids, drafts) == EnabledItems(ItemBodies(ids, drafts))
  {
    if ids != [] {
      EnabledAmongItems(ids[1..], drafts);
      var items := ItemBodies(ids, drafts);
      assert items[1..] == ItemBodies(ids[1..], drafts);
      assert items[0] == ItemBody(ids[0], drafts[ids[0]]);
    }
  }

  /** A save body carries the revision, edit version and enabled rules of the state it was taken from. */
  lemma SaveWantedBody(w: World)
    requires Inv(w) && SaveWanted(w.tab).Some?
    ensures var request := SaveWanted(w.tab).value;
            && !w.tab.saving
            && request.editVersion == w.tab.editVersion
            && request.revision == RevisionOf(w.base)
            && request.enabledPolicyIDs == EnabledItems(request.items)
  {
    SendableDrafts(w.tab);
    EnabledAmongItems(w.tab.selected, w.tab.drafts);
  }

  lemma StartInv()
    ensures Inv(START)
  {
  }

  /** Pressing a button changes nothing in the tab but its flags and the request counter. */
  lemma PressFrame(w: World, e: Event)
    requires Inv(w) && Possible(w, e) && (e.PressSave? || e.PressRun?)
    ensures var t := Next(w, e).tab;
            && t == w.tab.(saving := t.saving, running := t.running, sequence := t.sequence)
            && w.tab.sequence <= t.sequence
            && Next(w, e).fetches == w.fetches && Next(w, e).base == w.base
  {
    hide SaveWanted;
    hide Inv;
    hide FetchLanded;
    hide SaveLanded;
    hide Edited;
  }

  ghost function WithSave(w: World, request: SaveRequest, forRun: bool): World {
    w.(tab := w.tab.(saving := true, running := w.tab.running || forRun, sequence := w.tab.sequence + 1),
       saves := w.saves + 1, save := Some(PendingSave(w.saves, request, forRun, w.base)))
  }

  lemma WithSaveInv(w: World, request: SaveRequest, forRun: bool)
    requires Inv(w) && !w.tab.saving && (forRun ==> !w.tab.running)
    requires request.editVersion == w.tab.editVersion
    requires w.base.Some? && request.revision == RevisionOf(w.base)
    requires request.enabledPolicyIDs == EnabledItems(request.items)
    ensures Inv(WithSave(w, request, forRun))
  {
    hide EnabledItems;
    hide Normalize;
    hide RunsNameSaved;
  }

  lemma PressSends(w: World, e: Event)
    requires Inv(w) && Possible(w, e) && (e.PressSave? || e.PressRun?)
    ensures Next(w, e) == w ||
            (SaveWanted(w.tab).Some? && (e.PressRun? ==> RunWanted(w.tab))
             && Next(w, e) == WithSave(w, SaveWanted(w.tab).value, e.PressRun?))
  {
    hide SaveWanted;
    hide FetchLanded;
    hide SaveLanded;
    hide Edited;
    hide BaseTracked;
    hide RunsNameSaved;
    hide SaveCaptured;
    hide AllSendable;
  }

  /** Whoever presses a button that sends stands on a loaded configuration. */
  lemma PressLoaded(w: World, e: Event)
    requires Inv(w) && Possible(w, e) && (e.PressSave? || (e.PressRun? && RunWanted(w.tab)))
    ensures w.base.Some?
  {
    hide RunsNameSaved;
    hide SaveCaptured;
    hide Normalize;
  }

  lemma PressInv(w: World, e: Event)
    requires Inv(w) && Possible(w, e) && (e.PressSave? || e.PressRun?)
    ensures Inv(Next(w, e))
  {
    hide Next;
    hide EnabledItems;
    hide Inv;
    hide RevisionOf;
    hide SaveWanted;
    hide WithSave;
    PressSends(w, e);
    if Next(w, e) != w {
      SaveWantedBody(w);
      PressLoaded(w, e);
      WithSaveInv(w, SaveWanted(w.tab).value, e.PressRun?);
    }
  }

  lemma PollInv(w: World)
    requires Inv(w)
    ensures Inv(Next(w, Poll))
  {
    hide EnabledItems;
    hide Normalize;
  }

  lemma FetchLandsInv(w: World, sequence: nat, payload: Payload)
    requires Inv(w) && sequence in w.fetches
    ensures Inv(Next(w, FetchLands(sequence, payload)))
  {
    hide EnabledItems;
    hide Normalize;
    hide Merged;
  }

  lemma EditInv(w: World, edit: Edit)
    requires Inv(w) && w.tab.loaded
    ensures Inv(Next(w, UserEdits(edit)))
  {
    hide EnabledItems;
    hide Normalize;
    hide Changed;
    EditedFrame(w.tab, edit);
  }

  /** An edit either does nothing or marks the tab edited; it touches drafts and selection only. */
  lemma EditedFrame(t: Tab, edit: Edit)
    ensures Edited(t, edit) == t ||
            Edited(t, edit) == MarkEdited(t.(drafts := Edited(t, edit).drafts, selected := Edited(t, edit).selected))
  {
    hide Changed;
    hide SelectableIDs;
  }

  lemma SaveLandsRuns(w: World, payload: Payload)
    requires Inv(w) && w.save.Some?
    ensures RunsNameSaved(Next(w, SaveLands(payload)).posted, Next(w, SaveLands(payload)).saved)
  {
    hide EnabledItems;
    hide SaveLanded;
    hide BaseTracked;
    hide FetchesBounded;
  }

  lemma SaveLandsCounters(w: World, payload: Payload)
    requires Inv(w) && w.save.Some?
    ensures FetchesBounded(Next(w, SaveLands(payload))) && GuardsAgree(Next(w, SaveLands(payload)))
    ensures FlagsMirror(Next(w, SaveLands(payload))) && SaveCaptured(Next(w, SaveLands(payload)))
  {
    hide Normalize;
    hide Merged;
    hide RunsNameSaved;
    hide BaseTracked;
    hide EnabledItems;
  }

  lemma SaveLandsBase(w: World, payload: Payload)
    requires Inv(w) && w.save.Some?
    ensures BaseTracked(Next(w, SaveLands(payload)))
  {
    hide Normalize;
    hide Merged;
    hide RunsNameSaved;
    hide FetchesBounded;
    hide EnabledItems;
  }

  lemma SaveLandsInv(w: World, payload: Payload)
    requires Inv(w) && w.save.Some?
    ensures Inv(Next(w, SaveLands(payload)))
  {
    SaveLandsRuns(w, payload);
    SaveLandsCounters(w, payload);
    SaveLandsBase(w, payload);
    hide Next;
    hide BaseTracked;
    hide RunsNameSaved;
    hide FetchesBounded;
    hide SaveCaptured;
    hide FlagsMirror;
    hide GuardsAgree;
  }

  lemma NextInv(w: World, e: Event)
    requires Inv(w) && Possible(w, e)
    ensures Inv(Next(w, e))
  {
    hide EnabledItems;
    hide Normalize;
    hide SaveBegun;
    hide Edited;
    match e {
      case Poll => PollInv(w);
      case FetchLands(sequence, payload) => FetchLandsInv(w, sequence, payload);
      case FetchFails(_) =>
      case UserEdits(edit) => EditInv(w, edit);
      case PressSave => PressInv(w, e);
      case SaveLands(payload) => SaveLandsInv(w, payload);
      case SaveFails =>
      case PressRun => PressInv(w, e);
      case RunSettles =>
    }
  }

  /** Every reachable state of every run satisfies the invariant. */
  lemma {:induction false} RunInv(w: World, events: seq<Event>)
    requires Inv(w) && ValidRun(w, events)
    ensures Inv(After(w, events))
    decreases |events|
  {
    if events != [] {
      NextInv(w, events[0]);
      RunInv(Next(w, events[0]), events[1..]);
    }
  }

  // ----- what every reachable state shows -----

  /** For the one request whose answer is still wanted, both halves of the preserve-edits guard say the same. */
  lemma GuardHalvesAgree(events: seq<Event>, sequence: nat)
    requires ValidRun(START, events)
    requires sequence in After(START, events).fetches && sequence == After(START, events).tab.sequence
    ensures var w := After(START, events);
            PreserveEdits(w.tab, RequestOf(w, sequence)) <==> w.tab.dirty
  {
    StartInv();
    RunInv(START, events);
  }

  /** A loaded tab without unsaved edits shows one single server payload, revision included. */
  lemma CleanTabIsSynced(events: seq<Event>)
    requires ValidRun(START, events)
    ensures var w := After(START, events);
            w.tab.loaded && !w.tab.dirty ==> w.base.Some? && Synced(w.tab, w.base.value)
  {
    StartInv();
    RunInv(START, events);
  }

  /**
   A save in flight carries the revision of the payload that was the tab's base
   when the save went out, and the tab always stands on its base's revision.
   */
  lemma SentRevisionIsBase(events: seq<Event>)
    requires ValidRun(START, events)
    ensures var w := After(START, events);
            && w.tab.revision == RevisionOf(w.base)
            && (w.save.Some? ==> w.save.value.request.revision == RevisionOf(w.save.value.base))
  {
    StartInv();
    RunInv(START, events);
  }

  /** Only a wholesale installation or the tab's own successful save moves its base; a poll over unsaved edits never does. */
  lemma BaseMoves(w: World, e: Event)
    requires Inv(w) && Possible(w, e)
    ensures Next(w, e).base != w.base || Next(w, e).tab.revision != w.tab.revision ==>
              || e.SaveLands?
              || (e.FetchLands? && e.sequence == w.tab.sequence && !w.tab.dirty)
  {
    hide Normalize;
    hide Merged;
    match e {
      case PressSave => PressFrame(w, e);
      case PressRun => PressFrame(w, e);
      case UserEdits(edit) => EditedFrame(w.tab, edit);
      case _ =>
    }
  }

  /** Each posted run names exactly the rules enabled in the body that its own, successful save sent; no save is run twice. */
  lemma PostedRunsNameSaved(events: seq<Event>)
    requires ValidRun(START, events)
    ensures RunsNameSaved(After(START, events).posted, After(START, events).saved)
  {
    StartInv();
    RunInv(START, events);
  }

  /** At most one save is in flight: while one is, neither button starts another. */
  lemma OneSaveInFlight(events: seq<Event>, e: Event)
    requires ValidRun(START, events)
    requires After(START, events).save.Some? && Possible(After(START, events), e) && (e.PressSave? || e.PressRun?)
    ensures Next(After(START, events), e) == After(START, events)
  {
    StartInv();
    RunInv(START, events);
  }

  // ----- responses requested before a save succeeded -----

  lemma SequenceGrows(w: World, e: Event)
    requires Inv(w) && Possible(w, e)
    ensures w.tab.sequence <= Next(w, e).tab.sequence
    ensures forall s :: s in Next(w, e).fetches ==> s in w.fetches || s > w.tab.sequence
    ensures forall s :: s in Next(w, e).fetches && s in w.fetches ==> Next(w, e).fetches[s] == w.fetches[s]
  {
    hide Normalize;
    hide Merged;
    match e {
      case PressSave => PressFrame(w, e);
      case PressRun => PressFrame(w, e);
      case UserEdits(edit) => EditedFrame(w.tab, edit);
      case _ =>
    }
  }

  lemma {:induction false} StaleStaysStale(w: World, events: seq<Event>, bound: nat)
    requires Inv(w) && ValidRun(w, events)
    requires forall s :: s in w.fetches && s <= bound ==> s < w.tab.sequence
    requires bound <= w.tab.sequence
    ensures forall s :: s in After(w, events).fetches && s <= bound ==> s < After(w, events).tab.sequence
    decreases |events|
  {
    if events != [] {
      NextInv(w, events[0]);
      SequenceGrows(w, events[0]);
      StaleStaysStale(Next(w, events[0]), events[1..], bound);
    }
  }

  /**
   After a save succeeds, every configuration response that is still accepted
   was requested after that success: the accepted sequence number did not exist
   then, and responses requested earlier leave the tab untouched.
   */
  lemma AcceptedAfterSave(before: seq<Event>, saved: Payload, events: seq<Event>, sequence: nat, payload: Payload)
    requires ValidRun(START, before) && After(START, before).save.Some?
    requires ValidRun(Next(After(START, before), SaveLands(saved)), events)
    requires sequence in After(Next(After(START, before), SaveLands(saved)), events).fetches
    ensures var atSuccess := Next(After(START, before), SaveLands(saved));
            var w := After(atSuccess, events);
            && (sequence == w.tab.sequence ==> sequence > atSuccess.tab.sequence)
            && (sequence <= atSuccess.tab.sequence ==> Next(w, FetchLands(sequence, payload)).tab == w.tab)
  {
    var w0 := After(START, before);
    StartInv();
    RunInv(START, before);
    var atSuccess := Next(w0, SaveLands(saved));
    SaveLandsInv(w0, saved);
    SuccessOutdatesFetches(w0, saved);
    StaleStaysStale(atSuccess, events, atSuccess.tab.sequence);
  }

  lemma SuccessOutdatesFetches(w: World, saved: Payload)
    requires Inv(w) && w.save.Some?
    ensures Next(w, SaveLands(saved)).tab.sequence == w.tab.sequence + 1
    ensures forall s :: s in Next(w, SaveLands(saved)).fetches ==> s < Next(w, SaveLands(saved)).tab.sequence
  {
    hide Normalize;
    hide Merged;
  }

  // ----- user-owned values -----

  /** A part of a draft the user owns. */
  datatype Aspect = Enabled | Interval | Timeout | Failures | Successes | PortOf(key: string) | AutoSplitOf(key: string)

  /** A value the user owns: what one edit sets and live data must not change. */
  datatype Slot = Selection | DraftSlot(id: int, aspect: Aspect)

  datatype SlotValue = Chosen(ids: seq<int>) | Switch(on: bool) | Amount(n: int)

  function AspectOf(change: Change): Aspect {
    match change
    case SetEnabled(_) => Enabled
    case SetInterval(_) => Interval
    case SetTimeout(_) => Timeout
    case SetFailures(_) => Failures
    case SetSuccesses(_) => Successes
    case SetPort(key, _) => PortOf(key)
    case SetAutoSplit(key, _) => AutoSplitOf(key)
  }

  function SlotOf(edit: Edit): Slot {
    if edit.ChangeDraft? then DraftSlot(edit.id, AspectOf(edit.change)) else Selection
  }

  /** Every target with the key carries the port (and there is one). */
  ghost predicate PortIs(ts: seq<Target>, key: string, v: SlotValue) {
    key in KeysOf(ts) && forall t :: t in ts && t.key == key ==> v == Amount(t.port)
  }

  ghost predicate AutoSplitIs(ts: seq<Target>, key: string, v: SlotValue) {
    key in KeysOf(ts) && forall t :: t in ts && t.key == key ==> v == Switch(t.autoSplit)
  }

  ghost predicate DraftHolds(d: Draft, aspect: Aspect, v: SlotValue) {
    match aspect
    case Enabled => v == Switch(d.enabled)
    case Interval => v == Amount(d.interval)
    case Timeout => v == Amount(d.timeout)
    case Failures => v == Amount(d.failures)
    case Successes => v == Amount(d.successes)
    case PortOf(key) => PortIs(d.targets, key, v)
    case AutoSplitOf(key) => AutoSplitIs(d.targets, key, v)
  }

  /** The tab holds the value `v` in the slot. */
  ghost predicate Holds(t: Tab, slot: Slot, v: SlotValue) {
    match slot
    case Selection => v == Chosen(t.selected)
    case DraftSlot(id, aspect) => id in t.drafts && DraftHolds(t.drafts[id], aspect, v)
  }

  lemma RefreshOwned(existing: seq<Target>, next: seq<Target>, key: string, v: SlotValue)
    ensures PortIs(existing, key, v) ==> PortIs(MergeTargets(existing, next), key, v)
    ensures AutoSplitIs(existing, key, v) ==> AutoSplitIs(MergeTargets(existing, next), key, v)
  {
    MergeMembers(existing, next);
  }

  lemma MergeDraftHolds(existing: Draft, next: Draft, aspect: Aspect, v: SlotValue)
    requires DraftHolds(existing, aspect, v)
    ensures DraftHolds(MergeDraft(existing, next), aspect, v)
  {
    hide MergeTargets;
    if aspect.PortOf? || aspect.AutoSplitOf? {
      RefreshOwned(existing.targets, next.targets, aspect.key, v);
    }
  }

  lemma OverlayHolds(t: Tab, c: Configuration, slot: Slot, v: SlotValue)
    requires Holds(t, slot, v)
    ensures Holds(Overlay(t, c), slot, v)
  {
    hide DraftHolds;
    hide MergeDraft;
    if slot.DraftSlot? && slot.id in c.drafts {
      MergeDraftHolds(t.drafts[slot.id], c.drafts[slot.id], slot.aspect, v);
    }
  }

  lemma PortKept(ts: seq<Target>, us: seq<Target>, key: string, v: SlotValue)
    requires |us| == |ts| && PortIs(ts, key, v)
    requires forall i :: 0 <= i < |ts| ==> us[i].key == ts[i].key && (ts[i].key == key ==> us[i].port == ts[i].port)
    ensures PortIs(us, key, v)
  {
    var t :| t in ts && t.key == key;
    var i :| 0 <= i < |ts| && ts[i] == t;
    assert us[i] in us;
  }

  lemma AutoSplitKept(ts: seq<Target>, us: seq<Target>, key: string, v: SlotValue)
    requires |us| == |ts| && AutoSplitIs(ts, key, v)
    requires forall i :: 0 <= i < |ts| ==> us[i].key == ts[i].key && (ts[i].key == key ==> us[i].autoSplit == ts[i].autoSplit)
    ensures AutoSplitIs(us, key, v)
  {
    var t :| t in ts && t.key == key;
    var i :| 0 <= i < |ts| && ts[i] == t;
    assert us[i] in us;
  }

  lemma OtherChangeHolds(d: Draft, change: Change, aspect: Aspect, v: SlotValue)
    requires AspectOf(change) != aspect && DraftHolds(d, aspect, v)
    ensures DraftHolds(Changed(d, change), aspect, v)
  {
    match aspect {
      case PortOf(key) =>
        hide PortIs;
        PortKept(d.targets, Changed(d, change).targets, key, v);
      case AutoSplitOf(key) =>
        hide AutoSplitIs;
        AutoSplitKept(d.targets, Changed(d, change).targets, key, v);
      case _ =>
    }
  }

  /** An edit of another slot leaves the value alone. */
  lemma OtherEditHolds(t: Tab, edit: Edit, slot: Slot, v: SlotValue)
    requires Holds(t, slot, v) && SlotOf(edit) != slot
    ensures Holds(Edited(t, edit), slot, v)
  {
    hide SelectableIDs;
    hide Changed;
    hide DraftHolds;
    hide AspectOf;
    if slot.DraftSlot? && edit.ChangeDraft? && edit.id == slot.id {
      OtherChangeHolds(t.drafts[slot.id], edit.change, slot.aspect, v);
    }
  }

  function ChangeValue(change: Change): SlotValue {
    match change
    case SetEnabled(on) => Switch(on)
    case SetInterval(amount) => Amount(amount)
    case SetTimeout(amount) => Amount(amount)
    case SetFailures(amount) => Amount(amount)
    case SetSuccesses(amount) => Amount(amount)
    case SetPort(_, amount) => Amount(amount)
    case SetAutoSplit(_, on) => Switch(on)
  }

  /** What an edit that takes effect leaves in its slot. */
  ghost function EditValue(t: Tab, edit: Edit): SlotValue {
    if edit.ChangeDraft? then ChangeValue(edit.change)
    else Chosen(SelectionAfter(SelectableIDs(t.policies), t.selected, edit))
  }

  ghost predicate TakesEffect(t: Tab, edit: Edit) {
    edit.ChangeDraft? ==>
      && edit.id in t.drafts
      && (edit.change.SetPort? || edit.change.SetAutoSplit? ==> edit.change.key in KeysOf(t.drafts[edit.id].targets))
  }

  lemma ChangeTakesHold(d: Draft, change: Change)
    requires change.SetPort? || change.SetAutoSplit? ==> change.key in KeysOf(d.targets)
    ensures DraftHolds(Changed(d, change), AspectOf(change), ChangeValue(change))
  {
    if change.SetPort? || change.SetAutoSplit? {
      var x :| x in d.targets && x.key == change.key;
      var i :| 0 <= i < |d.targets| && d.targets[i] == x;
      assert Changed(d, change).targets[i] in Changed(d, change).targets;
    }
  }

  lemma EditTakesHold(t: Tab, edit: Edit)
    requires TakesEffect(t, edit)
    ensures Holds(Edited(t, edit), SlotOf(edit), EditValue(t, edit))
    ensures Edited(t, edit).dirty && Edited(t, edit).editVersion == t.editVersion + 1
  {
    hide SelectableIDs;
    hide Changed;
    hide DraftHolds;
    hide AspectOf;
    hide ChangeValue;
    if edit.ChangeDraft? {
      ChangeTakesHold(t.drafts[edit.id], edit.change);
    } else {
      EditPicks(t, edit);
    }
  }

  /**
   The run neither edits the slot again nor contains the success of a save that
   captured edit version `version` or a later one.
   */
  ghost predicate Undisturbed(w: World, events: seq<Event>, slot: Slot, version: nat)
    requires ValidRun(w, events)
    decreases |events|
  {
    events == [] || (
      && (events[0].UserEdits? ==> SlotOf(events[0].edit) != slot)
      && (events[0].SaveLands? ==> w.save.value.request.editVersion < version)
      && Undisturbed(Next(w, events[0]), events[1..], slot, version)
    )
  }

  lemma StepHolds(w: World, e: Event, slot: Slot, v: SlotValue, version: nat)
    requires Inv(w) && Possible(w, e)
    requires w.tab.dirty && version <= w.tab.editVersion && Holds(w.tab, slot, v)
    requires e.UserEdits? ==> SlotOf(e.edit) != slot
    requires e.SaveLands? ==> w.save.value.request.editVersion < version
    ensures Next(w, e).tab.dirty && version <= Next(w, e).tab.editVersion && Holds(Next(w, e).tab, slot, v)
  {
    hide Normalize;
    hide Merged;
    hide DraftHolds;
    hide Edited;
    hide SaveBegun;
    hide SlotOf;
    match e {
      case PressSave => PressFrame(w, e);
      case PressRun => PressFrame(w, e);
      case UserEdits(edit) =>
        EditedFrame(w.tab, edit);
        OtherEditHolds(w.tab, edit, slot, v);
      case FetchLands(sequence, payload) =>
        OverlayHolds(w.tab, Normalize(payload), slot, v);
      case SaveLands(payload) =>
        OverlayHolds(w.tab, Normalize(payload), slot, v);
        assert Next(w, e).tab.drafts == Overlay(w.tab, Normalize(payload)).drafts;
      case _ =>
    }
  }

  /**
   A user-owned value keeps its edited value, and the tab stays dirty, in every
   interleaving of polls, saves, failures and other edits, until the user edits
   that value again or a save that captured it succeeds.
   */
  lemma {:induction false} EditPersists(w: World, events: seq<Event>, slot: Slot, v: SlotValue, version: nat)
    requires Inv(w) && ValidRun(w, events)
    requires w.tab.dirty && version <= w.tab.editVersion && Holds(w.tab, slot, v)
    requires Undisturbed(w, events, slot, version)
    ensures After(w, events).tab.dirty && Holds(After(w, events).tab, slot, v)
    decreases |events|
  {
    if events != [] {
      StepHolds(w, events[0], slot, v, version);
      NextInv(w, events[0]);
      EditPersists(Next(w, events[0]), events[1..], slot, v, version);
    }
  }

  /** The same from the edit itself, in any reachable state. */
  lemma EditedValuePersists(before: seq<Event>, edit: Edit, events: seq<Event>)
    requires ValidRun(START, before) && TakesEffect(After(START, before).tab, edit)
    requires Possible(After(START, before), UserEdits(edit))
    requires ValidRun(Next(After(START, before), UserEdits(edit)), events)
    requires var w := Next(After(START, before), UserEdits(edit));
             Undisturbed(w, events, SlotOf(edit), w.tab.editVersion)
    ensures var w := After(Next(After(START, before), UserEdits(edit)), events);
            w.tab.dirty && Holds(w.tab, SlotOf(edit), EditValue(After(START, before).tab, edit))
  {
    var w0 := After(START, before);
    StartInv();
    RunInv(START, before);
    EditInv(w0, edit);
    EditTakesHold(w0.tab, edit);
    var w := Next(w0, UserEdits(edit));
    EditPersists(w, events, SlotOf(edit), EditValue(w0.tab, edit), w.tab.editVersion);
  }

  /** An edit made while a save is in flight survives that save's answer, and the tab stays dirty on the new revision. */
  lemma InFlightEditSurvives(before: seq<Event>, edit: Edit, payload: Payload)
    requires ValidRun(START, before) && After(START, before).save.Some?
    requires Possible(After(START, before), UserEdits(edit)) && TakesEffect(After(START, before).tab, edit)
    ensures var w := After(START, before);
            var t := Next(Next(w, UserEdits(edit)), SaveLands(payload)).tab;
            && t.dirty && t.revision == Normalize(payload).revision
            && Holds(t, SlotOf(edit), EditValue(w.tab, edit))
  {
    hide Normalize;
    hide Merged;
    var w := After(START, before);
    StartInv();
    RunInv(START, before);
    EditTakesHold(w.tab, edit);
    EditInv(w, edit);
    EditedFrame(w.tab, edit);
    var u := Next(w, UserEdits(edit));
    StepHolds(u, SaveLands(payload), SlotOf(edit), EditValue(w.tab, edit), u.tab.editVersion);
  }
}
