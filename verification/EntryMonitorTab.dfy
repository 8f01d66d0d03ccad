/**
 The entry-monitor tab between two `await`s: its refs, the edits, and what a
 configuration response or a save response does to them.
 */
module EntryMonitorTab {

  import opened Options
  import opened JsText
  import opened Sequences
  import opened EntryMonitorModel

  /** The refs that decide the protocol. The `setX` calls only mirror them. */
  datatype Tab = Tab(
    policies: seq<Policy>, drafts: Drafts, selected: seq<int>, loaded: bool, dirty: bool, saving: bool,
    running: bool, revision: int, editVersion: nat, sequence: nat)

  const FRESH_TAB := Tab([], map[], [], false, false, false, false, 0, 0, 0)

  /** What a configuration request captures when it goes out. */
  datatype FetchRequest = FetchRequest(sequence: nat, editVersion: nat)

  datatype SaveTarget = SaveTarget(key: string, port: int, autoSplit: bool)

  datatype SaveItem = SaveItem(
    policyID: int, enabled: bool, interval: int, timeout: int, failures: int, successes: int,
    targets: seq<SaveTarget>)

  /** What a save captures when it goes out; `revision` and `items` are its body. */
  datatype SaveRequest = SaveRequest(
    editVersion: nat, revision: int, policyIDs: seq<int>, drafts: Drafts, enabledPolicyIDs: seq<int>,
    items: seq<SaveItem>)

  // ----- edits -----

  /** A change of one draft: `updateDraft` patches, `updateTargetPort`, `updateTargetAutoSplit`. */
  datatype Change =
    | SetEnabled(on: bool)
    | SetInterval(amount: int)
    | SetTimeout(amount: int)
    | SetFailures(amount: int)
    | SetSuccesses(amount: int)
    | SetPort(key: string, amount: int)
    | SetAutoSplit(key: string, on: bool)

  datatype Edit =
    | SelectPolicies(keys: seq<int>)
    | SelectPolicy(id: int, on: bool)
    | ChangeDraft(id: int, change: Change)

  function MarkEdited(t: Tab): Tab {
    t.(editVersion := t.editVersion + 1, dirty := true)
  }

  function Choose(t: Tab, keys: seq<int>): Tab {
    var selectable := SelectableIDs(t.policies);
    MarkEdited(t.(selected := Filter(Within(selectable), UniqueIDs(keys))))
  }

  function WithPort(ts: seq<Target>, key: string, port: int): (r: seq<Target>)
    ensures |r| == |ts|
    ensures forall i :: 0 <= i < |ts| ==> r[i] == if ts[i].key == key then ts[i].(port := port) else ts[i]
  {
    Map((t: Target) => if t.key == key then t.(port := port) else t, ts)
  }

  function WithAutoSplit(ts: seq<Target>, key: string, on: bool): (r: seq<Target>)
    ensures |r| == |ts|
    ensures forall i :: 0 <= i < |ts| ==> r[i] == if ts[i].key == key then ts[i].(autoSplit := on) else ts[i]
  {
    Map((t: Target) => if t.key == key then t.(autoSplit := on) else t, ts)
  }

  function Changed(d: Draft, change: Change): Draft {
    match change
    case SetEnabled(on) => d.(enabled := on)
    case SetInterval(amount) => d.(interval := amount)
    case SetTimeout(amount) => d.(timeout := amount)
    case SetFailures(amount) => d.(failures := amount)
    case SetSuccesses(amount) => d.(successes := amount)
    case SetPort(key, amount) => d.(targets := WithPort(d.targets, key, amount))
    case SetAutoSplit(key, on) => d.(targets := WithAutoSplit(d.targets, key, on))
  }

  /** One user action. A change of a rule without a draft does nothing at all. */
  function Edited(t: Tab, edit: Edit): Tab {
    match edit
    case SelectPolicies(keys) => Choose(t, keys)
    case SelectPolicy(id, on) =>
      Choose(t, if on then t.selected + [id] else Filter((other: int) => other != id, t.selected))
    case ChangeDraft(id, change) =>
      if id in t.drafts then MarkEdited(t.(drafts := t.drafts[id := Changed(t.drafts[id], change)])) else t
  }

  // ----- validation before a save -----

  datatype Problem =
    | StaleRule(id: int) | NoTargets(id: int) | BadInterval(id: int) | BadTimeout(id: int)
    | BadFailures(id: int) | BadSuccesses(id: int) | BadTarget(id: int) | BadPort(id: int) | BadAutoSplit(id: int)

  /** `/^policy:\d+:split-group:\d+$/` on the trimmed key */
  predicate IsSplitLeaf(key: string) {
    var s := Trim(key);
    "policy:" <= s &&
    var rest := s[|"policy:"|..];
    var n := DigitRun(rest);
    n > 0 && ":split-group:" <= rest[n..] && AllDigits(rest[n..][|":split-group:"|..])
  }

  /** The draft of a selected rule may be sent. */
  predicate Sendable(policies: seq<Policy>, drafts: Drafts, id: int) {
    && id in drafts
    && PolicyFor(policies, id).Some? && Selectable(PolicyFor(policies, id).value)
    && var d := drafts[id];
       && d.targets != []
       && 5 <= d.interval <= 3600
       && 100 <= d.timeout <= 60000
       && 2 <= d.failures <= 10
       && 1 <= d.successes <= 10
       && forall t :: t in d.targets ==>
            && t.key != "" && t.host != ""
            && 1 <= t.port <= 65535
            && (t.autoSplit ==> IsSplitLeaf(t.key))
  }

  /** What the message says is so. */
  predicate Offends(problem: Problem, policies: seq<Policy>, drafts: Drafts) {
    if problem.StaleRule? then
      problem.id in drafts ==> PolicyFor(policies, problem.id).None? || !Selectable(PolicyFor(policies, problem.id).value)
    else
      problem.id in drafts &&
      var d := drafts[problem.id];
      match problem
      case StaleRule(_) => false
      case NoTargets(_) => d.targets == []
      case BadInterval(_) => !(5 <= d.interval <= 3600)
      case BadTimeout(_) => !(100 <= d.timeout <= 60000)
      case BadFailures(_) => !(2 <= d.failures <= 10)
      case BadSuccesses(_) => !(1 <= d.successes <= 10)
      case BadTarget(_) => exists t :: t in d.targets && (t.key == "" || t.host == "")
      case BadPort(_) => exists t :: t in d.targets && !(1 <= t.port <= 65535)
      case BadAutoSplit(_) => exists t :: t in d.targets && t.autoSplit && !IsSplitLeaf(t.key)
  }

  method CheckDraft(id: int, policies: seq<Policy>, drafts: Drafts) returns (problem: Option<Problem>)
    ensures problem.None? <==> Sendable(policies, drafts, id)
    ensures problem.Some? ==> problem.value.id == id && Offends(problem.value, policies, drafts)
  {
    hide Selectable;
    hide IsSplitLeaf;
    var policy := PolicyFor(policies, id);
    if id !in drafts || policy.None? || !Selectable(policy.value) {
      return Some(StaleRule(id));
    }
    var d := drafts[id];
    if d.targets == [] { return Some(NoTargets(id)); }
    if d.interval < 5 || d.interval > 3600 { return Some(BadInterval(id)); }
    if d.timeout < 100 || d.timeout > 60000 { return Some(BadTimeout(id)); }
    if d.failures < 2 || d.failures > 10 { return Some(BadFailures(id)); }
    if d.successes < 1 || d.successes > 10 { return Some(BadSuccesses(id)); }
    if exists t :: t in d.targets && (t.key == "" || t.host == "") { return Some(BadTarget(id)); }
    if exists t :: t in d.targets && (t.port < 1 || t.port > 65535) { return Some(BadPort(id)); }
    if exists t :: t in d.targets && t.autoSplit && !IsSplitLeaf(t.key) { return Some(BadAutoSplit(id)); }
    return None;
  }

  /** `validate`: no message exactly when every selected draft may be sent; otherwise the first offender is named. */
  method Validate(ids: seq<int>, policies: seq<Policy>, drafts: Drafts) returns (problem: Option<Problem>)
    ensures problem.None? <==> forall i :: 0 <= i < |ids| ==> Sendable(policies, drafts, ids[i])
    ensures problem.Some? ==> Offends(problem.value, policies, drafts)
    ensures problem.Some? ==>
              exists i :: && 0 <= i < |ids| && ids[i] == problem.value.id && !Sendable(policies, drafts, ids[i])
                          && forall j :: 0 <= j < i ==> Sendable(policies, drafts, ids[j])
  {
    hide Sendable;
    hide Offends;
    for i := 0 to |ids|
      invariant forall j :: 0 <= j < i ==> Sendable(policies, drafts, ids[j])
    {
      var found := CheckDraft(ids[i], policies, drafts);
      if found.Some? {
        return found;
      }
    }
    return None;
  }

  // ----- the body of a save -----

  function TargetBody(t: Target): SaveTarget {
    SaveTarget(t.key, t.port, t.autoSplit)
  }

  function ItemBody(id: int, d: Draft): SaveItem {
    SaveItem(id, d.enabled, d.interval, d.timeout, d.failures, d.successes, Map(TargetBody, d.targets))
  }

  function ItemBodies(ids: seq<int>, drafts: Drafts): (items: seq<SaveItem>)
    requires forall i :: 0 <= i < |ids| ==> ids[i] in drafts
    ensures |items| == |ids|
    ensures forall i :: 0 <= i < |ids| ==> items[i] == ItemBody(ids[i], drafts[ids[i]])
  {
    seq(|ids|, i requires 0 <= i < |ids| => ItemBody(ids[i], drafts[ids[i]]))
  }

  function EnabledAmong(ids: seq<int>, drafts: Drafts): seq<int> {
    Filter((id: int) => id in drafts && drafts[id].enabled, ids)
  }

  predicate AllSendable(t: Tab) {
    forall i :: 0 <= i < |t.selected| ==> Sendable(t.policies, t.drafts, t.selected[i])
  }

  lemma SendableDrafts(t: Tab)
    requires AllSendable(t)
    ensures forall i :: 0 <= i < |t.selected| ==> t.selected[i] in t.drafts
  {
    forall i | 0 <= i < |t.selected| ensures t.selected[i] in t.drafts {
      assert Sendable(t.policies, t.drafts, t.selected[i]);
    }
  }

  function SaveBody(t: Tab): SaveRequest
    requires AllSendable(t)
  {
    SendableDrafts(t);
    SaveRequest(t.editVersion, t.revision, t.selected, t.drafts, EnabledAmong(t.selected, t.drafts),
                ItemBodies(t.selected, t.drafts))
  }

  // ----- transitions -----

  /** A configuration request goes out. */
  function FetchBegun(t: Tab): Tab {
    t.(sequence := t.sequence + 1)
  }

  /** Take over a server payload wholesale. */
  function Install(t: Tab, c: Configuration): Tab {
    t.(policies := c.policies, drafts := c.drafts, selected := c.configured, revision := c.revision,
       dirty := false, loaded := true)
  }

  /** Take over live data only; drafts, selection and revision stay the user's. */
  function Overlay(t: Tab, c: Configuration): Tab {
    t.(policies := c.policies, drafts := Merged(t.drafts, c.drafts), loaded := true)
  }

  function PreserveEdits(t: Tab, request: FetchRequest): bool {
    t.dirty || t.editVersion != request.editVersion
  }

  function FetchLanded(t: Tab, request: FetchRequest, payload: Payload): Tab {
    if request.sequence != t.sequence then t
    else if PreserveEdits(t, request) then Overlay(t, Normalize(payload))
    else Install(t, Normalize(payload))
  }

  /** The request of a save that goes out now; none if one is in flight or the drafts may not be sent. */
  function SaveWanted(t: Tab): Option<SaveRequest> {
    if t.saving || !AllSendable(t) then None else Some(SaveBody(t))
  }

  function SaveBegun(t: Tab): Tab {
    if SaveWanted(t).Some? then t.(saving := true, sequence := t.sequence + 1) else t
  }

  function SaveLanded(t: Tab, request: SaveRequest, payload: Payload): Tab {
    var c := Normalize(payload);
    var u := t.(sequence := t.sequence + 1, saving := false);
    if t.editVersion != request.editVersion then Overlay(u, c).(revision := c.revision, dirty := true)
    else Install(u, c)
  }

  function SaveFailed(t: Tab): Tab {
    t.(saving := false)
  }

  function RunWanted(t: Tab): bool {
    && !t.running && !t.saving
    && exists i :: 0 <= i < |t.selected| && t.selected[i] in t.drafts && t.drafts[t.selected[i]].enabled
  }

  function PolicyIDs(policies: seq<Policy>): (ids: seq<int>)
    ensures |ids| == |policies|
    ensures forall i :: 0 <= i < |policies| ==> ids[i] == policies[i].id
  {
    Map((p: Policy) => p.id, policies)
  }

  lemma PolicyIDsEnumerate(payload: Payload)
    ensures forall id :: id in PolicyIDs(Normalize(payload).policies) <==> id in Normalize(payload).drafts
  {
    var policies := NormalizedPolicies(payload.policies);
    var drafts := DraftTable(policies, DraftFor(payload.items));
    hide NormalizedPolicies;
    hide DraftFor;
    DraftTableEntries(policies, DraftFor(payload.items));
    forall id | PolicyFor(policies, id).Some? ensures id in PolicyIDs(policies) {
      var p := PolicyFor(policies, id).value;
      var i :| 0 <= i < |policies| && policies[i] == p;
      assert PolicyIDs(policies)[i] == id;
    }
  }

  /** The component: its refs and the code that runs between two `await`s. */
  class EntryMonitor {
    var policies: seq<Policy>
    var drafts: Drafts
    var selected: seq<int>
    var loaded: bool
    var dirty: bool
    var saving: bool
    var running: bool
    var revision: int
    var editVersion: nat
    var sequence: nat

    function View(): Tab
      reads this
    {
      Tab(policies, drafts, selected, loaded, dirty, saving, running, revision, editVersion, sequence)
    }

    constructor ()
      ensures View() == FRESH_TAB
    {
      policies, drafts, selected := [], map[], [];
      loaded, dirty, saving, running := false, false, false, false;
      revision, editVersion, sequence := 0, 0, 0;
    }

    /** `fetchConfiguration` up to its `await`. */
    method BeginFetch() returns (request: FetchRequest)
      modifies this
      ensures View() == FetchBegun(old(View()))
      ensures request == FetchRequest(sequence, editVersion)
    {
      sequence := sequence + 1;
      request := FetchRequest(sequence, editVersion);
    }

    method TakeLiveData(next: Configuration, ghost payload: Payload)
      requires next == Normalize(payload)
      modifies this`drafts
      ensures drafts == Merged(old(drafts), next.drafts)
    {
      PolicyIDsEnumerate(payload);
      drafts := MergeLiveState(drafts, next.drafts, PolicyIDs(next.policies));
    }

    /** `fetchConfiguration` after its `await`, when the response is good. */
    method ReceiveConfiguration(request: FetchRequest, payload: Payload) returns (accepted: bool)
      modifies this
      ensures View() == FetchLanded(old(View()), request, payload)
      ensures accepted <==> request.sequence == old(sequence)
    {
      hide Normalize;
      hide Merged;
      if request.sequence != sequence {
        return false;
      }
      var next := NormalizeConfigurationPayload(payload);
      var preserveEdits := dirty || editVersion != request.editVersion;
      policies := next.policies;
      if preserveEdits {
        TakeLiveData(next, payload);
      } else {
        drafts := next.drafts;
        selected := next.configured;
        revision := next.revision;
        dirty := false;
      }
      loaded := true;
      return true;
    }

    method Mark()
      modifies this`editVersion, this`dirty
      ensures editVersion == old(editVersion) + 1 && dirty
    {
      editVersion := editVersion + 1;
      dirty := true;
    }

    /** `selectPolicies`, `selectPolicy`, `updateDraft`, `updateTargetPort`, `updateTargetAutoSplit` */
    method Apply(edit: Edit)
      modifies this
      ensures View() == Edited(old(View()), edit)
    {
      match edit {
        case SelectPolicies(keys) =>
          Select(keys);
        case SelectPolicy(id, on) =>
          if on {
            Select(selected + [id]);
          } else {
            Select(Filter((other: int) => other != id, selected));
          }
        case ChangeDraft(id, change) =>
          if id in drafts {
            drafts := drafts[id := Changed(drafts[id], change)];
            Mark();
          }
      }
    }

    method Select(keys: seq<int>)
      modifies this
      ensures View() == Choose(old(View()), keys)
    {
      var selectable := SelectableIDs(policies);
      selected := Filter(Within(selectable), UniqueIDs(keys));
      Mark();
    }

    /** `saveMonitors` up to its `await`. */
    method BeginSave() returns (request: Option<SaveRequest>)
      modifies this
      ensures View() == SaveBegun(old(View())) && request == SaveWanted(old(View()))
    {
      hide Sendable;
      hide EnabledAmong;
      if saving {
        return None;
      }
      var problem := Validate(selected, policies, drafts);
      if problem.Some? {
        return None;
      }
      SendableDrafts(View());
      request := Some(SaveRequest(editVersion, revision, selected, drafts, EnabledAmong(selected, drafts),
                                  ItemBodies(selected, drafts)));
      saving := true;
      sequence := sequence + 1;
    }

    /** `saveMonitors` after its `await`, when the server accepted. */
    method ReceiveSaved(request: SaveRequest, payload: Payload)
      modifies this
      ensures View() == SaveLanded(old(View()), request, payload)
    {
      hide Normalize;
      hide Merged;
      sequence := sequence + 1;
      var next := NormalizeConfigurationPayload(payload);
      var hasNewEdits := editVersion != request.editVersion;
      policies := next.policies;
      revision := next.revision;
      if hasNewEdits {
        TakeLiveData(next, payload);
        dirty := true;
      } else {
        drafts := next.drafts;
        selected := next.configured;
        dirty := false;
      }
      loaded := true;
      saving := false;
    }

    /** `saveMonitors` after its `await`, when the request failed. */
    method ReceiveSaveFailure()
      modifies this
      ensures View() == SaveFailed(old(View()))
    {
      saving := false;
    }

    /** `runNow` up to the first `await` inside the save it starts. */
    method BeginRun() returns (request: Option<SaveRequest>)
      modifies this
      ensures !RunWanted(old(View())) ==> View() == old(View()) && request.None?
      ensures RunWanted(old(View())) ==>
                && request == SaveWanted(old(View()))
                && View() == SaveBegun(old(View())).(running := request.Some?)
    {
      hide Sendable;
      hide ItemBodies;
      hide EnabledAmong;
      if running || saving || !exists i :: 0 <= i < |selected| && selected[i] in drafts && drafts[selected[i]].enabled {
        return None;
      }
      running := true;
      request := BeginSave();
      if request.None? {
        running := false;
      }
    }
  }
}
