/**
 Entry-monitor configuration: what the server sends, the drafts the tab edits,
 and the merge of live data into drafts that carry unsaved edits.
 */
module EntryMonitorModel {

  import opened Options
  import opened JsText
  import opened Sequences

  const DEFAULT_PORT := 54101
  const DEFAULT_TIMEOUT_MS := 5000
  const DEFAULT_FAILURES := 3
  const DEFAULT_SUCCESSES := 2
  const DEFAULT_INTERVAL_SEC := 30

  // ----- raw JSON fields -----

  /** A JSON field read as a number: absent, null, text `Number` rejects, or a number. */
  datatype Field = Missing | Null | NotNumber | Number(value: int)

  function NumberValue(field: Field, fallback: int): int {
    match field
    case Missing => fallback
    case Null => 0
    case NotNumber => fallback
    case Number(n) => n
  }

  /** JavaScript `field ?? value`. */
  function Coalesce(field: Field, value: int): Field {
    if field.Missing? || field.Null? then Number(value) else field
  }

  /** JavaScript `first || second`. */
  function FirstTruthy(first: Field, second: Field): Field {
    if first.NotNumber? || (first.Number? && first.value != 0) then first else second
  }

  /** A JSON field read as a boolean. */
  datatype Flag = Unset | Known(on: bool)

  function BoolValue(flag: Flag, fallback: bool): bool {
    if flag.Unset? then fallback else flag.on
  }

  datatype Action = Override | Original | Hide

  function NormalizeAction(text: string): Action {
    if text == "original" then Original else if text == "hide" then Hide else Override
  }

  function ActionText(action: Action): string {
    match action case Override => "override" case Original => "original" case Hide => "hide"
  }

  /** One probe's latest result for a target; displayed, never edited. */
  datatype Reading = Reading(probe: int, stale: bool, report: string)

  datatype RawTarget = RawTarget(
    id: Field, sourceKey: string, name: string, host: string, port: Field, suggestedPort: Field,
    sort: Field, autoSplit: Flag, states: seq<Reading>)

  /** A server of a rule; `host` is the first non-empty of its address fields. */
  datatype Member = Member(
    sourceKey: string, serverType: string, serverID: Field, host: string, port: Field, serverPort: Field)

  datatype RawPolicy = RawPolicy(
    id: Field, name: string, action: string, entryHost: string, enabled: Flag,
    members: seq<Member>, targets: seq<RawTarget>)

  datatype RawItem = RawItem(
    policyID: Field, policyName: string, action: string, enabled: Flag, interval: Field, timeout: Field,
    failures: Field, successes: Field, targets: seq<RawTarget>)

  datatype Payload = Payload(revision: Field, items: seq<RawItem>, policies: seq<RawPolicy>)

  // ----- normalised configuration -----

  datatype Policy = Policy(
    id: int, name: string, action: Action, entryHost: string, enabled: bool,
    members: seq<Member>, targets: seq<RawTarget>)

  /** `port` and `autoSplit` belong to the user; the rest is live data. */
  datatype Target = Target(
    id: Option<int>, key: string, name: string, host: string, port: int, sort: int, autoSplit: bool,
    states: seq<Reading>)

  /** `enabled`, the four numbers and the targets' settings belong to the user. */
  datatype Draft = Draft(
    policyID: int, policyName: string, action: Action, enabled: bool, interval: int, timeout: int,
    failures: int, successes: int, targets: seq<Target>)

  type Drafts = map<int, Draft>

  datatype Configuration = Configuration(
    revision: int, policies: seq<Policy>, drafts: Drafts, configured: seq<int>)

  // ----- ordering by `sort` -----

  ghost predicate SortedBySort(ts: seq<Target>) {
    forall i, j :: 0 <= i < j < |ts| ==> ts[i].sort <= ts[j].sort
  }

  /** Put `t` in front of the first target whose `sort` is not smaller. */
  function Place(t: Target, ts: seq<Target>): seq<Target> {
    if ts == [] || t.sort <= ts[0].sort then [t] + ts else [ts[0]] + Place(t, ts[1..])
  }

  /** `targets.sort((a, b) => a.sort - b.sort)`; JavaScript sorts stably. */
  function SortTargets(ts: seq<Target>): seq<Target> {
    if ts == [] then [] else Place(ts[0], SortTargets(ts[1..]))
  }

  lemma {:induction false} PlaceMembers(t: Target, ts: seq<Target>)
    ensures multiset(Place(t, ts)) == multiset([t] + ts)
    ensures forall u :: u in Place(t, ts) <==> u == t || u in ts
  {
    if ts != [] && t.sort > ts[0].sort {
      PlaceMembers(t, ts[1..]);
      assert [t] + ts == [t] + [ts[0]] + ts[1..];
    }
  }

  lemma {:induction false} SortMembers(ts: seq<Target>)
    ensures multiset(SortTargets(ts)) == multiset(ts)
    ensures forall u :: u in SortTargets(ts) <==> u in ts
  {
    if ts != [] {
      SortMembers(ts[1..]);
      PlaceMembers(ts[0], SortTargets(ts[1..]));
      assert ts == [ts[0]] + ts[1..];
    }
  }

  lemma {:induction false} SortedCons(t: Target, ts: seq<Target>)
    requires SortedBySort(ts)
    requires forall u :: u in ts ==> t.sort <= u.sort
    ensures SortedBySort([t] + ts)
  {
  }

  lemma {:induction false} PlaceSorts(t: Target, ts: seq<Target>)
    requires SortedBySort(ts)
    ensures SortedBySort(Place(t, ts))
  {
    if ts == [] || t.sort <= ts[0].sort {
      SortedCons(t, ts);
    } else {
      PlaceSorts(t, ts[1..]);
      PlaceMembers(t, ts[1..]);
      SortedCons(ts[0], Place(t, ts[1..]));
    }
  }

  lemma {:induction false} SortSorts(ts: seq<Target>)
    ensures SortedBySort(SortTargets(ts))
  {
    if ts != [] {
      SortSorts(ts[1..]);
      PlaceSorts(ts[0], SortTargets(ts[1..]));
    }
  }

  function AtSort(v: int): Target -> bool {
    (t: Target) => t.sort == v
  }

  lemma {:induction false} PlaceStable(t: Target, ts: seq<Target>, v: int)
    ensures Filter(AtSort(v), Place(t, ts)) == Filter(AtSort(v), [t] + ts)
  {
    hide Filter;
    if ts != [] && t.sort > ts[0].sort {
      var head, tail := ts[0], ts[1..];
      PlaceStable(t, tail, v);
      FilterCons(AtSort(v), head, Place(t, tail));
      FilterCons(AtSort(v), t, tail);
      FilterCons(AtSort(v), head, tail);
      assert ts == [head] + tail;
      FilterCons(AtSort(v), t, ts);
    }
  }

  /** Targets with the same `sort` keep their order. */
  lemma {:induction false} SortStable(ts: seq<Target>, v: int)
    ensures Filter(AtSort(v), SortTargets(ts)) == Filter(AtSort(v), ts)
  {
    if ts != [] {
      var head, tail := ts[0], ts[1..];
      SortStable(tail, v);
      hide Filter;
      PlaceStable(head, SortTargets(tail), v);
      FilterCons(AtSort(v), head, SortTargets(tail));
      FilterCons(AtSort(v), head, tail);
      assert ts == [head] + tail;
    }
  }

  lemma {:induction false} SortFixes(ts: seq<Target>)
    requires SortedBySort(ts)
    ensures SortTargets(ts) == ts
  {
    if ts != [] {
      SortFixes(ts[1..]);
      assert ts == [ts[0]] + ts[1..];
    }
  }

  /** Sorted order plus stability leave no choice: any such rearrangement is `SortTargets`. */
  lemma {:induction false} SortUnique(xs: seq<Target>, ys: seq<Target>)
    requires SortedBySort(xs) && SortedBySort(ys)
    requires forall v :: Filter(AtSort(v), xs) == Filter(AtSort(v), ys)
    ensures xs == ys
  {
    if xs == [] {
      var v := if ys == [] then 0 else ys[0].sort;
      assert Filter(AtSort(v), xs) == Filter(AtSort(v), ys);
    } else {
      assert xs[0] in Filter(AtSort(xs[0].sort), xs);
      var x, y := xs[0], ys[0];
      assert x in Filter(AtSort(x.sort), ys) && y in Filter(AtSort(y.sort), xs);
      assert x.sort == y.sort;
      assert Filter(AtSort(x.sort), xs)[0] == x;
      assert Filter(AtSort(x.sort), ys)[0] == y;
      forall v ensures Filter(AtSort(v), xs[1..]) == Filter(AtSort(v), ys[1..]) {
        assert Filter(AtSort(v), xs) == Filter(AtSort(v), ys);
        if v != x.sort {
          assert Filter(AtSort(v), xs) == Filter(AtSort(v), xs[1..]);
          assert Filter(AtSort(v), ys) == Filter(AtSort(v), ys[1..]);
        } else {
          assert Filter(AtSort(v), xs) == [x] + Filter(AtSort(v), xs[1..]);
          assert Filter(AtSort(v), xs)[1..] == Filter(AtSort(v), xs[1..]);
          assert Filter(AtSort(v), ys) == [y] + Filter(AtSort(v), ys[1..]);
          assert Filter(AtSort(v), ys)[1..] == Filter(AtSort(v), ys[1..]);
        }
      }
      SortUnique(xs[1..], ys[1..]);
      assert xs == [x] + xs[1..];
      assert ys == [y] + ys[1..];
    }
  }

  // ----- target keys -----

  function KeyOf(t: Target): string { t.key }

  function KeysOf(ts: seq<Target>): (keys: set<string>) {
    set t | t in ts :: t.key
  }

  ghost predicate DistinctKeys(ts: seq<Target>) {
    DistinctBy(KeyOf, ts)
  }

  /** `new Map(targets.map(t => [t.source_key, t])).get(key)`: the last target with the key. */
  function LastWithKey(ts: seq<Target>, key: string): (r: Option<Target>)
    ensures r.None? <==> key !in KeysOf(ts)
    ensures r.Some? ==> r.value in ts && r.value.key == key
  {
    if ts == [] then None
    else if ts[|ts| - 1].key == key then Some(ts[|ts| - 1])
    else
      assert ts == ts[..|ts| - 1] + [ts[|ts| - 1]];
      LastWithKey(ts[..|ts| - 1], key)
  }

  // ----- normalisation -----

  function NormalizePolicy(raw: RawPolicy): Policy {
    var id := NumberValue(raw.id, 0);
    var name := Trim(raw.name);
    Policy(id, if name != "" then name else "rule #" + IntText(id), NormalizeAction(raw.action),
           Trim(raw.entryHost), BoolValue(raw.enabled, true), raw.members, raw.targets)
  }

  function IntText(n: int): string {
    if n < 0 then "-" + Decimal(-n) else Decimal(n)
  }

  function MemberKey(m: Member, index: nat): string {
    var explicit := Trim(m.sourceKey);
    var serverType := ToLower(Trim(m.serverType));
    var serverID := NumberValue(m.serverID, 0);
    if explicit != "" then explicit
    else if serverType != "" && serverID > 0 then serverType + ":" + IntText(serverID)
    else "member:" + Decimal(index + 1)
  }

  function ListedTarget(raw: RawTarget, index: nat): Target {
    Target(None,
           Trim(if raw.sourceKey != "" then raw.sourceKey else "target:" + Decimal(index + 1)),
           raw.name, Trim(raw.host),
           NumberValue(if raw.port.Missing? || raw.port.Null? then Coalesce(raw.suggestedPort, DEFAULT_PORT) else raw.port,
                       DEFAULT_PORT),
           NumberValue(raw.sort, index), BoolValue(raw.autoSplit, false), [])
  }

  function MemberTarget(m: Member, index: nat): Target {
    Target(None, MemberKey(m, index), "", Trim(m.host),
           NumberValue(FirstTruthy(m.port, FirstTruthy(m.serverPort, Number(DEFAULT_PORT))), DEFAULT_PORT),
           index, false, [])
  }

  function ListedTargets(raws: seq<RawTarget>): (ts: seq<Target>)
    ensures |ts| == |raws|
    ensures forall i :: 0 <= i < |raws| ==> ts[i] == ListedTarget(raws[i], i)
  {
    seq(|raws|, i requires 0 <= i < |raws| => ListedTarget(raws[i], i))
  }

  function MemberTargets(members: seq<Member>): (ts: seq<Target>)
    ensures |ts| == |members|
    ensures forall i :: 0 <= i < |members| ==> ts[i] == MemberTarget(members[i], i)
  {
    seq(|members|, i requires 0 <= i < |members| => MemberTarget(members[i], i))
  }

  /** Targets a rule has before it is configured. */
  function DerivedTargets(policy: Policy): (ts: seq<Target>)
    ensures policy.action.Hide? ==> ts == []
    ensures forall t :: t in ts ==> t.host != "" && t.states == []
  {
    if policy.action.Hide? then []
    else if policy.targets != [] then
      Filter((t: Target) => t.key != "" && t.host != "", ListedTargets(policy.targets))
    else if policy.action.Override? then
      var host := Trim(policy.entryHost);
      if host == "" then [] else [Target(None, "entry_host", "", host, DEFAULT_PORT, 0, false, [])]
    else Filter((t: Target) => t.host != "", MemberTargets(policy.members))
  }

  function ConfiguredTarget(raw: RawTarget, index: nat): Target {
    var id := NumberValue(raw.id, 0);
    Target(if id == 0 then None else Some(id),
           Trim(if raw.sourceKey != "" then raw.sourceKey
                else "target:" + if id != 0 then IntText(id) else Decimal(index + 1)),
           raw.name, Trim(raw.host), NumberValue(Coalesce(raw.port, DEFAULT_PORT), DEFAULT_PORT),
           NumberValue(raw.sort, index), BoolValue(raw.autoSplit, false), raw.states)
  }

  function ConfiguredTargets(raws: seq<RawTarget>): (ts: seq<Target>)
    ensures |ts| == |raws|
    ensures forall i :: 0 <= i < |raws| ==> ts[i] == ConfiguredTarget(raws[i], i)
  {
    seq(|raws|, i requires 0 <= i < |raws| => ConfiguredTarget(raws[i], i))
  }

  /** The item an unconfigured rule behaves as if it had. */
  const NO_ITEM := RawItem(Missing, "", "", Unset, Missing, Missing, Missing, Missing, [])

  function NormalizeDraft(policy: Policy, item: Option<RawItem>): (d: Draft)
    ensures d.policyID == policy.id
  {
    var it := if item.Some? then item.value else NO_ITEM;
    var configured := ConfiguredTargets(it.targets);
    Draft(policy.id,
          if it.policyName != "" then it.policyName else policy.name,
          NormalizeAction(if it.action != "" then it.action else ActionText(policy.action)),
          BoolValue(it.enabled, true),
          NumberValue(it.interval, DEFAULT_INTERVAL_SEC),
          NumberValue(it.timeout, DEFAULT_TIMEOUT_MS),
          NumberValue(Coalesce(it.failures, DEFAULT_FAILURES), DEFAULT_FAILURES),
          NumberValue(Coalesce(it.successes, DEFAULT_SUCCESSES), DEFAULT_SUCCESSES),
          SortTargets(if configured != [] then configured else DerivedTargets(policy)))
  }

  predicate Selectable(policy: Policy) {
    policy.enabled && policy.action != Hide && DerivedTargets(policy) != []
  }

  function SelectableIDs(policies: seq<Policy>): (ids: set<int>)
    ensures forall id :: id in ids <==> exists p :: p in policies && p.id == id && Selectable(p)
  {
    set p | p in policies && Selectable(p) :: p.id
  }

  function Identity(id: int): int { id }

  function Within(ids: set<int>): int -> bool {
    (id: int) => id in ids
  }

  /** `uniqueIDs`: positive ids, first occurrence first. */
  function UniqueIDs(ids: seq<int>): (r: seq<int>) {
    FirstWins(Identity, Filter((id: int) => id > 0, ids))
  }

  function ItemIDs(items: seq<RawItem>): seq<int> {
    Map((item: RawItem) => NumberValue(item.policyID, 0), items)
  }

  /** The item `new Map(items...)` keeps for a rule: the last one. */
  function ItemFor(items: seq<RawItem>, id: int): Option<RawItem> {
    if items == [] then None
    else if NumberValue(items[|items| - 1].policyID, 0) == id then Some(items[|items| - 1])
    else ItemFor(items[..|items| - 1], id)
  }

  function PolicyFor(policies: seq<Policy>, id: int): (r: Option<Policy>)
    ensures r.None? <==> forall p :: p in policies ==> p.id != id
    ensures r.Some? ==> r.value in policies && r.value.id == id
  {
    if policies == [] then None
    else if policies[|policies| - 1].id == id then Some(policies[|policies| - 1])
    else
      assert policies == policies[..|policies| - 1] + [policies[|policies| - 1]];
      PolicyFor(policies[..|policies| - 1], id)
  }

  /** One draft per rule; a later rule with the same id replaces an earlier one. */
  function DraftTable(policies: seq<Policy>, draftFor: Policy -> Draft): Drafts {
    if policies == [] then map[]
    else
      var last := policies[|policies| - 1];
      DraftTable(policies[..|policies| - 1], draftFor)[last.id := draftFor(last)]
  }

  lemma {:induction false} DraftTableEntries(policies: seq<Policy>, draftFor: Policy -> Draft)
    ensures forall id :: id in DraftTable(policies, draftFor) <==> PolicyFor(policies, id).Some?
    ensures forall id :: id in DraftTable(policies, draftFor) ==>
              DraftTable(policies, draftFor)[id] == draftFor(PolicyFor(policies, id).value)
  {
    if policies != [] {
      DraftTableEntries(policies[..|policies| - 1], draftFor);
    }
  }

  /** The loop that fills the draft table. */
  method FillDraftTable(policies: seq<Policy>, draftFor: Policy -> Draft) returns (drafts: Drafts)
    ensures drafts == DraftTable(policies, draftFor)
  {
    drafts := map[];
    for i := 0 to |policies|
      invariant drafts == DraftTable(policies[..i], draftFor)
    {
      drafts := drafts[policies[i].id := draftFor(policies[i])];
      assert policies[..i + 1][..i] == policies[..i];
    }
    assert policies[..|policies|] == policies;
  }

  function DraftFor(items: seq<RawItem>): Policy -> Draft {
    (policy: Policy) => NormalizeDraft(policy, ItemFor(items, policy.id))
  }

  function Identified(): Policy -> bool {
    (p: Policy) => p.id > 0
  }

  function NormalizedPolicies(raws: seq<RawPolicy>): (ps: seq<Policy>)
    ensures forall p :: p in ps ==> p.id > 0
  {
    Filter(Identified(), Map(NormalizePolicy, raws))
  }

  function Normalize(raw: Payload): (c: Configuration) {
    var policies := NormalizedPolicies(raw.policies);
    var selectable := SelectableIDs(policies);
    Configuration(NumberValue(raw.revision, 0), policies, DraftTable(policies, DraftFor(raw.items)),
                  Filter(Within(selectable), UniqueIDs(ItemIDs(raw.items))))
  }

  /** What every installed configuration satisfies. */
  ghost predicate Coherent(c: Configuration) {
    && (forall id :: id in c.drafts ==> c.drafts[id].policyID == id && id > 0 && SortedBySort(c.drafts[id].targets))
    && (forall id :: id in c.configured ==> id in c.drafts && id in SelectableIDs(c.policies))
    && DistinctBy(Identity, c.configured)
  }

  lemma {:induction false} FilterDistinct(keep: int -> bool, ids: seq<int>)
    requires DistinctBy(Identity, ids)
    ensures DistinctBy(Identity, Filter(keep, ids))
  {
    if ids != [] {
      forall i, j | 0 <= i < j < |ids[1..]| ensures Identity(ids[1..][i]) != Identity(ids[1..][j]) {
        assert Identity(ids[i + 1]) != Identity(ids[j + 1]);
      }
      FilterDistinct(keep, ids[1..]);
      var rest := Filter(keep, ids[1..]);
      forall j | 0 <= j < |rest| ensures rest[j] != ids[0] {
        assert rest[j] in ids[1..];
        var k :| 0 <= k < |ids[1..]| && ids[1..][k] == rest[j];
        assert Identity(ids[0]) != Identity(ids[k + 1]);
      }
    }
  }

  lemma DraftSorted(policy: Policy, item: Option<RawItem>)
    ensures SortedBySort(NormalizeDraft(policy, item).targets)
  {
    var it := if item.Some? then item.value else NO_ITEM;
    var configured := ConfiguredTargets(it.targets);
    SortSorts(if configured != [] then configured else DerivedTargets(policy));
  }

  /** Normalisation yields drafts in `sort` order and a selection of known, selectable rules without repeats. */
  lemma NormalizeCoherent(raw: Payload)
    ensures Coherent(Normalize(raw))
  {
    var c := Normalize(raw);
    var selectable := SelectableIDs(c.policies);
    FirstWinsKeys(Identity, Filter((id: int) => id > 0, ItemIDs(raw.items)));
    FilterDistinct(Within(selectable), UniqueIDs(ItemIDs(raw.items)));
    DraftTableEntries(c.policies, DraftFor(raw.items));
    forall id | id in c.drafts ensures id > 0 && SortedBySort(c.drafts[id].targets) {
      DraftSorted(PolicyFor(c.policies, id).value, ItemFor(raw.items, id));
    }
  }

  /** `normalizeConfigurationPayload` */
  method NormalizeConfigurationPayload(raw: Payload) returns (c: Configuration)
    ensures c == Normalize(raw)
  {
    var policies := NormalizedPolicies(raw.policies);
    var drafts := FillDraftTable(policies, DraftFor(raw.items));
    var selectable := SelectableIDs(policies);
    c := Configuration(NumberValue(raw.revision, 0), policies, drafts,
                       Filter(Within(selectable), UniqueIDs(ItemIDs(raw.items))));
  }

  // ----- merging live data into drafts -----

  /** An existing target with the live data of its counterpart, if there is one. */
  function Refresh(t: Target, next: seq<Target>): (r: Target)
    ensures r.key == t.key && r.name == t.name && r.port == t.port && r.autoSplit == t.autoSplit
  {
    var live := LastWithKey(next, t.key);
    if live.None? then t
    else t.(id := live.value.id, host := if live.value.host != "" then live.value.host else t.host,
            sort := live.value.sort, states := live.value.states)
  }

  function RefreshAll(existing: seq<Target>, next: seq<Target>): (r: seq<Target>)
    ensures |r| == |existing|
    ensures forall i :: 0 <= i < |existing| ==> r[i] == Refresh(existing[i], next)
  {
    seq(|existing|, i requires 0 <= i < |existing| => Refresh(existing[i], next))
  }

  function NotIn(keys: set<string>): Target -> bool {
    (t: Target) => t.key !in keys
  }

  function NewTargets(existing: seq<Target>, next: seq<Target>): seq<Target> {
    Filter(NotIn(KeysOf(existing)), next)
  }

  function MergeTargets(existing: seq<Target>, next: seq<Target>): seq<Target> {
    SortTargets(RefreshAll(existing, next) + NewTargets(existing, next))
  }

  function MergeDraft(existing: Draft, next: Draft): Draft {
    existing.(policyName := next.policyName, action := next.action,
              targets := MergeTargets(existing.targets, next.targets))
  }

  function Merged(current: Drafts, incoming: Drafts): Drafts {
    map id | id in current.Keys + incoming.Keys ::
      if id !in incoming then current[id]
      else if id !in current then incoming[id]
      else MergeDraft(current[id], incoming[id])
  }

  function Only(drafts: Drafts, ids: seq<int>): Drafts {
    map id | id in drafts && id in ids :: drafts[id]
  }

  lemma MergedEntry(current: Drafts, incoming: Drafts, done: seq<int>, id: int)
    requires id in incoming
    ensures Merged(current, Only(incoming, done + [id]))
         == Merged(current, Only(incoming, done))[id := if id in current then MergeDraft(current[id], incoming[id])
                                                        else incoming[id]]
  {
    hide MergeDraft;
  }

  /** `mergeLiveState`: one pass over the entries of `incoming`, in whatever order they come. */
  method MergeLiveState(current: Drafts, incoming: Drafts, entries: seq<int>) returns (result: Drafts)
    requires forall id :: id in entries <==> id in incoming
    ensures result == Merged(current, incoming)
  {
    hide MergeDraft;
    assert Merged(current, Only(incoming, [])) == current;
    result := current;
    for i := 0 to |entries|
      invariant result == Merged(current, Only(incoming, entries[..i]))
    {
      var id := entries[i];
      var next := incoming[id];
      if id !in current {
        result := result[id := next];
      } else {
        result := result[id := MergeDraft(current[id], next)];
      }
      assert entries[..i + 1] == entries[..i] + [id];
      MergedEntry(current, incoming, entries[..i], id);
    }
    hide Merged;
    assert entries[..|entries|] == entries;
    forall id | id in incoming ensures id in Only(incoming, entries) {
      assert id in entries;
    }
    assert Only(incoming, entries) == incoming;
  }

  /** The user-owned settings of a target, by key. */
  datatype Setting = Setting(key: string, port: int, autoSplit: bool)

  function SettingOf(t: Target): Setting {
    Setting(t.key, t.port, t.autoSplit)
  }

  /** How many targets carry exactly this setting. */
  function Count(s: Setting, ts: seq<Target>): nat {
    if ts == [] then 0 else (if SettingOf(ts[0]) == s then 1 else 0) + Count(s, ts[1..])
  }

  lemma {:induction false} CountConcat(s: Setting, xs: seq<Target>, ys: seq<Target>)
    ensures Count(s, xs + ys) == Count(s, xs) + Count(s, ys)
  {
    if xs == [] {
      assert xs + ys == ys;
    } else {
      CountConcat(s, xs[1..], ys);
      assert (xs + ys)[1..] == xs[1..] + ys;
    }
  }

  lemma {:induction false} CountPlaced(s: Setting, t: Target, ts: seq<Target>)
    ensures Count(s, Place(t, ts)) == (if SettingOf(t) == s then 1 else 0) + Count(s, ts)
  {
    if ts != [] && t.sort > ts[0].sort {
      CountPlaced(s, t, ts[1..]);
    }
  }

  lemma {:induction false} CountSorted(s: Setting, ts: seq<Target>)
    ensures Count(s, SortTargets(ts)) == Count(s, ts)
  {
    if ts != [] {
      CountSorted(s, ts[1..]);
      CountPlaced(s, ts[0], SortTargets(ts[1..]));
    }
  }

  lemma {:induction false} CountRefreshed(s: Setting, ts: seq<Target>, next: seq<Target>)
    ensures Count(s, RefreshAll(ts, next)) == Count(s, ts)
  {
    if ts != [] {
      CountRefreshed(s, ts[1..], next);
      assert RefreshAll(ts, next)[1..] == RefreshAll(ts[1..], next);
    }
  }

  /**
   The merge keeps every existing target with its user-owned settings (none is
   dropped, duplicated or changed) and adds exactly the settings of the targets
   whose key is new.
   */
  lemma MergeKeepsSettings(existing: seq<Target>, next: seq<Target>, s: Setting)
    ensures Count(s, MergeTargets(existing, next)) == Count(s, existing) + Count(s, NewTargets(existing, next))
  {
    CountSorted(s, RefreshAll(existing, next) + NewTargets(existing, next));
    CountConcat(s, RefreshAll(existing, next), NewTargets(existing, next));
    CountRefreshed(s, existing, next);
  }

  /** Every merged target is a refreshed existing one or a new one, and all of those are there. */
  lemma MergeMembers(existing: seq<Target>, next: seq<Target>)
    ensures forall t :: t in MergeTargets(existing, next)
              <==> (exists e :: e in existing && t == Refresh(e, next)) || (t in next && t.key !in KeysOf(existing))
    ensures KeysOf(MergeTargets(existing, next)) == KeysOf(existing) + KeysOf(next)
  {
    var parts := RefreshAll(existing, next) + NewTargets(existing, next);
    var merged := MergeTargets(existing, next);
    SortMembers(parts);
    forall e | e in existing ensures Refresh(e, next) in parts {
      var i :| 0 <= i < |existing| && existing[i] == e;
      assert parts[i] == Refresh(e, next);
    }
    forall key | key in KeysOf(existing) + KeysOf(next) ensures key in KeysOf(merged) {
      if key in KeysOf(existing) {
        var e :| e in existing && e.key == key;
        assert Refresh(e, next) in merged;
      } else {
        var t :| t in next && t.key == key;
        assert t in merged;
      }
    }
  }

  /**
   With distinct keys the merge yields one target per key of the union; a target
   known on both sides has the live id, sort, states and non-empty host and the
   user's port and auto-split.
   */
  lemma MergeByKey(existing: seq<Target>, next: seq<Target>, t: Target)
    requires DistinctKeys(existing) && DistinctKeys(next)
    requires t in MergeTargets(existing, next)
    ensures t.key !in KeysOf(next) ==> t in existing
    ensures t.key !in KeysOf(existing) ==> t in next
    ensures forall e, n :: e in existing && n in next && e.key == t.key && n.key == t.key ==>
              t == e.(id := n.id, sort := n.sort, states := n.states, host := if n.host != "" then n.host else e.host)
  {
    MergeMembers(existing, next);
    forall e, n | e in existing && n in next && e.key == t.key && n.key == t.key
      ensures t == e.(id := n.id, sort := n.sort, states := n.states, host := if n.host != "" then n.host else e.host)
    {
      assert e.key in KeysOf(existing);
      var f :| f in existing && t == Refresh(f, next);
      SameKeySame(existing, e, f);
      SameKeySame(next, n, LastWithKey(next, t.key).value);
    }
  }

  lemma SameKeySame(ts: seq<Target>, s: Target, t: Target)
    requires DistinctKeys(ts) && s in ts && t in ts && s.key == t.key
    ensures s == t
  {
    var i :| 0 <= i < |ts| && ts[i] == s;
    var j :| 0 <= j < |ts| && ts[j] == t;
    assert KeyOf(ts[i]) == KeyOf(ts[j]);
  }

  // ----- merging the same live data again -----

  lemma RefreshTwice(t: Target, next: seq<Target>)
    ensures Refresh(Refresh(t, next), next) == Refresh(t, next)
  {
  }

  /**
   The live list says one thing about `t`: the last live target of its key, if
   there is one, has its id, sort and states, and no other host.
   */
  predicate Unambiguous(t: Target, next: seq<Target>) {
    var live := LastWithKey(next, t.key);
    live.Some? ==>
      && live.value.id == t.id && live.value.sort == t.sort && live.value.states == t.states
      && (live.value.host == "" || live.value.host == t.host)
  }

  lemma UnambiguousFixed(t: Target, next: seq<Target>)
    ensures Refresh(t, next) == t <==> Unambiguous(t, next)
  {
  }

  lemma MergeKnown(ts: seq<Target>, next: seq<Target>)
    requires KeysOf(next) <= KeysOf(ts)
    ensures MergeTargets(ts, next) == SortTargets(RefreshAll(ts, next))
  {
    forall t | t in next ensures !NotIn(KeysOf(ts))(t) {
      assert t.key in KeysOf(next);
    }
    FilterNone(NotIn(KeysOf(ts)), next);
    assert RefreshAll(ts, next) + [] == RefreshAll(ts, next);
  }

  lemma RefreshAllFixes(ts: seq<Target>, next: seq<Target>)
    requires forall t :: t in ts ==> Unambiguous(t, next)
    ensures RefreshAll(ts, next) == ts
  {
    forall i | 0 <= i < |ts| ensures RefreshAll(ts, next)[i] == ts[i] {
      UnambiguousFixed(ts[i], next);
    }
  }

  lemma FixedUnambiguous(ts: seq<Target>, next: seq<Target>, t: Target)
    requires SortTargets(RefreshAll(ts, next)) == ts && t in ts
    ensures Unambiguous(t, next)
  {
    SortMembers(RefreshAll(ts, next));
    assert t in RefreshAll(ts, next);
    var i :| 0 <= i < |ts| && RefreshAll(ts, next)[i] == t;
    RefreshTwice(ts[i], next);
    UnambiguousFixed(t, next);
  }

  lemma RefreshFixes(ts: seq<Target>, next: seq<Target>)
    requires SortedBySort(ts) && KeysOf(next) <= KeysOf(ts)
    ensures MergeTargets(ts, next) == ts <==> forall t :: t in ts ==> Unambiguous(t, next)
  {
    MergeKnown(ts, next);
    if forall t :: t in ts ==> Unambiguous(t, next) {
      RefreshAllFixes(ts, next);
      SortFixes(ts);
    }
    if SortTargets(RefreshAll(ts, next)) == ts {
      forall t | t in ts ensures Unambiguous(t, next) {
        FixedUnambiguous(ts, next, t);
      }
    }
  }

  /**
   Merging the same live targets a second time changes nothing exactly when each
   newly added target agrees with the last live target of its key.
   */
  lemma MergeTargetsIdempotent(existing: seq<Target>, next: seq<Target>)
    ensures MergeTargets(MergeTargets(existing, next), next) == MergeTargets(existing, next)
       <==> forall t :: t in next && t.key !in KeysOf(existing) ==> Unambiguous(t, next)
  {
    var merged := MergeTargets(existing, next);
    SortSorts(RefreshAll(existing, next) + NewTargets(existing, next));
    MergeMembers(existing, next);
    RefreshFixes(merged, next);
    forall t | t in merged && !(t in next && t.key !in KeysOf(existing)) ensures Unambiguous(t, next) {
      var e :| e in existing && t == Refresh(e, next);
      RefreshTwice(e, next);
      UnambiguousFixed(t, next);
    }
  }

  lemma DistinctUnambiguous(next: seq<Target>, t: Target)
    requires DistinctKeys(next) && t in next
    ensures Unambiguous(t, next)
  {
    SameKeySame(next, t, LastWithKey(next, t.key).value);
  }

  /** What makes a second merge of `incoming` a no-op: sorted new drafts without conflicting duplicates. */
  ghost predicate Repeatable(current: Drafts, incoming: Drafts) {
    forall id :: id in incoming ==>
      var next := incoming[id].targets;
      if id in current then forall t :: t in next && t.key !in KeysOf(current[id].targets) ==> Unambiguous(t, next)
      else SortedBySort(next) && forall t :: t in next ==> Unambiguous(t, next)
  }

  lemma MergeDraftSelf(d: Draft)
    ensures MergeDraft(d, d) == d
       <==> SortedBySort(d.targets) && forall t :: t in d.targets ==> Unambiguous(t, d.targets)
  {
    var ts := d.targets;
    SortSorts(RefreshAll(ts, ts) + NewTargets(ts, ts));
    if SortedBySort(ts) {
      RefreshFixes(ts, ts);
    }
  }

  lemma MergedTwiceAt(current: Drafts, incoming: Drafts, id: int)
    requires id in incoming
    ensures id in Merged(current, incoming) && id in Merged(Merged(current, incoming), incoming)
    ensures Merged(Merged(current, incoming), incoming)[id] == Merged(current, incoming)[id] <==>
              var next := incoming[id].targets;
              if id in current then forall t :: t in next && t.key !in KeysOf(current[id].targets) ==> Unambiguous(t, next)
              else SortedBySort(next) && forall t :: t in next ==> Unambiguous(t, next)
  {
    if id in current {
      MergeTargetsIdempotent(current[id].targets, incoming[id].targets);
    } else {
      MergeDraftSelf(incoming[id]);
    }
  }

  /** `mergeLiveState` is idempotent in its second argument exactly on repeatable inputs. */
  lemma MergeIdempotent(current: Drafts, incoming: Drafts)
    ensures Merged(Merged(current, incoming), incoming) == Merged(current, incoming) <==> Repeatable(current, incoming)
  {
    var once := Merged(current, incoming);
    var twice := Merged(once, incoming);
    assert twice.Keys == once.Keys;
    forall id | id in incoming
      ensures twice[id] == once[id] <==>
                var next := incoming[id].targets;
                if id in current then forall t :: t in next && t.key !in KeysOf(current[id].targets) ==> Unambiguous(t, next)
                else SortedBySort(next) && forall t :: t in next ==> Unambiguous(t, next)
    {
      MergedTwiceAt(current, incoming, id);
    }
    if Repeatable(current, incoming) {
      forall id | id in once ensures twice[id] == once[id] {
      }
      assert twice == once;
    }
  }

  /** Normalised payloads whose targets have distinct keys are always repeatable. */
  lemma DistinctRepeatable(current: Drafts, raw: Payload)
    requires forall id :: id in Normalize(raw).drafts ==> DistinctKeys(Normalize(raw).drafts[id].targets)
    ensures Merged(Merged(current, Normalize(raw).drafts), Normalize(raw).drafts) == Merged(current, Normalize(raw).drafts)
  {
    var incoming := Normalize(raw).drafts;
    NormalizeCoherent(raw);
    forall id, t | id in incoming && t in incoming[id].targets ensures Unambiguous(t, incoming[id].targets) {
      DistinctUnambiguous(incoming[id].targets, t);
    }
    MergeIdempotent(current, incoming);
  }

  /** Two live targets sharing a key: the second merge overwrites what the first one added. */
  lemma DuplicateKeysNotIdempotent() returns (existing: seq<Target>, next: seq<Target>)
    ensures MergeTargets(MergeTargets(existing, next), next) != MergeTargets(existing, next)
  {
    var a := Target(Some(1), "node:1", "", "a.example", 443, 0, false, []);
    existing, next := [], [a, a.(id := Some(2), sort := 1)];
    assert next[1] == LastWithKey(next, "node:1").value;
    assert !Unambiguous(a, next);
    assert a in next;
    MergeTargetsIdempotent(existing, next);
  }
}
