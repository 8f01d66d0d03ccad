/**
 The values a stored configuration holds, and how they show in save bodies,
 payloads and drafts.
 */
module EntryMonitorConfig {

  import opened Options
  import opened Sequences
  import opened EntryMonitorModel
  import opened EntryMonitorTab
  import opened EntryMonitorRuns
  import opened EntryMonitorFleet
  import opened EntryMonitorLoaded
  import opened JsText

  // ----- values in a stored configuration -----

  /** The item a configuration holds for a rule: the last one. */
  function BodyFor(config: seq<SaveItem>, id: int): Option<SaveItem> {
    if config == [] then None
    else if config[|config| - 1].policyID == id then Some(config[|config| - 1])
    else BodyFor(config[..|config| - 1], id)
  }

  ghost predicate StoredPortIs(ts: seq<SaveTarget>, key: string, v: SlotValue) {
    (exists t :: t in ts && t.key == key) && forall t :: t in ts && t.key == key ==> v == Amount(t.port)
  }

  ghost predicate StoredAutoSplitIs(ts: seq<SaveTarget>, key: string, v: SlotValue) {
    (exists t :: t in ts && t.key == key) && forall t :: t in ts && t.key == key ==> v == Switch(t.autoSplit)
  }

  ghost predicate ItemHolds(i: SaveItem, aspect: Aspect, v: SlotValue) {
    match aspect
    case Enabled => v == Switch(i.enabled)
    case Interval => v == Amount(i.interval)
    case Timeout => v == Amount(i.timeout)
    case Failures => v == Amount(i.failures)
    case Successes => v == Amount(i.successes)
    case PortOf(key) => StoredPortIs(i.targets, key, v)
    case AutoSplitOf(key) => StoredAutoSplitIs(i.targets, key, v)
  }

  /** The configuration holds the value `v` in this part of the rule's item. */
  ghost predicate ConfigHolds(config: seq<SaveItem>, id: int, aspect: Aspect, v: SlotValue) {
    BodyFor(config, id).Some? && ItemHolds(BodyFor(config, id).value, aspect, v)
  }

  /** The configuration a payload shows. */
  function Config(payload: Payload): seq<SaveItem> {
    Map(RawItemBody, payload.items)
  }

  function BodyIDs(config: seq<SaveItem>): (ids: seq<int>)
    ensures |ids| == |config|
    ensures forall i :: 0 <= i < |config| ==> ids[i] == config[i].policyID
  {
    Map((i: SaveItem) => i.policyID, config)
  }

  lemma TargetsHold(ts: seq<Target>, key: string, v: SlotValue)
    ensures StoredPortIs(Map(TargetBody, ts), key, v) <==> PortIs(ts, key, v)
    ensures StoredAutoSplitIs(Map(TargetBody, ts), key, v) <==> AutoSplitIs(ts, key, v)
  {
    var bodies := Map(TargetBody, ts);
    forall t | t in ts ensures TargetBody(t) in bodies {
      var i :| 0 <= i < |ts| && ts[i] == t;
      assert bodies[i] == TargetBody(t);
    }
    forall b | b in bodies ensures exists t :: t in ts && TargetBody(t) == b {
      var i :| 0 <= i < |bodies| && bodies[i] == b;
      assert ts[i] in ts;
    }
  }

  /** A draft holds what its item in a save body holds. */
  lemma ItemIsDraft(id: int, d: Draft, aspect: Aspect, v: SlotValue)
    ensures ItemHolds(ItemBody(id, d), aspect, v) <==> DraftHolds(d, aspect, v)
  {
    if aspect.PortOf? || aspect.AutoSplitOf? {
      TargetsHold(d.targets, aspect.key, v);
    }
    hide PortIs;
    hide AutoSplitIs;
    hide StoredPortIs;
    hide StoredAutoSplitIs;
  }

  lemma {:induction false} BodyForIs(ids: seq<int>, drafts: Drafts, id: int)
    requires forall i :: 0 <= i < |ids| ==> ids[i] in drafts
    ensures BodyFor(ItemBodies(ids, drafts), id) == if id in ids then Some(ItemBody(id, drafts[id])) else None
  {
    hide ItemBody;
    if ids != [] {
      var before, last := ids[..|ids| - 1], ids[|ids| - 1];
      BodyForIs(before, drafts, id);
      var items := ItemBodies(ids, drafts);
      assert items[..|items| - 1] == ItemBodies(before, drafts);
      assert ids == before + [last];
      ItemBodyNames(last, drafts[last]);
    }
  }

  lemma ItemBodyNames(id: int, d: Draft)
    ensures ItemBody(id, d).policyID == id
  {
  }

  /** A save body holds exactly what the selected drafts hold. */
  lemma BodyIsDrafts(ids: seq<int>, drafts: Drafts, id: int, aspect: Aspect, v: SlotValue)
    requires forall i :: 0 <= i < |ids| ==> ids[i] in drafts
    ensures ConfigHolds(ItemBodies(ids, drafts), id, aspect, v) <==> id in ids && DraftHolds(drafts[id], aspect, v)
  {
    hide ItemHolds;
    hide DraftHolds;
    hide ItemBody;
    BodyForIs(ids, drafts, id);
    if id in ids {
      ItemIsDraft(id, drafts[id], aspect, v);
    }
  }

  lemma BodyNames(ids: seq<int>, drafts: Drafts)
    requires forall i :: 0 <= i < |ids| ==> ids[i] in drafts
    ensures BodyIDs(ItemBodies(ids, drafts)) == ids
  {
    forall i | 0 <= i < |ids| ensures BodyIDs(ItemBodies(ids, drafts))[i] == ids[i] {
      ItemBodyNames(ids[i], drafts[ids[i]]);
    }
  }

  lemma RawFront(items: seq<RawItem>)
    requires items != []
    ensures var bodies := Map(RawItemBody, items);
            bodies != [] && bodies[|bodies| - 1] == RawItemBody(items[|items| - 1])
            && bodies[..|bodies| - 1] == Map(RawItemBody, items[..|items| - 1])
  {
    hide RawItemBody;
  }

  lemma {:induction false} BodyForRaw(items: seq<RawItem>, id: int)
    ensures BodyFor(Map(RawItemBody, items), id)
         == if ItemFor(items, id).Some? then Some(RawItemBody(ItemFor(items, id).value)) else None
  {
    hide RawItemBody;
    if items != [] {
      BodyForRaw(items[..|items| - 1], id);
      RawFront(items);
      RawBodyNames(items[|items| - 1]);
      hide Map;
    }
  }

  lemma RawBodyNames(item: RawItem)
    ensures RawItemBody(item).policyID == NumberValue(item.policyID, 0)
  {
  }

  lemma SortedTargetsHold(ts: seq<Target>, key: string, v: SlotValue)
    ensures PortIs(SortTargets(ts), key, v) <==> PortIs(ts, key, v)
    ensures AutoSplitIs(SortTargets(ts), key, v) <==> AutoSplitIs(ts, key, v)
  {
    SortMembers(ts);
  }

  /** The draft normalised from an item holds the scalars the item shows. */
  lemma ScalarShows(policy: Policy, item: RawItem, aspect: Aspect, v: SlotValue)
    requires !aspect.PortOf? && !aspect.AutoSplitOf?
    ensures ItemHolds(RawItemBody(item), aspect, v) <==> DraftHolds(NormalizeDraft(policy, Some(item)), aspect, v)
  {
    hide SortTargets;
    hide DerivedTargets;
    hide ConfiguredTargets;
    hide LoadedTargetBody;
    hide NormalizeAction;
  }

  lemma NormalizedTargets(policy: Policy, item: RawItem)
    ensures RawItemBody(item).targets == Map(TargetBody, ConfiguredTargets(item.targets))
    ensures ConfiguredTargets(item.targets) != [] ==>
              NormalizeDraft(policy, Some(item)).targets == SortTargets(ConfiguredTargets(item.targets))
  {
    hide Map;
    hide SortTargets;
    hide DerivedTargets;
    hide NumberValue;
    hide NormalizeAction;
    hide LoadedNumber;
    hide LoadedKey;
    hide Trim;
    LoadsStored(item.targets);
    var shown, configured := RawItemBody(item).targets, ConfiguredTargets(item.targets);
    forall i | 0 <= i < |item.targets| ensures shown[i] == TargetBody(configured[i]) {
      assert configured[i] == LoadedTarget(item.targets[i], i);
    }
  }

  /** And its targets, if the item lists any. */
  lemma TargetShows(policy: Policy, item: RawItem, aspect: Aspect, v: SlotValue)
    requires (aspect.PortOf? || aspect.AutoSplitOf?) && RawItemBody(item).targets != []
    ensures ItemHolds(RawItemBody(item), aspect, v) <==> DraftHolds(NormalizeDraft(policy, Some(item)), aspect, v)
  {
    hide NormalizeDraft;
    hide RawItemBody;
    hide ConfiguredTargets;
    hide SortTargets;
    hide PortIs;
    hide AutoSplitIs;
    hide StoredPortIs;
    hide StoredAutoSplitIs;
    var configured := ConfiguredTargets(item.targets);
    NormalizedTargets(policy, item);
    assert |Map(TargetBody, configured)| == |configured|;
    hide Map;
    TargetsHold(configured, aspect.key, v);
    SortedTargetsHold(configured, aspect.key, v);
  }

  /** The configuration itself says this much of the rule's item: something of its targets only if it lists any. */
  ghost predicate Fixed(config: seq<SaveItem>, id: int, aspect: Aspect) {
    && BodyFor(config, id).Some?
    && (aspect.PortOf? || aspect.AutoSplitOf? ==> BodyFor(config, id).value.targets != [])
  }

  /** An installed draft holds exactly what the payload shows, where the payload fixes it. */
  lemma InstalledIs(payload: Payload, id: int, aspect: Aspect, v: SlotValue)
    requires id in Normalize(payload).drafts && Fixed(Config(payload), id, aspect)
    ensures ConfigHolds(Config(payload), id, aspect, v) <==> DraftHolds(Normalize(payload).drafts[id], aspect, v)
  {
    hide ItemHolds;
    hide DraftHolds;
    hide NormalizeDraft;
    hide RawItemBody;
    hide NormalizedPolicies;
    hide DraftTable;
    var policies := NormalizedPolicies(payload.policies);
    DraftTableEntries(policies, DraftFor(payload.items));
    BodyForRaw(payload.items, id);
    var policy, item := PolicyFor(policies, id).value, ItemFor(payload.items, id).value;
    if aspect.PortOf? || aspect.AutoSplitOf? {
      TargetShows(policy, item, aspect, v);
    } else {
      ScalarShows(policy, item, aspect, v);
    }
  }

  /** An installed draft holds what the payload shows. */
  lemma InstalledHolds(payload: Payload, id: int, aspect: Aspect, v: SlotValue)
    requires id in Normalize(payload).drafts && ConfigHolds(Config(payload), id, aspect, v)
    ensures DraftHolds(Normalize(payload).drafts[id], aspect, v)
  {
    hide Config;
    hide Normalize;
    hide DraftHolds;
    InstalledIs(payload, id, aspect, v);
  }

  lemma UniqueHold(ids: seq<int>, id: int)
    ensures id in UniqueIDs(ids) <==> id in ids && id > 0
  {
    var positive := Filter((id: int) => id > 0, ids);
    FirstWinsKeys(Identity, positive);
    if id in positive {
      var i :| 0 <= i < |positive| && positive[i] == id;
      assert Identity(positive[i]) == id && HasKey(Identity, id, positive);
      assert HasKey(Identity, id, UniqueIDs(ids));
    }
  }

  lemma ConfigNames(payload: Payload)
    ensures BodyIDs(Config(payload)) == ItemIDs(payload.items)
  {
    forall i | 0 <= i < |payload.items| ensures BodyIDs(Config(payload))[i] == ItemIDs(payload.items)[i] {
      RawBodyNames(payload.items[i]);
    }
  }

  /** An installed selection is what the payload's configuration lists, up to rules that cannot be selected. */
  lemma ConfiguredIs(payload: Payload)
    ensures forall id :: id in Normalize(payload).configured ==> id in BodyIDs(Config(payload))
    ensures forall id :: id in BodyIDs(Config(payload)) && id in Offered(payload) ==> id in Normalize(payload).configured
  {
    ConfigNames(payload);
    hide BodyIDs;
    hide UniqueIDs;
    hide NormalizedPolicies;
    hide SelectableIDs;
    hide DraftTable;
    hide ItemIDs;
    var ids := ItemIDs(payload.items);
    forall id ensures id in UniqueIDs(ids) <==> id in ids && id > 0 {
      UniqueHold(ids, id);
    }
  }

  // ----- what a clean tab sends -----

  /** The body a tab sends that shows exactly this payload. */
  ghost predicate CleanImage(config: seq<SaveItem>, payload: Payload) {
    var c := Normalize(payload);
    && (forall i :: 0 <= i < |c.configured| ==> c.configured[i] in c.drafts)
    && config == ItemBodies(c.configured, c.drafts)
  }

  /** It agrees with what the payload shows, where the payload fixes it. */
  lemma CleanImageAgrees(config: seq<SaveItem>, payload: Payload, id: int, aspect: Aspect, v: SlotValue)
    requires CleanImage(config, payload) && ConfigHolds(config, id, aspect, v) && Fixed(Config(payload), id, aspect)
    ensures ConfigHolds(Config(payload), id, aspect, v)
  {
    hide Config;
    hide Normalize;
    hide DraftHolds;
    hide ConfigHolds;
    hide Fixed;
    var c := Normalize(payload);
    BodyIsDrafts(c.configured, c.drafts, id, aspect, v);
    InstalledIs(payload, id, aspect, v);
  }

  /** And it names only rules the payload lists. */
  lemma CleanImageLists(config: seq<SaveItem>, payload: Payload)
    requires CleanImage(config, payload)
    ensures forall id :: id in BodyIDs(config) ==> id in BodyIDs(Config(payload))
  {
    hide Config;
    hide Normalize;
    hide BodyIDs;
    var c := Normalize(payload);
    BodyNames(c.configured, c.drafts);
    ConfiguredIs(payload);
  }
}
