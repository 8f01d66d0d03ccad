/**
 What a configuration payload loads as, field by field from the JSON it holds:
 an independent account of the normalisation.
 */
module EntryMonitorLoaded {

  import opened Options
  import opened JsText
  import opened Sequences
  import opened EntryMonitorModel
  import opened EntryMonitorTab
  import opened EntryMonitorSelection

  /** A numeric field, with what stands in for it when it is absent or no number, and when it is null. */
  function LoadedNumber(field: Field, absent: int, ofNull: int): int {
    match field
    case Missing => absent
    case Null => ofNull
    case NotNumber => absent
    case Number(n) => n
  }

  function LoadedAction(text: string): Action {
    if text == "hide" then Hide else if text == "original" then Original else Override
  }

  // ----- targets -----

  /** The written key, or one made from the id or the position. */
  function LoadedKey(raw: RawTarget, index: nat): string {
    var id := LoadedNumber(raw.id, 0, 0);
    if raw.sourceKey != "" then Trim(raw.sourceKey) else "target:" + IntText(if id != 0 then id else index + 1)
  }

  /** A stored target. */
  function LoadedTarget(raw: RawTarget, index: nat): Target {
    var id := LoadedNumber(raw.id, 0, 0);
    Target(if id != 0 then Some(id) else None, LoadedKey(raw, index), raw.name, Trim(raw.host),
           LoadedNumber(raw.port, 54101, 54101), LoadedNumber(raw.sort, index, 0), raw.autoSplit == Flag.Known(true), raw.states)
  }

  /** Its user-owned part, as a save stores it. */
  function LoadedTargetBody(raw: RawTarget, index: nat): SaveTarget {
    SaveTarget(LoadedKey(raw, index), LoadedNumber(raw.port, 54101, 54101), raw.autoSplit == Flag.Known(true))
  }

  /** A target a rule lists before it is configured. */
  function SuggestedTarget(raw: RawTarget, index: nat): Target {
    Target(None, if raw.sourceKey != "" then Trim(raw.sourceKey) else "target:" + IntText(index + 1), raw.name, Trim(raw.host),
           match raw.port {
             case Number(n) => n
             case NotNumber => 54101
             case Missing => LoadedNumber(raw.suggestedPort, 54101, 54101)
             case Null => LoadedNumber(raw.suggestedPort, 54101, 54101)
           },
           LoadedNumber(raw.sort, index, 0), raw.autoSplit == Flag.Known(true), [])
  }

  /** A port field that says something, be it nonsense. */
  predicate Telling(field: Field) {
    field.NotNumber? || (field.Number? && field.value != 0)
  }

  /** The server of a rule that keeps the original addresses. */
  function ServerTarget(m: Member, index: nat): Target {
    var serverType := ToLower(Trim(m.serverType));
    var serverID := LoadedNumber(m.serverID, 0, 0);
    Target(None,
           if Trim(m.sourceKey) != "" then Trim(m.sourceKey)
           else if serverType != "" && serverID > 0 then serverType + ":" + IntText(serverID)
           else "member:" + IntText(index + 1),
           "", Trim(m.host),
           if Telling(m.port) then LoadedNumber(m.port, 54101, 54101)
           else if Telling(m.serverPort) then LoadedNumber(m.serverPort, 54101, 54101)
           else 54101,
           index, false, [])
  }

  function Suggested(raws: seq<RawTarget>): seq<Target> {
    seq(|raws|, i requires 0 <= i < |raws| => SuggestedTarget(raws[i], i))
  }

  function Servers(members: seq<Member>): seq<Target> {
    seq(|members|, i requires 0 <= i < |members| => ServerTarget(members[i], i))
  }

  function StoredTargets(raws: seq<RawTarget>): (ts: seq<Target>)
    ensures |ts| == |raws|
  {
    seq(|raws|, i requires 0 <= i < |raws| => LoadedTarget(raws[i], i))
  }

  /** What a rule can be monitored at before it is configured. */
  function OfferedTargets(raw: RawPolicy): seq<Target> {
    if raw.action == "hide" then []
    else if raw.targets != [] then Filter((t: Target) => t.key != "" && t.host != "", Suggested(raw.targets))
    else if raw.action == "original" then Filter((t: Target) => t.host != "", Servers(raw.members))
    else if Trim(raw.entryHost) == "" then []
    else [Target(None, "entry_host", "", Trim(raw.entryHost), 54101, 0, false, [])]
  }

  lemma PlainKeyTrimmed(prefix: string, n: int)
    requires prefix != "" && !IsSpace(prefix[0])
    ensures Trim(prefix + IntText(n)) == prefix + IntText(n)
  {
    var text := prefix + IntText(n);
    var digits := Decimal(if n < 0 then -n else n);
    assert text[|text| - 1] == digits[|digits| - 1];
    assert IsDigit(digits[|digits| - 1]);
    TrimmedFixed(text);
    hide Trim;
    hide Decimal;
  }

  lemma LoadsNumber(field: Field, absent: int)
    ensures NumberValue(field, absent) == LoadedNumber(field, absent, 0)
    ensures NumberValue(Coalesce(field, absent), absent) == LoadedNumber(field, absent, absent)
  {
  }

  lemma LoadsTarget(raw: RawTarget, index: nat)
    ensures ConfiguredTarget(raw, index) == LoadedTarget(raw, index)
  {
    var id := NumberValue(raw.id, 0);
    PlainKeyTrimmed("target:", if id != 0 then id else index + 1);
    hide Trim;
    hide Decimal;
  }

  lemma LoadsSuggested(raw: RawTarget, index: nat)
    ensures ListedTarget(raw, index) == SuggestedTarget(raw, index)
  {
    PlainKeyTrimmed("target:", index + 1);
    hide Trim;
    hide Decimal;
  }

  lemma LoadsServer(m: Member, index: nat)
    ensures MemberTarget(m, index) == ServerTarget(m, index)
  {
    hide Trim;
    hide Decimal;
    hide ToLower;
  }

  lemma LoadsOffered(raw: RawPolicy)
    ensures DerivedTargets(NormalizePolicy(raw)) == OfferedTargets(raw)
  {
    assert ListedTargets(raw.targets) == Suggested(raw.targets) by {
      forall i | 0 <= i < |raw.targets| ensures ListedTargets(raw.targets)[i] == Suggested(raw.targets)[i] {
        LoadsSuggested(raw.targets[i], i);
      }
    }
    assert MemberTargets(raw.members) == Servers(raw.members) by {
      forall i | 0 <= i < |raw.members| ensures MemberTargets(raw.members)[i] == Servers(raw.members)[i] {
        LoadsServer(raw.members[i], i);
      }
    }
    TrimTrims(raw.entryHost);
    TrimmedFixed(Trim(raw.entryHost));
    ActionLoads(raw.action);
    hide Trim;
    hide Filter;
    hide IntText;
    hide ListedTargets;
    hide MemberTargets;
    hide Suggested;
    hide Servers;
  }

  lemma ActionLoads(text: string)
    ensures NormalizeAction(text) == LoadedAction(text)
    ensures "hide" != "original"
  {
    assert |"hide"| != |"original"|;
  }

  lemma LoadsStored(raws: seq<RawTarget>)
    ensures ConfiguredTargets(raws) == StoredTargets(raws)
  {
    forall i | 0 <= i < |raws| ensures ConfiguredTargets(raws)[i] == StoredTargets(raws)[i] {
      LoadsTarget(raws[i], i);
    }
  }

  // ----- rules -----

  function LoadedPolicy(raw: RawPolicy): Policy {
    var id := LoadedNumber(raw.id, 0, 0);
    Policy(id, if Trim(raw.name) != "" then Trim(raw.name) else "rule #" + IntText(id), LoadedAction(raw.action),
           Trim(raw.entryHost), raw.enabled != Flag.Known(false), raw.members, raw.targets)
  }

  lemma LoadsPolicy(raw: RawPolicy)
    ensures NormalizePolicy(raw) == LoadedPolicy(raw)
  {
    hide Trim;
    ActionLoads(raw.action);
  }

  /** The rule is enabled and not hidden, and there is an address to monitor. */
  predicate Offering(raw: RawPolicy) {
    raw.enabled != Flag.Known(false) && raw.action != "hide" && OfferedTargets(raw) != []
  }

  lemma LoadsOffering(raw: RawPolicy)
    ensures Selectable(NormalizePolicy(raw)) <==> Offering(raw)
  {
    LoadsOffered(raw);
    ActionLoads(raw.action);
    hide DerivedTargets;
    hide OfferedTargets;
    hide Trim;
  }

  /** A rule is loaded under its positive id. */
  ghost predicate LoadedFrom(raws: seq<RawPolicy>, p: Policy) {
    exists raw :: raw in raws && p == LoadedPolicy(raw) && p.id > 0
  }

  lemma LoadsPolicies(raws: seq<RawPolicy>)
    ensures forall p :: p in NormalizedPolicies(raws) <==> LoadedFrom(raws, p)
  {
    var all := Map(NormalizePolicy, raws);
    forall raw | raw in raws ensures LoadedPolicy(raw) in all {
      var i :| 0 <= i < |raws| && raws[i] == raw;
      LoadsPolicy(raw);
      assert all[i] == NormalizePolicy(raw);
    }
    forall p | p in all ensures exists raw :: raw in raws && p == LoadedPolicy(raw) {
      var i :| 0 <= i < |all| && all[i] == p;
      LoadsPolicy(raws[i]);
      assert raws[i] in raws;
    }
    hide NormalizePolicy;
    hide LoadedPolicy;
  }

  /** The last rule of the payload with this id. */
  function LastRule(raws: seq<RawPolicy>, id: int): Option<RawPolicy> {
    if raws == [] then None
    else if LoadedNumber(raws[|raws| - 1].id, 0, 0) == id then Some(raws[|raws| - 1])
    else LastRule(raws[..|raws| - 1], id)
  }

  lemma PolicyForLast(policies: seq<Policy>, last: Policy, id: int)
    ensures PolicyFor(policies + [last], id) == if last.id == id then Some(last) else PolicyFor(policies, id)
  {
    assert (policies + [last])[..|policies|] == policies;
  }

  lemma NoPolicies(id: int)
    ensures PolicyFor(NormalizedPolicies([]), id) == None
  {
  }

  lemma {:induction false} LoadsLastRule(raws: seq<RawPolicy>, id: int)
    requires id > 0
    ensures PolicyFor(NormalizedPolicies(raws), id)
         == if LastRule(raws, id).Some? then Some(LoadedPolicy(LastRule(raws, id).value)) else None
  {
    hide LoadedPolicy;
    hide NormalizedPolicies;
    hide PolicyFor;
    if raws == [] {
      NoPolicies(id);
    } else {
      var before, last := raws[..|raws| - 1], raws[|raws| - 1];
      assert raws == before + [last];
      LoadsLastRule(before, id);
      LoadedID(last);
      PoliciesLast(before, last);
      if LoadedPolicy(last).id > 0 {
        PolicyForLast(NormalizedPolicies(before), LoadedPolicy(last), id);
      }
    }
  }

  lemma LoadedID(raw: RawPolicy)
    ensures LoadedPolicy(raw).id == LoadedNumber(raw.id, 0, 0)
  {
  }

  lemma PoliciesLast(before: seq<RawPolicy>, last: RawPolicy)
    ensures NormalizedPolicies(before + [last])
         == if LoadedPolicy(last).id > 0 then NormalizedPolicies(before) + [LoadedPolicy(last)] else NormalizedPolicies(before)
  {
    hide NormalizePolicy;
    hide LoadedPolicy;
    LoadsPolicy(last);
    assert Map(NormalizePolicy, before + [last]) == Map(NormalizePolicy, before) + [LoadedPolicy(last)];
    FilterConcat(Identified(), Map(NormalizePolicy, before), [LoadedPolicy(last)]);
    FilterUnit(Identified(), LoadedPolicy(last));
    hide Filter;
    hide Map;
  }

  // ----- drafts -----

  /** The last item of the payload for this rule. */
  function LastItem(items: seq<RawItem>, id: int): Option<RawItem> {
    if items == [] then None
    else if LoadedNumber(items[|items| - 1].policyID, 0, 0) == id then Some(items[|items| - 1])
    else LastItem(items[..|items| - 1], id)
  }

  lemma {:induction false} LoadsLastItem(items: seq<RawItem>, id: int)
    ensures ItemFor(items, id) == LastItem(items, id)
  {
    if items != [] {
      LoadsLastItem(items[..|items| - 1], id);
    }
  }

  /** The draft of a rule with stored settings. */
  function LoadedDraft(raw: RawPolicy, item: RawItem): Draft {
    var policy := LoadedPolicy(raw);
    Draft(policy.id, if item.policyName != "" then item.policyName else policy.name,
          if item.action != "" then LoadedAction(item.action) else policy.action,
          item.enabled != Flag.Known(false),
          LoadedNumber(item.interval, 30, 0), LoadedNumber(item.timeout, 5000, 0),
          LoadedNumber(item.failures, 3, 3), LoadedNumber(item.successes, 2, 2),
          SortTargets(if item.targets != [] then StoredTargets(item.targets) else OfferedTargets(raw)))
  }

  /** The draft of a rule without stored settings. */
  function FreshDraft(raw: RawPolicy): Draft {
    var policy := LoadedPolicy(raw);
    Draft(policy.id, policy.name, policy.action, true, 30, 5000, 3, 2, SortTargets(OfferedTargets(raw)))
  }

  lemma ActionReads(action: Action)
    ensures NormalizeAction(ActionText(action)) == action
  {
    assert |"hide"| != |"original"| && "override"[1] != "original"[1] && |"override"| != |"hide"|;
  }

  lemma LoadsDraft(raw: RawPolicy, item: Option<RawItem>)
    ensures NormalizeDraft(LoadedPolicy(raw), item) == if item.Some? then LoadedDraft(raw, item.value) else FreshDraft(raw)
  {
    hide LoadedPolicy;
    hide NormalizePolicy;
    hide DerivedTargets;
    hide OfferedTargets;
    hide ConfiguredTargets;
    hide StoredTargets;
    hide SortTargets;
    hide NormalizeAction;
    hide LoadedAction;
    LoadsPolicy(raw);
    LoadsOffered(raw);
    LoadsStored(if item.Some? then item.value.targets else []);
    ActionReads(LoadedPolicy(raw).action);
    if item.Some? {
      ActionLoads(item.value.action);
    }
  }

  // ----- the payload -----

  function RuleIDs(items: seq<RawItem>): seq<int> {
    seq(|items|, i requires 0 <= i < |items| => LoadedNumber(items[i].policyID, 0, 0))
  }

  /** The payload offers the rule for monitoring. */
  ghost predicate OffersRule(payload: Payload, id: int) {
    exists raw :: raw in payload.policies && LoadedNumber(raw.id, 0, 0) == id && Offering(raw)
  }

  /**
   A payload loads as: the revision it names; a draft for every rule of a positive
   id, made from the last such rule and the last item for it, with its defaults;
   and as selection the positive ids of its items that it offers, in order.
   */
  lemma PayloadLoads(payload: Payload)
    ensures var c := Normalize(payload);
            && c.revision == LoadedNumber(payload.revision, 0, 0)
            && (forall p :: p in c.policies <==> LoadedFrom(payload.policies, p))
            && (forall id :: id in c.drafts <==> id > 0 && LastRule(payload.policies, id).Some?)
            && (forall id :: id in c.drafts ==>
                  var raw, item := LastRule(payload.policies, id).value, LastItem(payload.items, id);
                  c.drafts[id] == if item.Some? then LoadedDraft(raw, item.value) else FreshDraft(raw))
  {
    hide LoadedDraft;
    hide FreshDraft;
    hide LoadedPolicy;
    hide NormalizeDraft;
    hide NormalizedPolicies;
    hide SelectableIDs;
    hide UniqueIDs;
    LoadsPolicies(payload.policies);
    var policies := NormalizedPolicies(payload.policies);
    var drafts := DraftTable(policies, DraftFor(payload.items));
    DraftTableEntries(policies, DraftFor(payload.items));
    hide DraftTable;
    forall id | PolicyFor(policies, id).Some? ensures id > 0 {
      assert PolicyFor(policies, id).value in policies;
    }
    forall id | id > 0
      ensures PolicyFor(policies, id).Some? <==> LastRule(payload.policies, id).Some?
      ensures id in drafts ==>
                var raw, item := LastRule(payload.policies, id).value, LastItem(payload.items, id);
                drafts[id] == if item.Some? then LoadedDraft(raw, item.value) else FreshDraft(raw)
    {
      LoadsLastRule(payload.policies, id);
      if id in drafts {
        LoadsLastItem(payload.items, id);
        LoadsDraft(LastRule(payload.policies, id).value, LastItem(payload.items, id));
      }
    }
  }

  /** The selection it loads with: a rule disabled or hidden is never in it. */
  lemma SelectionLoads(payload: Payload)
    ensures var c, ids := Normalize(payload), RuleIDs(payload.items);
            && (forall id :: id in c.configured <==> id in ids && id > 0 && OffersRule(payload, id))
            && (forall i, j :: 0 <= i < j < |c.configured| ==> FirstAt(ids, c.configured[i]) < FirstAt(ids, c.configured[j]))
  {
    hide FirstAt;
    hide Picked;
    hide SelectableIDs;
    hide Monitorable;
    var policies := NormalizedPolicies(payload.policies);
    var ids := RuleIDs(payload.items);
    assert ItemIDs(payload.items) == ids;
    PositiveSame(ids);
    ChoosesPicked(SelectableIDs(policies), ids);
    PickedPicks(policies, ids, {});
    assert SelectableIDs(policies) - {} == SelectableIDs(policies);
    forall id | id > 0 ensures Monitorable(policies, id) <==> OffersRule(payload, id) {
      MonitorableOffered(payload, id);
    }
    hide Filter;
    hide FirstWins;
    hide NormalizedPolicies;
    hide OffersRule;
    hide DraftTable;
  }

  lemma MonitorableOffered(payload: Payload, id: int)
    requires id > 0
    ensures Monitorable(NormalizedPolicies(payload.policies), id) <==> OffersRule(payload, id)
  {
    hide Selectable;
    hide Offering;
    var policies := NormalizedPolicies(payload.policies);
    LoadsPolicies(payload.policies);
    hide NormalizedPolicies;
    if Monitorable(policies, id) {
      var p :| p in policies && p.id == id && Selectable(p);
      var raw :| raw in payload.policies && p == LoadedPolicy(raw);
      LoadsPolicy(raw);
      LoadsOffering(raw);
      hide LoadedPolicy;
      hide NormalizePolicy;
      LoadedID(raw);
    }
    if OffersRule(payload, id) {
      var raw :| raw in payload.policies && LoadedNumber(raw.id, 0, 0) == id && Offering(raw);
      LoadsPolicy(raw);
      LoadsOffering(raw);
      LoadedID(raw);
      assert LoadedPolicy(raw) in policies;
    }
  }
}
