/**
 Subscription-guard search: the entry options offered, their parsing back, the
 validation of the filters, the request parameters and the filter fingerprint.
 */
module GuardSearch {

  import opened Options
  import opened JsText
  import opened Sequences

  /** A JavaScript number. */
  datatype Num = Finite(value: real) | PositiveInfinity | NegativeInfinity | NaN

  /** `Number.isSafeInteger` */
  predicate IsSafe(n: Num) {
    && n.Finite?
    && n.value == n.value.Floor as real
    && -(MAX_SAFE_INTEGER as real) <= n.value <= MAX_SAFE_INTEGER as real
  }

  predicate IsPositive(n: Num) {
    n.PositiveInfinity? || (n.Finite? && n.value > 0.0)
  }

  /** `Number(digits)`: exact up to the largest safe integer, decided by `other` beyond. */
  function NumberOfDigits(other: string -> Num, digits: string): Num
    requires AllDigits(digits)
  {
    if DecimalValue(digits) <= MAX_SAFE_INTEGER then Finite(DecimalValue(digits) as real) else other(digits)
  }

  // ----- entry selections -----

  /** `{ policy_id?, group_id? }`, or the error. */
  datatype Selection = Nothing | Chosen(policy: Num, group: Option<Num>) | Invalid

  const POLICY := "policy:"
  const GROUP := "/group:"

  /** `entrySearchSelection` */
  function EntrySelection(other: string -> Num, value: string): Selection {
    if value == "" then Nothing
    else if POLICY <= value then ParseRule(other, value[|POLICY|..])
    else Invalid
  }

  /** The digits of the rule and what follows them. */
  function ParseRule(other: string -> Num, rest: string): Selection {
    var n := DigitRun(rest);
    if n == 0 || !IsPositive(NumberOfDigits(other, rest[..n])) then Invalid
    else ParseGroup(other, NumberOfDigits(other, rest[..n]), rest[n..])
  }

  function ParseGroup(other: string -> Num, policy: Num, tail: string): Selection {
    if tail == "" then Chosen(policy, None)
    else if !(GROUP <= tail) || !AllDigits(tail[|GROUP|..]) then Invalid
    else
      var group := NumberOfDigits(other, tail[|GROUP|..]);
      if IsPositive(group) then Chosen(policy, Some(group)) else Invalid
  }

  /** A rule, or one of its leaf groups. */
  datatype Target = Target(policy: nat, group: Option<nat>)

  predicate ValidID(id: nat) {
    0 < id <= MAX_SAFE_INTEGER
  }

  predicate ValidTarget(t: Target) {
    ValidID(t.policy) && (t.group.Some? ==> ValidID(t.group.value))
  }

  function ValueOf(t: Target): string {
    POLICY + Decimal(t.policy) + GroupText(t.group)
  }

  function SelectionOf(t: Target): Selection {
    Chosen(Finite(t.policy as real), if t.group.Some? then Some(Finite(t.group.value as real)) else None)
  }

  lemma DecimalNumber(other: string -> Num, id: nat)
    requires ValidID(id)
    ensures NumberOfDigits(other, Decimal(id)) == Finite(id as real) && IsPositive(Finite(id as real))
  {
    DecimalRoundTrip(id);
  }

  function GroupText(group: Option<nat>): string {
    if group.Some? then GROUP + Decimal(group.value) else ""
  }

  lemma GroupParses(other: string -> Num, policy: Num, group: Option<nat>)
    requires group.Some? ==> ValidID(group.value)
    ensures ParseGroup(other, policy, GroupText(group))
         == Chosen(policy, if group.Some? then Some(Finite(group.value as real)) else None)
  {
    hide Decimal;
    hide NumberOfDigits;
    hide IsPositive;
    if group.Some? {
      DecimalNumber(other, group.value);
      var tail := GroupText(group);
      assert GROUP <= tail && tail[|GROUP|..] == Decimal(group.value);
    }
  }

  lemma RuleParses(other: string -> Num, t: Target)
    requires ValidTarget(t)
    ensures ParseRule(other, Decimal(t.policy) + GroupText(t.group)) == SelectionOf(t)
  {
    hide Decimal;
    hide NumberOfDigits;
    hide IsPositive;
    hide ParseGroup;
    hide DigitRun;
    var digits, tail := Decimal(t.policy), GroupText(t.group);
    DigitRunOf(digits, tail);
    assert (digits + tail)[..|digits|] == digits && (digits + tail)[|digits|..] == tail;
    DecimalNumber(other, t.policy);
    GroupParses(other, Finite(t.policy as real), t.group);
  }

  /** The value of an option parses back to exactly its policy and group. */
  lemma OptionParses(other: string -> Num, t: Target)
    requires ValidTarget(t)
    ensures EntrySelection(other, ValueOf(t)) == SelectionOf(t)
  {
    hide ParseRule;
    hide Decimal;
    hide GroupText;
    RuleParses(other, t);
    var rest := Decimal(t.policy) + GroupText(t.group);
    assert ValueOf(t) == POLICY + rest;
    assert (POLICY + rest)[|POLICY|..] == rest;
  }

  /** `^policy:(\d+)(?:\/group:(\d+))?$` with its groups. */
  ghost predicate EntryApart(value: string, policy: string, group: Option<string>) {
    && AllDigits(policy) && (group.Some? ==> AllDigits(group.value))
    && value == POLICY + (policy + if group.Some? then GROUP + group.value else "")
  }

  /** A value that comes apart this way is the selection of its numbers, or invalid when one is not positive. */
  lemma EntryReads(other: string -> Num, value: string, policy: string, group: Option<string>)
    requires EntryApart(value, policy, group)
    ensures var numbers := Chosen(NumberOfDigits(other, policy), if group.Some? then Some(NumberOfDigits(other, group.value)) else None);
            EntrySelection(other, value) ==
              if IsPositive(numbers.policy) && (numbers.group.Some? ==> IsPositive(numbers.group.value)) then numbers else Invalid
  {
    hide NumberOfDigits;
    hide IsPositive;
    hide DigitRun;
    var tail := if group.Some? then GROUP + group.value else "";
    var rest := policy + tail;
    assert value[|POLICY|..] == rest;
    assert forall c :: c in policy ==> IsDigit(c);
    DigitRunOf(policy, tail);
    assert rest[..|policy|] == policy && rest[|policy|..] == tail;
    assert group.Some? ==> tail[|GROUP|..] == group.value;
  }

  /** Every value that selects an entry comes apart this way. */
  lemma EntryComesApart(other: string -> Num, value: string) returns (policy: string, group: Option<string>)
    requires EntrySelection(other, value).Chosen?
    ensures EntryApart(value, policy, group)
  {
    hide NumberOfDigits;
    hide IsPositive;
    hide DigitRun;
    var rest := value[|POLICY|..];
    policy := rest[..DigitRun(rest)];
    var tail := rest[DigitRun(rest)..];
    group := if tail == "" then None else Some(tail[|GROUP|..]);
    assert value == POLICY + rest && rest == policy + tail;
    assert group.Some? ==> tail == GROUP + group.value;
  }

  lemma ValuesInjective(s: Target, t: Target)
    requires ValidTarget(s) && ValidTarget(t) && ValueOf(s) == ValueOf(t)
    ensures s == t
  {
    var other := (text: string) => NaN;
    OptionParses(other, s);
    OptionParses(other, t);
    assert (s.policy as real).Floor == (t.policy as real).Floor;
    if s.group.Some? {
      assert (s.group.value as real).Floor == (t.group.value as real).Floor;
    }
  }

  // ----- the options offered -----

  datatype Group = Group(id: Num, leaf: bool, name: string, path: string, sort: Num)

  /** A rule as fetched; `groups` is empty when it is not an array. */
  datatype Policy = Policy(id: Num, mode: string, enabled: bool, groups: seq<Group>)

  datatype EntryOption = EntryOption(value: string, disabled: bool)

  predicate UsableID(n: Num) {
    IsSafe(n) && n.value > 0.0
  }

  function IDOf(n: Num): (id: nat)
    requires UsableID(n)
    ensures ValidID(id) && n == Finite(id as real)
  {
    n.value.Floor
  }

  function IsLeaf(): Group -> bool {
    (g: Group) => g.leaf
  }

  /** The leaf groups in display order. */
  function Leaves(arrange: seq<Group> -> seq<Group>, policy: Policy): seq<Group> {
    if ToLower(policy.mode) == "split" then arrange(Filter(IsLeaf(), policy.groups)) else []
  }

  function GroupTargets(policy: nat, groups: seq<Group>): seq<Target> {
    if groups == [] then []
    else (if UsableID(groups[0].id) then [Target(policy, Some(IDOf(groups[0].id)))] else []) + GroupTargets(policy, groups[1..])
  }

  /** What one rule offers: itself, then its leaf groups. */
  function PolicyTargets(arrange: seq<Group> -> seq<Group>, policy: Policy): seq<Target> {
    if !UsableID(policy.id) then []
    else [Target(IDOf(policy.id), None)] + GroupTargets(IDOf(policy.id), Leaves(arrange, policy))
  }

  function AllTargets(arrange: seq<Group> -> seq<Group>, policies: seq<Policy>): seq<Target> {
    if policies == [] then [] else PolicyTargets(arrange, policies[0]) + AllTargets(arrange, policies[1..])
  }

  /** The options for some targets of one rule. */
  function Offered(targets: seq<Target>, disabled: bool): (r: seq<EntryOption>)
    ensures |r| == |targets|
    ensures forall k :: 0 <= k < |r| ==> r[k] == EntryOption(ValueOf(targets[k]), disabled)
  {
    seq(|targets|, k requires 0 <= k < |targets| => EntryOption(ValueOf(targets[k]), disabled))
  }

  function AllOptions(arrange: seq<Group> -> seq<Group>, policies: seq<Policy>): seq<EntryOption> {
    if policies == [] then []
    else Offered(PolicyTargets(arrange, policies[0]), !policies[0].enabled) + AllOptions(arrange, policies[1..])
  }

  lemma AllStep(arrange: seq<Group> -> seq<Group>, policies: seq<Policy>, i: nat)
    requires i < |policies|
    ensures AllOptions(arrange, policies[i..])
         == Offered(PolicyTargets(arrange, policies[i]), !policies[i].enabled) + AllOptions(arrange, policies[i + 1..])
  {
    hide Offered;
    hide PolicyTargets;
    var rest := policies[i..];
    assert rest[0] == policies[i] && rest[1..] == policies[i + 1..];
  }

  lemma AllEnd(arrange: seq<Group> -> seq<Group>, policies: seq<Policy>)
    ensures AllOptions(arrange, policies[|policies|..]) == []
  {
  }

  method EntrySearchOptions(arrange: seq<Group> -> seq<Group>, policies: seq<Policy>) returns (options: seq<EntryOption>)
    ensures options == AllOptions(arrange, policies)
  {
    hide Offered;
    hide PolicyTargets;
    hide AllOptions;
    options := [];
    for i := 0 to |policies|
      invariant options + AllOptions(arrange, policies[i..]) == AllOptions(arrange, policies[0..])
    {
      var more := OptionsOfPolicy(arrange, policies[i]);
      ghost var rest := AllOptions(arrange, policies[i + 1..]);
      AllStep(arrange, policies, i);
      assert (options + more) + rest == options + (more + rest);
      options := options + more;
    }
    AllEnd(arrange, policies);
    assert policies[0..] == policies;
  }

  method OptionsOfPolicy(arrange: seq<Group> -> seq<Group>, policy: Policy) returns (options: seq<EntryOption>)
    ensures options == Offered(PolicyTargets(arrange, policy), !policy.enabled)
  {
    hide IsSafe;
    hide Leaves;
    hide Decimal;
    if !UsableID(policy.id) {
      return [];
    }
    var id := IDOf(policy.id);
    var disabled := !policy.enabled;
    assert POLICY + Decimal(id) + "" == POLICY + Decimal(id);
    options := [EntryOption(POLICY + Decimal(id), disabled)];
    ghost var targets := [Target(id, None)];
    var groups := Leaves(arrange, policy);
    for i := 0 to |groups|
      invariant targets + GroupTargets(id, groups[i..]) == [Target(id, None)] + GroupTargets(id, groups)
      invariant options == Offered(targets, disabled)
    {
      assert groups[i..][1..] == groups[i + 1..];
      if UsableID(groups[i].id) {
        var groupID := IDOf(groups[i].id);
        ghost var target := Target(id, Some(groupID));
        assert POLICY + Decimal(id) + (GROUP + Decimal(groupID)) == POLICY + Decimal(id) + GROUP + Decimal(groupID);
        options := options + [EntryOption(POLICY + Decimal(id) + GROUP + Decimal(groupID), disabled)];
        assert (targets + [target]) + GroupTargets(id, groups[i + 1..]) == targets + ([target] + GroupTargets(id, groups[i + 1..]));
        targets := targets + [target];
      }
    }
  }

  lemma {:induction false} GroupTargetsValid(policy: nat, groups: seq<Group>)
    requires ValidID(policy)
    ensures forall t :: t in GroupTargets(policy, groups) ==> ValidTarget(t) && t.policy == policy && t.group.Some?
  {
    if groups != [] {
      GroupTargetsValid(policy, groups[1..]);
    }
  }

  lemma {:induction false} OptionsMatchTargets(arrange: seq<Group> -> seq<Group>, policies: seq<Policy>)
    ensures var options, targets := AllOptions(arrange, policies), AllTargets(arrange, policies);
            |options| == |targets| && forall k :: 0 <= k < |options| ==>
              ValidTarget(targets[k]) && options[k].value == ValueOf(targets[k])
  {
    hide ValueOf;
    hide IsSafe;
    hide Leaves;
    if policies != [] {
      OptionsMatchTargets(arrange, policies[1..]);
      if UsableID(policies[0].id) {
        GroupTargetsValid(IDOf(policies[0].id), Leaves(arrange, policies[0]));
      }
    }
  }

  /** Every option emitted parses back to the rule and group it was emitted for. */
  lemma OptionsParse(other: string -> Num, arrange: seq<Group> -> seq<Group>, policies: seq<Policy>, k: nat)
    requires k < |AllOptions(arrange, policies)|
    ensures k < |AllTargets(arrange, policies)|
    ensures EntrySelection(other, AllOptions(arrange, policies)[k].value) == SelectionOf(AllTargets(arrange, policies)[k])
  {
    OptionsMatchTargets(arrange, policies);
    OptionParses(other, AllTargets(arrange, policies)[k]);
  }

  /** `arrange` puts groups in display order. */
  ghost predicate Arranges(arrange: seq<Group> -> seq<Group>) {
    forall groups :: multiset(arrange(groups)) == multiset(groups)
  }

  /** The number of a usable id. */
  ghost predicate Numbered(n: Num, id: nat) {
    0 < id <= MAX_SAFE_INTEGER && n == Finite(id as real)
  }

  /** A leaf group of a split rule. */
  ghost predicate LeafOf(policy: Policy, group: nat) {
    ToLower(policy.mode) == "split" && exists g :: g in policy.groups && g.leaf && Numbered(g.id, group)
  }

  ghost predicate LeafOption(policy: Policy, id: nat, value: string) {
    exists group: nat :: LeafOf(policy, group) && value == "policy:" + Decimal(id) + "/group:" + Decimal(group)
  }

  /** An option of a rule: the rule itself or one of its leaf groups, out of use exactly with the rule. */
  ghost predicate OptionOf(policy: Policy, option: EntryOption) {
    && option.disabled == !policy.enabled
    && exists id: nat :: Numbered(policy.id, id) && (option.value == "policy:" + Decimal(id) || LeafOption(policy, id, option.value))
  }

  lemma NumberedIs(n: Num, id: nat)
    ensures Numbered(n, id) <==> UsableID(n) && IDOf(n) == id
  {
  }

  lemma LeavesAre(arrange: seq<Group> -> seq<Group>, policy: Policy, group: nat)
    requires Arranges(arrange)
    ensures LeafOf(policy, group) <==>
              exists i :: 0 <= i < |Leaves(arrange, policy)| && UsableID(Leaves(arrange, policy)[i].id)
                          && IDOf(Leaves(arrange, policy)[i].id) == group
  {
    hide Numbered;
    hide UsableID;
    hide ToLower;
    var leaves, kept := Leaves(arrange, policy), Filter(IsLeaf(), policy.groups);
    if LeafOf(policy, group) {
      var g :| g in policy.groups && g.leaf && Numbered(g.id, group);
      assert g in kept && IsLeaf()(g);
      assert g in multiset(kept) && multiset(arrange(kept)) == multiset(kept);
      assert g in leaves;
      NumberedIs(g.id, group);
    }
    if i :| 0 <= i < |leaves| && UsableID(leaves[i].id) && IDOf(leaves[i].id) == group {
      var g := leaves[i];
      assert multiset(arrange(kept)) == multiset(kept);
      assert g in multiset(arrange(kept));
      assert g in kept;
      NumberedIs(g.id, group);
    }
  }

  /** The targets of a rule are the rule itself and its leaf groups. */
  lemma TargetsOfRule(arrange: seq<Group> -> seq<Group>, policy: Policy, t: Target)
    requires Arranges(arrange)
    ensures t in PolicyTargets(arrange, policy) <==>
              Numbered(policy.id, t.policy) && (t.group.Some? ==> LeafOf(policy, t.group.value))
  {
    hide LeafOf;
    hide Leaves;
    hide UsableID;
    hide Numbered;
    NumberedIs(policy.id, t.policy);
    if UsableID(policy.id) {
      GroupTargetsValid(IDOf(policy.id), Leaves(arrange, policy));
      if t.group.Some? {
        GroupTargetsHold(IDOf(policy.id), Leaves(arrange, policy), t.group.value);
        LeavesAre(arrange, policy, t.group.value);
      }
    }
  }

  lemma ValueText(t: Target)
    ensures ValueOf(t) == if t.group.Some? then "policy:" + Decimal(t.policy) + "/group:" + Decimal(t.group.value)
                          else "policy:" + Decimal(t.policy)
  {
    hide Decimal;
  }

  lemma RuleOffers(arrange: seq<Group> -> seq<Group>, policy: Policy, option: EntryOption)
    requires Arranges(arrange)
    ensures option in Offered(PolicyTargets(arrange, policy), !policy.enabled) <==> OptionOf(policy, option)
  {
    hide Decimal;
    hide ValueOf;
    hide LeafOf;
    hide PolicyTargets;
    hide Numbered;
    hide Arranges;
    var targets := PolicyTargets(arrange, policy);
    var options := Offered(targets, !policy.enabled);
    if option in options {
      var k :| 0 <= k < |options| && options[k] == option;
      assert targets[k] in targets;
      TargetsOfRule(arrange, policy, targets[k]);
      ValueText(targets[k]);
    }
    if OptionOf(policy, option) {
      var id: nat :| Numbered(policy.id, id) && (option.value == "policy:" + Decimal(id) || LeafOption(policy, id, option.value));
      var t := Target(id, None);
      if option.value != "policy:" + Decimal(id) {
        var group: nat :| LeafOf(policy, group) && option.value == "policy:" + Decimal(id) + "/group:" + Decimal(group);
        t := Target(id, Some(group));
      }
      TargetsOfRule(arrange, policy, t);
      ValueText(t);
      var k :| 0 <= k < |targets| && targets[k] == t;
      assert options[k] == option;
    }
  }

  /**
   An option is offered exactly when it is a rule with a usable id, or a leaf
   group with a usable id of such a rule in split mode; it is disabled exactly
   when its rule is not enabled.
   */
  lemma {:induction false} OptionOffered(arrange: seq<Group> -> seq<Group>, policies: seq<Policy>, option: EntryOption)
    requires Arranges(arrange)
    ensures option in AllOptions(arrange, policies) <==> exists p :: p in policies && OptionOf(p, option)
  {
    hide Offered;
    hide PolicyTargets;
    hide OptionOf;
    hide Arranges;
    if policies != [] {
      RuleOffers(arrange, policies[0], option);
      OptionOffered(arrange, policies[1..], option);
    }
  }

  lemma AllCons(arrange: seq<Group> -> seq<Group>, policy: Policy, rest: seq<Policy>)
    ensures AllOptions(arrange, [policy] + rest)
         == Offered(PolicyTargets(arrange, policy), !policy.enabled) + AllOptions(arrange, rest)
  {
    hide Offered;
    hide PolicyTargets;
    assert ([policy] + rest)[1..] == rest;
  }

  lemma AllStart(arrange: seq<Group> -> seq<Group>)
    ensures AllOptions(arrange, []) == []
  {
  }

  lemma Regroup<A>(xs: seq<A>, ys: seq<A>, zs: seq<A>)
    ensures xs + (ys + zs) == (xs + ys) + zs
  {
  }

  /** Rules are offered in their order. */
  lemma {:induction false} OptionsInOrder(arrange: seq<Group> -> seq<Group>, before: seq<Policy>, behind: seq<Policy>)
    ensures AllOptions(arrange, before + behind) == AllOptions(arrange, before) + AllOptions(arrange, behind)
  {
    hide AllOptions;
    hide Offered;
    hide PolicyTargets;
    AllStart(arrange);
    if before == [] {
      assert before + behind == behind;
    } else {
      var rest := before[1..];
      OptionsInOrder(arrange, rest, behind);
      AllCons(arrange, before[0], rest);
      AllCons(arrange, before[0], rest + behind);
      assert before == [before[0]] + rest;
      assert before + behind == [before[0]] + (rest + behind);
      Regroup(Offered(PolicyTargets(arrange, before[0]), !before[0].enabled), AllOptions(arrange, rest), AllOptions(arrange, behind));
    }
  }

  lemma GroupsStart(policy: nat, g: Group, rest: seq<Group>)
    ensures GroupTargets(policy, []) == []
    ensures GroupTargets(policy, [g] + rest)
         == (if UsableID(g.id) then [Target(policy, Some(IDOf(g.id)))] else []) + GroupTargets(policy, rest)
  {
    hide UsableID;
    assert ([g] + rest)[1..] == rest;
  }

  /** The groups of a rule are offered in display order. */
  lemma {:induction false} GroupsInOrder(policy: nat, before: seq<Group>, behind: seq<Group>)
    ensures GroupTargets(policy, before + behind) == GroupTargets(policy, before) + GroupTargets(policy, behind)
  {
    hide UsableID;
    hide GroupTargets;
    if before == [] {
      assert before + behind == behind;
      GroupsStart(policy, Group(NaN, false, "", "", NaN), behind);
      Regroup([], GroupTargets(policy, behind), []);
    } else {
      var rest := before[1..];
      GroupsInOrder(policy, rest, behind);
      GroupsStart(policy, before[0], rest);
      GroupsStart(policy, before[0], rest + behind);
      assert before == [before[0]] + rest;
      assert before + behind == [before[0]] + (rest + behind);
      var head := if UsableID(before[0].id) then [Target(policy, Some(IDOf(before[0].id)))] else [];
      Regroup(head, GroupTargets(policy, rest), GroupTargets(policy, behind));
    }
  }

  /** A rule is offered before its groups. */
  lemma RuleComesFirst(arrange: seq<Group> -> seq<Group>, policy: Policy, id: nat)
    requires Numbered(policy.id, id)
    ensures var options := AllOptions(arrange, [policy]);
            options != [] && options[0] == EntryOption("policy:" + Decimal(id), !policy.enabled)
  {
    hide Decimal;
    hide Leaves;
    hide ValueOf;
    hide Numbered;
    hide UsableID;
    NumberedIs(policy.id, id);
    ValueText(Target(id, None));
    var targets := PolicyTargets(arrange, policy);
    assert targets[0] == Target(id, None);
    assert [policy][1..] == [];
    assert AllOptions(arrange, [policy]) == Offered(targets, !policy.enabled);
  }

  ghost predicate DistinctTargets(targets: seq<Target>) {
    forall i, j :: 0 <= i < j < |targets| ==> targets[i] != targets[j]
  }

  ghost predicate DistinctValues(options: seq<EntryOption>) {
    forall i, j :: 0 <= i < j < |options| ==> options[i].value != options[j].value
  }

  /** Usable ids of different rules, and of different leaf groups of one rule, differ. */
  ghost predicate DistinctIDs(arrange: seq<Group> -> seq<Group>, policies: seq<Policy>) {
    DistinctRules(policies) && AllGroupsDistinct(arrange, policies)
  }

  ghost predicate DistinctRules(policies: seq<Policy>) {
    forall i, j :: 0 <= i < j < |policies| && UsableID(policies[i].id) ==> policies[i].id != policies[j].id
  }

  ghost predicate AllGroupsDistinct(arrange: seq<Group> -> seq<Group>, policies: seq<Policy>) {
    forall p :: p in policies && UsableID(p.id) ==> DistinctGroups(Leaves(arrange, p))
  }

  ghost predicate DistinctGroups(groups: seq<Group>) {
    forall i, j :: 0 <= i < j < |groups| && UsableID(groups[i].id) ==> groups[i].id != groups[j].id
  }

  lemma DistinctConcat(xs: seq<Target>, ys: seq<Target>)
    ensures DistinctTargets(xs + ys) <==>
              DistinctTargets(xs) && DistinctTargets(ys) && forall t :: t in xs ==> t !in ys
  {
    var zs := xs + ys;
    if DistinctTargets(zs) {
      forall i, j | 0 <= i < j < |xs| ensures xs[i] != xs[j] {
        assert zs[i] != zs[j];
      }
      forall i, j | 0 <= i < j < |ys| ensures ys[i] != ys[j] {
        assert zs[|xs| + i] != zs[|xs| + j];
      }
    } else {
      var i, j :| 0 <= i < j < |zs| && zs[i] == zs[j];
      if i < |xs| <= j {
        assert zs[i] in xs && zs[j] in ys;
      }
    }
    if t :| t in xs && t in ys {
      var i :| 0 <= i < |xs| && xs[i] == t;
      var j :| 0 <= j < |ys| && ys[j] == t;
      assert zs[i] == zs[|xs| + j];
    }
  }

  lemma {:induction false} GroupTargetsHold(policy: nat, groups: seq<Group>, id: nat)
    ensures Target(policy, Some(id)) in GroupTargets(policy, groups) <==>
              exists i :: 0 <= i < |groups| && UsableID(groups[i].id) && IDOf(groups[i].id) == id
  {
    hide IsSafe;
    if groups != [] {
      GroupTargetsHold(policy, groups[1..], id);
      assert forall i :: 0 <= i < |groups[1..]| ==> groups[1..][i] == groups[i + 1];
      if i :| 0 <= i < |groups| && UsableID(groups[i].id) && IDOf(groups[i].id) == id {
        if i > 0 {
          assert groups[1..][i - 1] == groups[i];
        }
      }
    }
  }

  lemma {:induction false} GroupsDistinct(policy: nat, groups: seq<Group>)
    ensures DistinctTargets(GroupTargets(policy, groups)) <==> DistinctGroups(groups)
  {
    hide UsableID;
    if groups != [] {
      var g, rest := groups[0], groups[1..];
      GroupsDistinct(policy, rest);
      assert forall i :: 0 <= i < |rest| ==> rest[i] == groups[i + 1];
      assert DistinctGroups(groups) <==> DistinctGroups(rest) && (UsableID(g.id) ==> forall i :: 0 <= i < |rest| ==> rest[i].id != g.id);
      if UsableID(g.id) {
        var t, more := Target(policy, Some(IDOf(g.id))), GroupTargets(policy, rest);
        DistinctConcat([t], more);
        GroupTargetsHold(policy, rest, IDOf(g.id));
        assert GroupTargets(policy, groups) == [t] + more;
        assert DistinctTargets([t] + more) <==> DistinctTargets(more) && t !in more by {
          assert DistinctTargets([t]) && t in [t];
        }
        assert t in more <==> exists i :: 0 <= i < |rest| && rest[i].id == g.id;
      } else {
        assert GroupTargets(policy, groups) == GroupTargets(policy, rest);
      }
    }
  }

  lemma {:induction false} AllTargetsHold(arrange: seq<Group> -> seq<Group>, policies: seq<Policy>, id: nat)
    ensures Target(id, None) in AllTargets(arrange, policies) <==>
              exists i :: 0 <= i < |policies| && UsableID(policies[i].id) && IDOf(policies[i].id) == id
    ensures forall t :: t in AllTargets(arrange, policies) && t.policy == id ==> Target(id, None) in AllTargets(arrange, policies)
  {
    hide IsSafe;
    hide Leaves;
    if policies != [] {
      var rest := policies[1..];
      AllTargetsHold(arrange, rest, id);
      assert forall i :: 0 <= i < |rest| ==> rest[i] == policies[i + 1];
      if UsableID(policies[0].id) {
        GroupTargetsValid(IDOf(policies[0].id), Leaves(arrange, policies[0]));
      }
      if i :| 0 <= i < |policies| && UsableID(policies[i].id) && IDOf(policies[i].id) == id {
        if i > 0 {
          assert rest[i - 1] == policies[i];
        }
      }
    }
  }

  /** The head rule's targets are distinct from each other and from the rest. */
  lemma HeadDistinct(arrange: seq<Group> -> seq<Group>, policy: Policy, rest: seq<Policy>)
    ensures DistinctTargets(PolicyTargets(arrange, policy)) <==> UsableID(policy.id) ==> DistinctGroups(Leaves(arrange, policy))
    ensures (forall t :: t in PolicyTargets(arrange, policy) ==> t !in AllTargets(arrange, rest)) <==>
              UsableID(policy.id) ==> forall i :: 0 <= i < |rest| ==> rest[i].id != policy.id
  {
    hide UsableID;
    hide Leaves;
    hide AllTargets;
    if UsableID(policy.id) {
      var id, groups := IDOf(policy.id), Leaves(arrange, policy);
      GroupTargetsValid(id, groups);
      GroupsDistinct(id, groups);
      DistinctConcat([Target(id, None)], GroupTargets(id, groups));
      AllTargetsHold(arrange, rest, id);
      assert Target(id, None) in PolicyTargets(arrange, policy);
      assert Target(id, None) in AllTargets(arrange, rest) <==> exists i :: 0 <= i < |rest| && rest[i].id == policy.id;
    }
  }

  lemma {:induction false} TargetsDistinct(arrange: seq<Group> -> seq<Group>, policies: seq<Policy>)
    ensures DistinctTargets(AllTargets(arrange, policies)) <==> DistinctIDs(arrange, policies)
  {
    hide UsableID;
    hide Leaves;
    hide PolicyTargets;
    hide DistinctGroups;
    if policies != [] {
      var rest := policies[1..];
      TargetsDistinct(arrange, rest);
      HeadDistinct(arrange, policies[0], rest);
      DistinctConcat(PolicyTargets(arrange, policies[0]), AllTargets(arrange, rest));
      RulesCons(policies[0], rest);
      assert policies == [policies[0]] + rest;
    }
  }

  lemma RulesCons(policy: Policy, rest: seq<Policy>)
    ensures DistinctRules([policy] + rest) <==>
              DistinctRules(rest) && (UsableID(policy.id) ==> forall i :: 0 <= i < |rest| ==> rest[i].id != policy.id)
  {
    hide UsableID;
    var all := [policy] + rest;
    assert all[0] == policy && forall i :: 0 <= i < |rest| ==> rest[i] == all[i + 1];
    if DistinctRules(all) {
      forall i, j | 0 <= i < j < |rest| && UsableID(rest[i].id) ensures rest[i].id != rest[j].id {
        assert all[i + 1].id != all[j + 1].id;
      }
    }
  }

  /** The emitted values are distinct exactly when the ids are. */
  lemma OptionsDistinct(arrange: seq<Group> -> seq<Group>, policies: seq<Policy>)
    ensures DistinctValues(AllOptions(arrange, policies)) <==> DistinctIDs(arrange, policies)
  {
    hide ValueOf;
    hide DistinctIDs;
    hide ValidTarget;
    var options, targets := AllOptions(arrange, policies), AllTargets(arrange, policies);
    OptionsMatchTargets(arrange, policies);
    TargetsDistinct(arrange, policies);
    hide AllOptions;
    hide AllTargets;
    if DistinctTargets(targets) {
      forall i, j | 0 <= i < j < |options| ensures options[i].value != options[j].value {
        if options[i].value == options[j].value {
          ValuesInjective(targets[i], targets[j]);
        }
      }
    } else {
      var i, j :| 0 <= i < j < |targets| && targets[i] == targets[j];
      assert options[i].value == options[j].value;
    }
  }

  // ----- the filters -----

  datatype AccountMatch = ContainsAccount | ExactAccount

  datatype UAMatch = ContainsUA | EqualsUA | LacksUA

  datatype Outcome = All | Allowed | Blocked

  datatype Order = LastAt | Count

  datatype Filters = Filters(
    ip: string, account: string, accountMatch: AccountMatch, entry: string, ua: string, uaMatch: UAMatch,
    start: Option<Num>, end: Option<Num>, result: Outcome, sort: Order)

  function Normalized(f: Filters): Filters {
    f.(ip := Trim(f.ip), account := Trim(f.account), ua := Trim(f.ua))
  }

  datatype Problem = NoProblem | BadEntry | HalfRange | BadRange | NoCondition

  /** One of the two times is given. */
  predicate HalfDefined(f: Filters) {
    f.start.None? != f.end.None?
  }

  /** `guardFilterError` */
  function FilterError(other: string -> Num, input: Filters): Problem {
    hide EntrySelection;
    hide Trim;
    var f := Normalized(input);
    if EntrySelection(other, f.entry).Invalid? then BadEntry
    else if HalfDefined(f) then HalfRange
    else if f.start.Some? && (!IsSafe(f.start.value) || !IsSafe(f.end.value) || f.start.value.value < 0.0
                              || f.end.value.value <= f.start.value.value) then BadRange
    else if f.ip == "" && f.account == "" && f.entry == "" && f.ua == "" && f.start.None? && f.result.All? then NoCondition
    else NoProblem
  }

  /** The entry is empty or comes apart into positive numbers. */
  ghost predicate EntryFits(other: string -> Num, entry: string) {
    entry == "" || exists policy, group: Option<string> ::
      && EntryApart(entry, policy, group)
      && IsPositive(NumberOfDigits(other, policy)) && (group.Some? ==> IsPositive(NumberOfDigits(other, group.value)))
  }

  ghost predicate RangeFits(f: Filters) {
    f.start.Some? && f.end.Some? && IsSafe(f.start.value) && IsSafe(f.end.value)
    && 0.0 <= f.start.value.value < f.end.value.value
  }

  ghost predicate Narrowed(f: Filters) {
    Trim(f.ip) != "" || Trim(f.account) != "" || f.entry != "" || Trim(f.ua) != "" || f.start.Some? || f.result != All
  }

  lemma EntryFitsExactly(other: string -> Num, entry: string)
    ensures EntrySelection(other, entry).Invalid? <==> !EntryFits(other, entry)
  {
    hide NumberOfDigits;
    hide IsPositive;
    if entry != "" && EntrySelection(other, entry).Chosen? {
      var policy, group := EntryComesApart(other, entry);
      EntryReads(other, entry, policy, group);
    }
    if entry != "" && EntryFits(other, entry) {
      var policy, group: Option<string> :|
        && EntryApart(entry, policy, group)
        && IsPositive(NumberOfDigits(other, policy)) && (group.Some? ==> IsPositive(NumberOfDigits(other, group.value)));
      EntryReads(other, entry, policy, group);
    }
    EntryIsNothing(other, entry);
  }

  lemma EntryIsNothing(other: string -> Num, entry: string)
    ensures EntrySelection(other, entry) == Nothing <==> entry == ""
  {
  }

  /** Filters are valid exactly when they narrow the search, name a readable entry if any, and give no time or a whole range. */
  lemma ValidExactly(other: string -> Num, f: Filters)
    ensures FilterError(other, f) == NoProblem <==>
              Narrowed(f) && EntryFits(other, f.entry) && ((f.start.None? && f.end.None?) || RangeFits(f))
    ensures FilterError(other, f) == BadEntry <==> !EntryFits(other, f.entry)
    ensures FilterError(other, f) == HalfRange <==> EntryFits(other, f.entry) && f.start.None? != f.end.None?
    ensures FilterError(other, f) == BadRange <==> EntryFits(other, f.entry) && f.start.Some? && f.end.Some? && !RangeFits(f)
  {
    hide EntrySelection;
    hide EntryFits;
    hide Trim;
    EntryFitsExactly(other, f.entry);
  }

  datatype Range = Range(start: Num, end: Num)

  /** The request; absent parameters are None. */
  datatype Params = Params(
    entry: Selection, result: Outcome, sort: Order, current: int, pageSize: int,
    ip: Option<string>, account: Option<(string, AccountMatch)>, ua: Option<(string, UAMatch)>, range: Option<Range>)

  function CurrentPage(current: int): int {
    if current > 1 then current else 1
  }

  function PageSize(size: int): int {
    if size == 0 then 20 else if size < 1 then 1 else if size > 100 then 100 else size
  }

  /** `guardSearchParams`; None when it throws. */
  function ParamsOf(other: string -> Num, input: Filters, current: int, pageSize: int): Option<Params> {
    hide EntrySelection;
    hide Trim;
    var f := Normalized(input);
    if FilterError(other, f) != NoProblem then None
    else Some(Params(
      EntrySelection(other, f.entry), f.result, f.sort, CurrentPage(current), PageSize(pageSize),
      if f.ip != "" then Some(f.ip) else None,
      if f.account != "" then Some((f.account, f.accountMatch)) else None,
      if f.ua != "" then Some((f.ua, f.uaMatch)) else None,
      if f.start.Some? && f.end.Some? then Some(Range(f.start.value, f.end.value)) else None))
  }

  method SearchParams(other: string -> Num, input: Filters, current: int, pageSize: int) returns (r: Option<Params>)
    ensures r == ParamsOf(other, input, current, pageSize)
    ensures r.Some? <==> FilterError(other, input) == NoProblem
    ensures r.Some? ==>
              && r.value.entry == EntrySelection(other, input.entry) && !r.value.entry.Invalid?
              && r.value.result == input.result && r.value.sort == input.sort
    ensures r.Some? ==>
              && r.value.ip == (if Trim(input.ip) != "" then Some(Trim(input.ip)) else None)
              && r.value.account == (if Trim(input.account) != "" then Some((Trim(input.account), input.accountMatch)) else None)
              && r.value.ua == (if Trim(input.ua) != "" then Some((Trim(input.ua), input.uaMatch)) else None)
    ensures r.Some? ==>
              && (r.value.range.Some? <==> input.start.Some?) && (r.value.range.Some? <==> input.end.Some?)
              && (r.value.range.Some? ==>
                    && r.value.range.value == Range(input.start.value, input.end.value)
                    && IsSafe(input.start.value) && IsSafe(input.end.value)
                    && 0.0 <= input.start.value.value < input.end.value.value)
    ensures r.Some? ==> r.value.current >= 1 && (current >= 1 ==> r.value.current == current) && (current < 1 ==> r.value.current == 1)
    ensures r.Some? ==> 1 <= r.value.pageSize <= 100 && (1 <= pageSize <= 100 ==> r.value.pageSize == pageSize)
    ensures r.Some? ==>
              && (pageSize == 0 ==> r.value.pageSize == 20)
              && (pageSize < 0 ==> r.value.pageSize == 1) && (pageSize > 100 ==> r.value.pageSize == 100)
  {
    NormalizedOnce(input);
    hide EntrySelection;
    hide Trim;
    hide IsSafe;
    var f := Normalized(input);
    var problem := FilterError(other, f);
    if problem != NoProblem {
      return None;
    }
    var params := Params(EntrySelection(other, f.entry), f.result, f.sort, CurrentPage(current), PageSize(pageSize),
                         None, None, None, None);
    if f.ip != "" {
      params := params.(ip := Some(f.ip));
    }
    if f.account != "" {
      params := params.(account := Some((f.account, f.accountMatch)));
    }
    if f.ua != "" {
      params := params.(ua := Some((f.ua, f.uaMatch)));
    }
    if f.start.Some? {
      params := params.(range := Some(Range(f.start.value, f.end.value)));
    }
    return Some(params);
  }

  // ----- the fingerprint -----

  /** An element of the fingerprint array; JSON writes every number that is not finite as null. */
  datatype Json = Text(text: string) | Number(value: real) | JsonNull

  function JsonOf(time: Option<Num>): Json {
    if time.Some? && time.value.Finite? then Number(time.value.value) else JsonNull
  }

  function AccountMatchText(m: AccountMatch): string {
    match m case ContainsAccount => "contains" case ExactAccount => "exact"
  }

  function UAMatchText(m: UAMatch): string {
    match m case ContainsUA => "contains" case EqualsUA => "equals" case LacksUA => "not_contains"
  }

  function OutcomeText(o: Outcome): string {
    match o case All => "all" case Allowed => "allowed" case Blocked => "blocked"
  }

  function OrderText(o: Order): string {
    match o case LastAt => "last_at" case Count => "count"
  }

  /** The array `guardFilterFingerprint` serialises. */
  function Fingerprint(input: Filters): seq<Json> {
    var f := Normalized(input);
    [Text(f.ip), Text(f.account), Text(if f.account != "" then AccountMatchText(f.accountMatch) else ""),
     Text(f.entry), Text(f.ua), Text(if f.ua != "" then UAMatchText(f.uaMatch) else ""),
     JsonOf(f.start), JsonOf(f.end), Text(OutcomeText(f.result)), Text(OrderText(f.sort))]
  }

  /** Both filters validate alike and ask for the same page with the same parameters, whatever the page. */
  ghost predicate SameSearch(other: string -> Num, f: Filters, g: Filters) {
    && FilterError(other, f) == FilterError(other, g)
    && forall current, pageSize :: ParamsOf(other, f, current, pageSize) == ParamsOf(other, g, current, pageSize)
  }

  /** The same times are given. */
  predicate SameTimesGiven(f: Filters, g: Filters) {
    f.start.None? == g.start.None? && f.end.None? == g.end.None?
  }

  /** What equal fingerprints say about the normalised filters. */
  ghost predicate SameParts(f: Filters, g: Filters) {
    && f.ip == g.ip && f.account == g.account && f.entry == g.entry && f.ua == g.ua
    && f.result == g.result && f.sort == g.sort
    && (f.account != "" ==> f.accountMatch == g.accountMatch)
    && (f.ua != "" ==> f.uaMatch == g.uaMatch)
    && JsonOf(f.start) == JsonOf(g.start) && JsonOf(f.end) == JsonOf(g.end)
  }

  lemma TextsDiffer(f: Filters, g: Filters)
    ensures AccountMatchText(f.accountMatch) == AccountMatchText(g.accountMatch) ==> f.accountMatch == g.accountMatch
    ensures UAMatchText(f.uaMatch) == UAMatchText(g.uaMatch) ==> f.uaMatch == g.uaMatch
    ensures OutcomeText(f.result) == OutcomeText(g.result) ==> f.result == g.result
    ensures OrderText(f.sort) == OrderText(g.sort) ==> f.sort == g.sort
  {
    assert "contains"[0] != "exact"[0] && "contains"[0] != "equals"[0] && "contains"[0] != "not_contains"[0];
    assert "equals"[0] != "not_contains"[0] && "all"[0] != "blocked"[0] && |"all"| != |"allowed"| && "allowed"[0] != "blocked"[0];
    assert "last_at"[0] != "count"[0];
  }

  lemma FingerprintParts(f: Filters, g: Filters)
    ensures Fingerprint(f) == Fingerprint(g) <==> SameParts(Normalized(f), Normalized(g))
  {
    hide Trim;
    hide AccountMatchText;
    hide UAMatchText;
    hide OutcomeText;
    hide OrderText;
    TextsDiffer(f, g);
    var x, y := Fingerprint(f), Fingerprint(g);
    if x == y {
      assert x[0] == y[0] && x[1] == y[1] && x[2] == y[2] && x[3] == y[3] && x[4] == y[4];
      assert x[5] == y[5] && x[6] == y[6] && x[7] == y[7] && x[8] == y[8] && x[9] == y[9];
    }
  }

  /**
   Filters with equal fingerprints search alike exactly when their entry is
   invalid, or the same times are given in both, or both give only one time: a
   time that is not a finite number is fingerprinted as an absent one.
   */
  lemma FingerprintDecides(other: string -> Num, f: Filters, g: Filters)
    requires Fingerprint(f) == Fingerprint(g)
    ensures SameSearch(other, f, g) <==>
              EntrySelection(other, f.entry).Invalid? || SameTimesGiven(f, g) || (HalfDefined(f) && HalfDefined(g))
  {
    hide EntrySelection;
    hide Trim;
    FingerprintParts(f, g);
    hide Fingerprint;
  }

  /** An entry as the selector emits it, or none. */
  ghost predicate CanonicalEntry(entry: string) {
    entry == "" || exists t :: ValidTarget(t) && entry == ValueOf(t)
  }

  lemma CanonicalEntriesDiffer(other: string -> Num, e: string, h: string)
    requires CanonicalEntry(e) && CanonicalEntry(h) && EntrySelection(other, e) == EntrySelection(other, h)
    ensures e == h
  {
    hide EntrySelection;
    hide ValueOf;
    EmptyEntry(other);
    if e != "" {
      var t :| ValidTarget(t) && e == ValueOf(t);
      OptionParses(other, t);
      if h != "" {
        var u :| ValidTarget(u) && h == ValueOf(u);
        OptionParses(other, u);
        assert (t.policy as real).Floor == (u.policy as real).Floor;
        if t.group.Some? {
          assert (t.group.value as real).Floor == (u.group.value as real).Floor;
        }
      }
    } else if h != "" {
      var u :| ValidTarget(u) && h == ValueOf(u);
      OptionParses(other, u);
    }
  }

  lemma EmptyEntry(other: string -> Num)
    ensures EntrySelection(other, "") == Nothing
  {
  }

  /** For valid filters with entries from the selector, equal fingerprints are exactly equal requests. */
  lemma FingerprintIsRequest(other: string -> Num, f: Filters, g: Filters, current: int, pageSize: int)
    requires FilterError(other, f) == NoProblem && FilterError(other, g) == NoProblem
    requires CanonicalEntry(f.entry) && CanonicalEntry(g.entry)
    ensures Fingerprint(f) == Fingerprint(g) <==> ParamsOf(other, f, current, pageSize) == ParamsOf(other, g, current, pageSize)
  {
    hide EntrySelection;
    hide Trim;
    hide ValueOf;
    NormalizedOnce(f);
    NormalizedOnce(g);
    FingerprintParts(f, g);
    hide Fingerprint;
    if ParamsOf(other, f, current, pageSize) == ParamsOf(other, g, current, pageSize) {
      CanonicalEntriesDiffer(other, f.entry, g.entry);
    }
  }

  lemma NormalizedOnce(f: Filters)
    ensures Normalized(Normalized(f)) == Normalized(f)
  {
    TrimTrims(f.ip);
    TrimTrims(Trim(f.ip));
    TrimTrims(f.account);
    TrimTrims(Trim(f.account));
    TrimTrims(f.ua);
    TrimTrims(Trim(f.ua));
  }

  /** A range of times that are not numbers makes a valid search without times invalid, but leaves no trace. */
  lemma NaNLeavesNoTrace(other: string -> Num, f: Filters)
    requires FilterError(other, f) == NoProblem && f.start.None?
    ensures var g := f.(start := Some(NaN), end := Some(NaN));
            Fingerprint(f) == Fingerprint(g) && FilterError(other, g) == BadRange
  {
    hide EntrySelection;
    hide Trim;
  }
}
