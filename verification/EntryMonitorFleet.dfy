/**
 Any number of tabs editing one configuration on one server.

 Environment assumption (the server is not part of the repository's front end):
 a save is stored exactly when its `revision` equals the stored revision, what
 is stored is the body sent, and every stored version gets a larger revision
 than all before it, starting from a non-negative one. The live data the server
 adds to answers, and when or whether answers arrive, are arbitrary; a save
 whose answer is lost may still be stored later.
 */
module EntryMonitorFleet {

  import opened Options
  import opened Sequences
  import opened JsText
  import opened EntryMonitorModel
  import opened EntryMonitorTab
  import opened EntryMonitorLoaded
  import opened EntryMonitorRuns

  /**
   What separates the values a tab shows from its base: the slots edited since
   the base was installed (or, for a base that came from the tab's own save,
   since that save went out), the slots edited since the save in flight went
   out, and whether an answer has been installed since then. When such an
   overtaken save becomes the base under newer edits, the values shown stem from
   the answer; `prior` is then what the save was based on. `offered` are the
   rules that could be selected when a configuration was last installed.
   */
  datatype Trace = Trace(touched: set<Slot>, flying: set<Slot>, overtaken: bool, prior: Option<Payload>, offered: set<int>)

  const NO_TRACE := Trace({}, {}, false, None, {})

  function Offered(payload: Payload): set<int> {
    SelectableIDs(Normalize(payload).policies)
  }

  /** A stored configuration; `basedOn` and `trace` remember what the saving tab stood on. */
  datatype Version = Version(revision: int, config: seq<SaveItem>, basedOn: Option<Payload>, trace: Trace)

  /** A tab with the answers travelling towards it. */
  datatype Endpoint = Endpoint(world: World, answers: map<nat, Payload>, receipts: map<nat, Payload>, trace: Trace)

  /** A save on its way to the server. */
  datatype Letter = Letter(tab: nat, pending: PendingSave, trace: Trace)

  datatype Fleet = Fleet(tabs: seq<Endpoint>, letters: seq<Letter>, history: seq<Version>)

  datatype FleetEvent =
    | Local(tab: nat, event: Event)
    | Answer(tab: nat, sequence: nat, payload: Payload)
    | DeliverAnswer(tab: nat, sequence: nat)
    | Process(letter: nat, revision: int, payload: Payload)
    | DeliverReceipt(tab: nat)

  /** The user-owned configuration an item shows. */
  function RawItemBody(item: RawItem): SaveItem {
    SaveItem(LoadedNumber(item.policyID, 0, 0), item.enabled != Flag.Known(false),
             LoadedNumber(item.interval, 30, 0), LoadedNumber(item.timeout, 5000, 0),
             LoadedNumber(item.failures, 3, 3), LoadedNumber(item.successes, 2, 2),
             seq(|item.targets|, i requires 0 <= i < |item.targets| => LoadedTargetBody(item.targets[i], i)))
  }

  /** The payload is an image of the stored version: its revision and its configuration, plus any live data. */
  ghost predicate Shows(payload: Payload, version: Version) {
    && Normalize(payload).revision == version.revision
    && Map(RawItemBody, payload.items) == version.config
  }

  function Stored(f: Fleet): Version
    requires f.history != []
  {
    f.history[|f.history| - 1]
  }

  /** The compare-and-set: the letter's revision is the stored one. */
  ghost predicate Matches(f: Fleet, letter: nat)
    requires f.history != [] && letter < |f.letters|
  {
    f.letters[letter].pending.request.revision == Stored(f).revision
  }

  /** What the server stores when it accepts the letter. */
  function VersionOf(l: Letter, revision: int): Version {
    Version(revision, l.pending.request.items, l.pending.base, l.trace)
  }

  ghost predicate FleetPossible(f: Fleet, e: FleetEvent)
    requires f.history != []
  {
    match e
    case Local(tab, event) =>
      tab < |f.tabs| && !event.FetchLands? && !event.SaveLands? && Possible(f.tabs[tab].world, event)
    case Answer(tab, sequence, payload) =>
      tab < |f.tabs| && sequence in f.tabs[tab].world.fetches && sequence !in f.tabs[tab].answers && Shows(payload, Stored(f))
    case DeliverAnswer(tab, sequence) =>
      tab < |f.tabs| && sequence in f.tabs[tab].world.fetches && sequence in f.tabs[tab].answers
    case Process(letter, revision, payload) =>
      letter < |f.letters| && f.letters[letter].tab < |f.tabs| &&
      (Matches(f, letter) ==> revision > Stored(f).revision && Shows(payload, VersionOf(f.letters[letter], revision)))
    case DeliverReceipt(tab) =>
      tab < |f.tabs| && f.tabs[tab].world.save.Some? && f.tabs[tab].world.save.value.id in f.tabs[tab].receipts
  }

  /** A save begun by this step becomes a letter. */
  ghost function Posted(before: World, after: World, tab: nat, trace: Trace): seq<Letter> {
    if before.save.None? && after.save.Some? then [Letter(tab, after.save.value, trace)] else []
  }

  /** The trace after a step of the tab. */
  ghost function Traced(w: World, e: Event, trace: Trace): Trace
    requires Possible(w, e)
  {
    match e
    case UserEdits(edit) =>
      if edit.ChangeDraft? && edit.id !in w.tab.drafts then trace
      else trace.(touched := trace.touched + {SlotOf(edit)}, flying := trace.flying + {SlotOf(edit)})
    case FetchLands(sequence, payload) =>
      if Installs(w, sequence) then trace.(touched := {}, overtaken := true, prior := None, offered := Offered(payload))
      else trace
    case SaveLands(payload) =>
      if w.tab.editVersion == w.save.value.request.editVersion then NO_TRACE.(offered := Offered(payload))
      else trace.(touched := trace.flying, prior := if trace.overtaken then w.save.value.base else None)
    case _ =>
      if w.save.None? && Next(w, e).save.Some? then trace.(flying := {}, overtaken := false) else trace
  }

  ghost function Stepped(p: Endpoint, e: Event): Endpoint
    requires Possible(p.world, e)
  {
    p.(world := Next(p.world, e), trace := Traced(p.world, e, p.trace))
  }

  /** The letter's body is stored and its receipt sent. */
  ghost function Accepted(f: Fleet, letter: nat, revision: int, payload: Payload): Fleet
    requires letter < |f.letters| && f.letters[letter].tab < |f.tabs|
  {
    var l := f.letters[letter];
    var p := f.tabs[l.tab];
    Fleet(f.tabs[l.tab := p.(receipts := p.receipts[l.pending.id := payload])],
          Remaining(f.letters, letter), f.history + [VersionOf(l, revision)])
  }

  ghost function FleetNext(f: Fleet, e: FleetEvent): Fleet
    requires f.history != [] && FleetPossible(f, e)
  {
    match e
    case Local(tab, event) =>
      var p := f.tabs[tab];
      var q := Stepped(p, event);
      f.(tabs := f.tabs[tab := q], letters := f.letters + Posted(p.world, q.world, tab, p.trace))
    case Answer(tab, sequence, payload) =>
      f.(tabs := f.tabs[tab := f.tabs[tab].(answers := f.tabs[tab].answers[sequence := payload])])
    case DeliverAnswer(tab, sequence) =>
      var p := f.tabs[tab];
      f.(tabs := f.tabs[tab := Stepped(p, FetchLands(sequence, p.answers[sequence]))])
    case Process(letter, revision, payload) =>
      if Matches(f, letter) then Accepted(f, letter, revision, payload)
      else f.(letters := Remaining(f.letters, letter))
    case DeliverReceipt(tab) =>
      var p := f.tabs[tab];
      f.(tabs := f.tabs[tab := Stepped(p, SaveLands(p.receipts[p.world.save.value.id]))])
  }

  ghost predicate FleetRun(f: Fleet, events: seq<FleetEvent>)
    requires f.history != []
    decreases |events|
  {
    events == [] || (FleetPossible(f, events[0]) && FleetRun(FleetNext(f, events[0]), events[1..]))
  }

  ghost function FleetAfter(f: Fleet, events: seq<FleetEvent>): (g: Fleet)
    requires f.history != [] && FleetRun(f, events)
    ensures g.history != []
    decreases |events|
  {
    if events == [] then f else FleetAfter(FleetNext(f, events[0]), events[1..])
  }

  /** A fresh server with one version, and `n` tabs nobody has touched. */
  ghost predicate FleetStart(f: Fleet) {
    && |f.history| == 1 && f.history[0].revision >= 0
    && f.letters == []
    && forall i :: 0 <= i < |f.tabs| ==> f.tabs[i] == Endpoint(START, map[], map[], NO_TRACE)
  }

  // ----- the invariant -----

  /** The payload is the image of some stored version. */
  ghost predicate Known(payload: Payload, history: seq<Version>) {
    exists k :: 0 <= k < |history| && Shows(payload, history[k])
  }

  ghost predicate KnownBase(base: Option<Payload>, history: seq<Version>) {
    base.Some? ==> Known(base.value, history)
  }

  ghost predicate Increasing(history: seq<Version>) {
    && history != [] && history[0].revision >= 0
    && forall i, j :: 0 <= i < j < |history| ==> history[i].revision < history[j].revision
  }

  ghost predicate EndpointOK(p: Endpoint, history: seq<Version>) {
    && Inv(p.world)
    && KnownBase(p.world.base, history)
    && (p.world.save.Some? ==> KnownBase(p.world.save.value.base, history))
    && (forall s :: s in p.answers ==> Known(p.answers[s], history))
    && (forall s :: s in p.receipts ==> Known(p.receipts[s], history))
  }

  ghost predicate LetterOK(l: Letter, history: seq<Version>) {
    l.pending.base.Some? && Known(l.pending.base.value, history) && l.pending.request.revision == RevisionOf(l.pending.base)
  }

  /** Version `k` was saved by a tab that had installed an image of exactly version `k - 1` as its base. */
  ghost predicate BuiltOnPrevious(history: seq<Version>, k: nat)
    requires 0 < k < |history|
  {
    history[k].basedOn.Some? && Shows(history[k].basedOn.value, history[k - 1])
  }

  ghost predicate NothingLost(history: seq<Version>) {
    forall k :: 0 < k < |history| ==> BuiltOnPrevious(history, k)
  }

  ghost predicate FleetInv(f: Fleet) {
    && Increasing(f.history)
    && NothingLost(f.history)
    && (forall i :: 0 <= i < |f.tabs| ==> EndpointOK(f.tabs[i], f.history))
    && (forall i :: 0 <= i < |f.letters| ==> LetterOK(f.letters[i], f.history))
  }

  lemma KnownGrows(base: Option<Payload>, history: seq<Version>, version: Version)
    requires KnownBase(base, history)
    ensures KnownBase(base, history + [version])
  {
    if base.Some? {
      var k :| 0 <= k < |history| && Shows(base.value, history[k]);
      assert Shows(base.value, (history + [version])[k]);
    }
  }

  lemma EndpointGrows(p: Endpoint, history: seq<Version>, version: Version)
    requires EndpointOK(p, history)
    ensures EndpointOK(p, history + [version])
  {
    hide Inv;
    hide Shows;
    KnownGrows(p.world.base, history, version);
    if p.world.save.Some? {
      KnownGrows(p.world.save.value.base, history, version);
    }
    forall s | s in p.answers ensures Known(p.answers[s], history + [version]) {
      KnownGrows(Some(p.answers[s]), history, version);
    }
    forall s | s in p.receipts ensures Known(p.receipts[s], history + [version]) {
      KnownGrows(Some(p.receipts[s]), history, version);
    }
  }

  lemma LetterGrows(l: Letter, history: seq<Version>, version: Version)
    requires LetterOK(l, history)
    ensures LetterOK(l, history + [version])
  {
    hide Normalize;
    KnownGrows(l.pending.base, history, version);
  }

  /** The heart of it: a letter that matches was written on top of the version it overwrites. */
  lemma MatchingLetterIsCurrent(f: Fleet, letter: nat)
    requires FleetInv(f) && letter < |f.letters| && Matches(f, letter)
    ensures f.letters[letter].pending.base.Some? && Shows(f.letters[letter].pending.base.value, Stored(f))
  {
    var pending := f.letters[letter].pending;
    assert LetterOK(f.letters[letter], f.history);
    var k :| 0 <= k < |f.history| && Shows(pending.base.value, f.history[k]);
    assert k == |f.history| - 1;
  }

  /** What a step of one tab can do to its base and to the save it is waiting for. */
  lemma StepBase(w: World, e: Event)
    requires Inv(w) && Possible(w, e)
    ensures var n := Next(w, e);
            && (n.base == w.base || (e.FetchLands? && n.base == Some(e.payload)) || (e.SaveLands? && n.base == Some(e.payload)))
            && (n.save.Some? ==> n.save == w.save || (w.save.None? && n.save.value.base == w.base))
            && (n.save.Some? && w.save.None? ==> n.save.value.id == w.saves)
  {
    hide Normalize;
    hide FetchLanded;
    hide SaveLanded;
    hide Edited;
    hide AllSendable;
    hide SaveBody;
  }

  lemma ReplaceTab(f: Fleet, tab: nat, p: Endpoint, more: seq<Letter>)
    requires FleetInv(f) && tab < |f.tabs| && EndpointOK(p, f.history)
    requires forall l :: l in more ==> LetterOK(l, f.history)
    ensures FleetInv(f.(tabs := f.tabs[tab := p], letters := f.letters + more))
  {
    hide EndpointOK;
    hide LetterOK;
    hide Increasing;
    hide NothingLost;
  }

  lemma StepEndpoint(p: Endpoint, event: Event, history: seq<Version>)
    requires EndpointOK(p, history) && Possible(p.world, event)
    requires event.FetchLands? || event.SaveLands? ==> Known(event.payload, history)
    ensures EndpointOK(Stepped(p, event), history)
  {
    NextInv(p.world, event);
    StepBase(p.world, event);
    hide Next;
    hide Known;
    hide Inv;
    hide Traced;
  }

  lemma PostedOK(p: Endpoint, event: Event, tab: nat, history: seq<Version>)
    requires EndpointOK(p, history) && Possible(p.world, event)
    ensures forall l :: l in Posted(p.world, Next(p.world, event), tab, p.trace) ==> LetterOK(l, history)
  {
    NextInv(p.world, event);
    StepBase(p.world, event);
    hide Next;
    hide Known;
  }

  lemma LocalInv(f: Fleet, tab: nat, event: Event)
    requires FleetInv(f) && FleetPossible(f, Local(tab, event))
    ensures FleetInv(FleetNext(f, Local(tab, event)))
  {
    hide Next;
    hide Stepped;
    hide EndpointOK;
    hide LetterOK;
    hide Posted;
    var p := f.tabs[tab];
    StepEndpoint(p, event, f.history);
    PostedOK(p, event, tab, f.history);
    SteppedWorld(p, event);
    ReplaceTab(f, tab, Stepped(p, event), Posted(p.world, Next(p.world, event), tab, p.trace));
  }

  lemma SteppedWorld(p: Endpoint, event: Event)
    requires Possible(p.world, event)
    ensures Stepped(p, event).world == Next(p.world, event)
    ensures Stepped(p, event).trace == Traced(p.world, event, p.trace)
    ensures Stepped(p, event).answers == p.answers && Stepped(p, event).receipts == p.receipts
  {
  }

  lemma DeliverInv(f: Fleet, tab: nat, event: Event)
    requires FleetInv(f) && tab < |f.tabs| && Possible(f.tabs[tab].world, event)
    requires event.FetchLands? || event.SaveLands?
    requires Known(event.payload, f.history)
    ensures FleetInv(f.(tabs := f.tabs[tab := Stepped(f.tabs[tab], event)]))
  {
    hide Stepped;
    hide EndpointOK;
    hide LetterOK;
    StepEndpoint(f.tabs[tab], event, f.history);
    ReplaceTab(f, tab, Stepped(f.tabs[tab], event), []);
    assert f.letters + [] == f.letters;
  }

  /** Letters that stay behind when one is taken out. */
  function Remaining(letters: seq<Letter>, k: nat): (r: seq<Letter>)
    requires k < |letters|
    ensures forall l :: l in r ==> l in letters
  {
    letters[..k] + letters[k + 1..]
  }

  lemma RefusedInv(f: Fleet, letter: nat)
    requires FleetInv(f) && letter < |f.letters|
    ensures FleetInv(f.(letters := Remaining(f.letters, letter)))
  {
    hide EndpointOK;
    hide LetterOK;
    hide Increasing;
    hide NothingLost;
  }

  lemma ReceiptOK(p: Endpoint, history: seq<Version>, version: Version, id: nat, payload: Payload)
    requires EndpointOK(p, history) && Shows(payload, version)
    ensures EndpointOK(p.(receipts := p.receipts[id := payload]), history + [version])
  {
    EndpointGrows(p, history, version);
    assert (history + [version])[|history|] == version;
    assert Known(payload, history + [version]);
    hide Shows;
    hide Known;
    hide Inv;
  }

  lemma StoredInv(f: Fleet, letter: nat, version: Version)
    requires FleetInv(f) && letter < |f.letters| && Matches(f, letter)
    requires version.revision > Stored(f).revision && version.basedOn == f.letters[letter].pending.base
    ensures FleetInv(f.(history := f.history + [version]))
  {
    hide Shows;
    hide Increasing;
    hide NothingLost;
    hide EndpointOK;
    hide LetterOK;
    hide Matches;
    MatchingLetterIsCurrent(f, letter);
    HistoryGrows(f.history, version);
    forall i | 0 <= i < |f.tabs| ensures EndpointOK(f.tabs[i], f.history + [version]) {
      EndpointGrows(f.tabs[i], f.history, version);
    }
    forall i | 0 <= i < |f.letters| ensures LetterOK(f.letters[i], f.history + [version]) {
      LetterGrows(f.letters[i], f.history, version);
    }
  }

  lemma AcceptedInv(f: Fleet, letter: nat, revision: int, payload: Payload)
    requires FleetInv(f) && letter < |f.letters| && f.letters[letter].tab < |f.tabs| && Matches(f, letter)
    requires revision > Stored(f).revision && Shows(payload, VersionOf(f.letters[letter], revision))
    ensures FleetInv(Accepted(f, letter, revision, payload))
  {
    hide Shows;
    var l := f.letters[letter];
    var version := VersionOf(l, revision);
    var p := f.tabs[l.tab];
    var q := p.(receipts := p.receipts[l.pending.id := payload]);
    assert EndpointOK(p, f.history);
    StoredInv(f, letter, version);
    ReceiptOK(p, f.history, version, l.pending.id, payload);
    hide EndpointOK;
    hide LetterOK;
    hide Increasing;
    hide NothingLost;
    hide Matches;
    var g := f.(history := f.history + [version]);
    ReplaceTab(g, l.tab, q, []);
    hide FleetInv;
    assert g.letters + [] == g.letters;
    RefusedInv(g.(tabs := g.tabs[l.tab := q]), letter);
  }

  lemma ProcessInv(f: Fleet, letter: nat, revision: int, payload: Payload)
    requires FleetInv(f) && FleetPossible(f, Process(letter, revision, payload))
    ensures FleetInv(FleetNext(f, Process(letter, revision, payload)))
  {
    hide EndpointOK;
    hide LetterOK;
    hide NothingLost;
    hide Shows;
    hide Accepted;
    if Matches(f, letter) {
      AcceptedInv(f, letter, revision, payload);
    } else {
      RefusedInv(f, letter);
    }
  }

  lemma HistoryGrows(history: seq<Version>, version: Version)
    requires Increasing(history) && NothingLost(history)
    requires version.revision > history[|history| - 1].revision
    requires version.basedOn.Some? && Shows(version.basedOn.value, history[|history| - 1])
    ensures Increasing(history + [version]) && NothingLost(history + [version])
  {
    hide Shows;
    var longer := history + [version];
    forall i, j | 0 <= i < j < |longer| ensures longer[i].revision < longer[j].revision {
      if j == |history| && i < |history| - 1 {
        assert history[i].revision < history[|history| - 1].revision;
      }
    }
    forall k | 0 < k < |longer| ensures BuiltOnPrevious(longer, k) {
      if k < |history| {
        assert BuiltOnPrevious(history, k);
      }
    }
  }

  lemma AnsweredOK(p: Endpoint, history: seq<Version>, sequence: nat, payload: Payload)
    requires EndpointOK(p, history) && Known(payload, history)
    ensures EndpointOK(p.(answers := p.answers[sequence := payload]), history)
  {
    hide Inv;
    hide Known;
  }

  lemma AnswerInv(f: Fleet, tab: nat, sequence: nat, payload: Payload)
    requires FleetInv(f) && FleetPossible(f, Answer(tab, sequence, payload))
    ensures FleetInv(FleetNext(f, Answer(tab, sequence, payload)))
  {
    hide EndpointOK;
    hide LetterOK;
    assert Known(payload, f.history);
    hide Known;
    hide Shows;
    var p := f.tabs[tab];
    AnsweredOK(p, f.history, sequence, payload);
    ReplaceTab(f, tab, p.(answers := p.answers[sequence := payload]), []);
    assert f.letters + [] == f.letters;
  }

  lemma DeliverAnswerInv(f: Fleet, tab: nat, sequence: nat)
    requires FleetInv(f) && FleetPossible(f, DeliverAnswer(tab, sequence))
    ensures FleetInv(FleetNext(f, DeliverAnswer(tab, sequence)))
  {
    hide Stepped;
    hide Inv;
    hide LetterOK;
    hide NothingLost;
    hide Known;
    assert f.history != [] && EndpointOK(f.tabs[tab], f.history);
    hide Increasing;
    hide FleetInv;
    DeliverInv(f, tab, FetchLands(sequence, f.tabs[tab].answers[sequence]));
  }

  lemma DeliverReceiptInv(f: Fleet, tab: nat)
    requires FleetInv(f) && FleetPossible(f, DeliverReceipt(tab))
    ensures FleetInv(FleetNext(f, DeliverReceipt(tab)))
  {
    hide Stepped;
    hide Inv;
    hide LetterOK;
    hide NothingLost;
    hide Known;
    var p := f.tabs[tab];
    assert f.history != [] && EndpointOK(p, f.history);
    hide Increasing;
    hide FleetInv;
    DeliverInv(f, tab, SaveLands(p.receipts[p.world.save.value.id]));
  }

  lemma FleetNextInv(f: Fleet, e: FleetEvent)
    requires FleetInv(f) && FleetPossible(f, e)
    ensures FleetInv(FleetNext(f, e))
  {
    assert f.history != [];
    hide FleetInv;
    hide FleetNext;
    hide Shows;
    hide Matches;
    match e {
      case Local(tab, event) => LocalInv(f, tab, event);
      case Answer(tab, sequence, payload) => AnswerInv(f, tab, sequence, payload);
      case DeliverAnswer(tab, sequence) => DeliverAnswerInv(f, tab, sequence);
      case Process(letter, revision, payload) => ProcessInv(f, letter, revision, payload);
      case DeliverReceipt(tab) => DeliverReceiptInv(f, tab);
    }
  }

  lemma {:induction false} FleetRunInv(f: Fleet, events: seq<FleetEvent>)
    requires FleetInv(f) && FleetRun(f, events)
    ensures FleetInv(FleetAfter(f, events))
    decreases |events|
  {
    hide FleetNext;
    hide FleetPossible;
    if events != [] {
      FleetNextInv(f, events[0]);
      FleetRunInv(FleetNext(f, events[0]), events[1..]);
    }
  }

  lemma FleetStartInv(f: Fleet)
    requires FleetStart(f)
    ensures FleetInv(f)
  {
    StartInv();
  }

  /**
   No accepted save overwrites an accepted save its tab had not installed: in
   every run of any number of tabs, each stored version was saved on top of the
   version directly before it.
   */
  lemma NoLostSave(f: Fleet, events: seq<FleetEvent>)
    requires FleetStart(f) && FleetRun(f, events)
    ensures NothingLost(FleetAfter(f, events).history)
  {
    FleetStartInv(f);
    FleetRunInv(f, events);
  }

  /** The same at the moment of acceptance: what the accepted save replaces is what its tab had as base. */
  lemma AcceptedSaveSawStored(f: Fleet, events: seq<FleetEvent>, letter: nat)
    requires FleetStart(f) && FleetRun(f, events)
    requires letter < |FleetAfter(f, events).letters| && Matches(FleetAfter(f, events), letter)
    ensures var g := FleetAfter(f, events);
            g.letters[letter].pending.base.Some? && Shows(g.letters[letter].pending.base.value, Stored(g))
  {
    FleetStartInv(f);
    FleetRunInv(f, events);
    MatchingLetterIsCurrent(FleetAfter(f, events), letter);
  }

  /** A loaded tab without unsaved edits shows one version the server stored, with that version's revision. */
  lemma CleanTabShowsStoredVersion(f: Fleet, events: seq<FleetEvent>, tab: nat)
    requires FleetStart(f) && FleetRun(f, events) && tab < |FleetAfter(f, events).tabs|
    ensures var g := FleetAfter(f, events);
            var w := g.tabs[tab].world;
            w.tab.loaded && !w.tab.dirty ==>
              exists k, payload :: 0 <= k < |g.history| && Shows(payload, g.history[k]) && Synced(w.tab, payload)
  {
    FleetStartInv(f);
    FleetRunInv(f, events);
    var g := FleetAfter(f, events);
    assert EndpointOK(g.tabs[tab], g.history);
    var w := g.tabs[tab].world;
    if w.tab.loaded && !w.tab.dirty {
      assert BaseTracked(w);
      assert Known(w.base.value, g.history);
    }
  }
}
