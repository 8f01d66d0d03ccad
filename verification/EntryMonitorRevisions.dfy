/**
 How a tab's revision moves: polls never lower it, and the receipt of a save
 lowers it exactly when a newer version was installed while the save was in
 flight.
 */
module EntryMonitorRevisions {

  import opened JsText
  import opened Options
  import opened Sequences
  import opened EntryMonitorModel
  import opened EntryMonitorTab
  import opened EntryMonitorRuns
  import opened EntryMonitorFleet

  // ----- the invariant -----

  /** Answers and receipts belong to requests that went out. */
  ghost predicate Numbered(p: Endpoint) {
    && (forall s :: s in p.answers ==> s <= p.world.tab.sequence)
    && (forall id :: id in p.receipts ==> id < p.world.saves)
  }

  /** The answer of the request that is still live shows a version no older than the tab's base. */
  ghost predicate AnswersCurrent(p: Endpoint) {
    p.world.tab.sequence in p.world.fetches && p.world.tab.sequence in p.answers ==>
      Normalize(p.answers[p.world.tab.sequence]).revision >= p.world.tab.revision
  }

  /** The payload is the image of the version that stored this save, newer than what the save was based on. */
  ghost predicate ReceiptOf(save: PendingSave, payload: Payload, history: seq<Version>) {
    exists k :: ReceiptAt(save, payload, history, k)
  }

  ghost predicate ReceiptAt(save: PendingSave, payload: Payload, history: seq<Version>, k: int) {
    && 0 < k < |history| && Shows(payload, history[k]) && history[k].basedOn == save.base
    && history[k].config == save.request.items && history[k].revision > save.request.revision
  }

  ghost predicate ReceiptsTraced(p: Endpoint, history: seq<Version>) {
    p.world.save.Some? && p.world.save.value.id in p.receipts ==>
      ReceiptOf(p.world.save.value, p.receipts[p.world.save.value.id], history)
  }

  ghost predicate TabOK(p: Endpoint, history: seq<Version>) {
    Numbered(p) && AnswersCurrent(p) && ReceiptsTraced(p, history)
  }

  /** A letter numbered like the save in flight is that save. */
  ghost predicate Linked(l: Letter, w: World) {
    && l.pending.id < w.saves
    && (w.save.Some? && w.save.value.id == l.pending.id ==> w.save.value == l.pending)
  }

  ghost predicate RevisionInv(f: Fleet) {
    && FleetInv(f)
    && (forall i :: 0 <= i < |f.tabs| ==> TabOK(f.tabs[i], f.history))
    && (forall i :: 0 <= i < |f.letters| ==> f.letters[i].tab < |f.tabs| && Linked(f.letters[i], f.tabs[f.letters[i].tab].world))
  }

  lemma RevisionStart(f: Fleet)
    requires FleetStart(f)
    ensures RevisionInv(f)
  {
    FleetStartInv(f);
    hide FleetInv;
  }

  /** What a step of the tab does to the numbers. */
  lemma StepNumbers(w: World, e: Event)
    requires Inv(w) && Possible(w, e)
    ensures var n := Next(w, e);
            && w.tab.sequence <= n.tab.sequence && w.saves <= n.saves
            && (n.save.Some? ==> n.save == w.save || (w.save.None? && n.save.value.id == w.saves && n.saves == w.saves + 1))
            && (n.tab.sequence == w.tab.sequence ==>
                  forall s :: s in n.fetches ==> s in w.fetches)
  {
    hide Normalize;
    hide Merged;
    hide Edited;
    hide AllSendable;
    hide SaveBody;
    hide BaseTracked;
    hide RunsNameSaved;
    if e.UserEdits? {
      EditedFrame(w.tab, e.edit);
    }
  }

  /** The live request, if one is left, is the old one with the tab's revision unchanged, or a new one. */
  lemma StepLive(w: World, e: Event)
    requires Inv(w) && Possible(w, e)
    ensures var n := Next(w, e);
            n.tab.sequence in n.fetches ==>
              n.tab.sequence > w.tab.sequence || n.tab.revision == w.tab.revision
  {
    hide Normalize;
    hide Merged;
    hide AllSendable;
    hide SaveBody;
    hide BaseTracked;
    hide RunsNameSaved;
    match e {
      case PressSave => PressFrame(w, e);
      case PressRun => PressFrame(w, e);
      case UserEdits(edit) => EditedFrame(w.tab, edit);
      case _ =>
    }
  }

  lemma StepTab(p: Endpoint, e: Event, history: seq<Version>)
    requires Inv(p.world) && TabOK(p, history) && Possible(p.world, e)
    ensures TabOK(Stepped(p, e), history)
  {
    StepNumbers(p.world, e);
    StepLive(p.world, e);
    SteppedWorld(p, e);
    hide Stepped;
    hide Inv;
    hide Next;
    hide ReceiptOf;
    hide Normalize;
  }

  lemma StepLinked(l: Letter, w: World, e: Event)
    requires Inv(w) && Linked(l, w) && Possible(w, e)
    ensures Linked(l, Next(w, e))
  {
    StepNumbers(w, e);
    hide Inv;
    hide Next;
  }

  lemma PostedLinked(p: Endpoint, e: Event, tab: nat)
    requires Inv(p.world) && Possible(p.world, e)
    ensures forall l :: l in Posted(p.world, Next(p.world, e), tab, p.trace) ==> l.tab == tab && Linked(l, Next(p.world, e))
  {
    StepNumbers(p.world, e);
    hide Inv;
    hide Next;
  }

  /** A step of one tab, with the letters it posts. */
  lemma ReplaceStepped(f: Fleet, tab: nat, e: Event, more: seq<Letter>)
    requires RevisionInv(f) && tab < |f.tabs| && Possible(f.tabs[tab].world, e)
    requires forall l :: l in more ==> l.tab == tab && Linked(l, Next(f.tabs[tab].world, e))
    requires FleetInv(f.(tabs := f.tabs[tab := Stepped(f.tabs[tab], e)], letters := f.letters + more))
    ensures RevisionInv(f.(tabs := f.tabs[tab := Stepped(f.tabs[tab], e)], letters := f.letters + more))
  {
    hide Stepped;
    hide TabOK;
    hide Linked;
    hide Next;
    hide Possible;
    var p := f.tabs[tab];
    assert EndpointOK(p, f.history);
    InvOf(p, f.history);
    hide FleetInv;
    StepTab(p, e, f.history);
    SteppedWorld(p, e);
    forall i | 0 <= i < |f.letters| && f.letters[i].tab == tab ensures Linked(f.letters[i], Next(p.world, e)) {
      StepLinked(f.letters[i], p.world, e);
    }
  }

  lemma AnsweredTab(p: Endpoint, history: seq<Version>, sequence: nat, payload: Payload)
    requires EndpointOK(p, history) && TabOK(p, history) && Increasing(history)
    requires sequence in p.world.fetches && Shows(payload, history[|history| - 1])
    ensures TabOK(p.(answers := p.answers[sequence := payload]), history)
  {
    BaseIsOld(p, history);
    assert sequence <= p.world.tab.sequence by {
      assert FetchesBounded(p.world);
    }
    hide Inv;
    hide Increasing;
    hide ReceiptOf;
    hide Normalize;
  }

  /** No tab stands on more than what is stored. */
  lemma BaseIsOld(p: Endpoint, history: seq<Version>)
    requires EndpointOK(p, history) && Increasing(history)
    ensures p.world.tab.revision <= history[|history| - 1].revision
  {
    assert BaseTracked(p.world);
    if p.world.base.Some? {
      var k :| 0 <= k < |history| && Shows(p.world.base.value, history[k]);
      assert history[k].revision <= history[|history| - 1].revision;
    }
  }

  lemma ReceiptGrows(save: PendingSave, payload: Payload, history: seq<Version>, version: Version)
    requires ReceiptOf(save, payload, history)
    ensures ReceiptOf(save, payload, history + [version])
  {
    hide Shows;
    var k :| ReceiptAt(save, payload, history, k);
    assert (history + [version])[k] == history[k];
    assert ReceiptAt(save, payload, history + [version], k);
  }

  lemma TabGrows(p: Endpoint, history: seq<Version>, version: Version)
    requires TabOK(p, history)
    ensures TabOK(p, history + [version])
  {
    hide ReceiptOf;
    hide Normalize;
    if p.world.save.Some? && p.world.save.value.id in p.receipts {
      ReceiptGrows(p.world.save.value, p.receipts[p.world.save.value.id], history, version);
    }
  }

  lemma ReceivedTab(p: Endpoint, l: Letter, history: seq<Version>, revision: int, payload: Payload)
    requires TabOK(p, history) && Linked(l, p.world) && Shows(payload, VersionOf(l, revision)) && history != []
    requires revision > l.pending.request.revision
    ensures TabOK(p.(receipts := p.receipts[l.pending.id := payload]), history + [VersionOf(l, revision)])
  {
    var version := VersionOf(l, revision);
    TabGrows(p, history, version);
    assert (history + [version])[|history|] == version;
    assert ReceiptAt(l.pending, payload, history + [version], |history|);
    hide ReceiptOf;
    hide Shows;
    hide Normalize;
  }

  lemma LocalRevision(f: Fleet, tab: nat, event: Event)
    requires RevisionInv(f) && FleetPossible(f, Local(tab, event))
    ensures RevisionInv(FleetNext(f, Local(tab, event)))
  {
    FleetNextInv(f, Local(tab, event));
    var p := f.tabs[tab];
    assert EndpointOK(p, f.history);
    PostedLinked(p, event, tab);
    SteppedWorld(p, event);
    hide Stepped;
    hide Posted;
    hide FleetInv;
    hide RevisionInv;
    hide Next;
    ReplaceStepped(f, tab, event, Posted(p.world, Next(p.world, event), tab, p.trace));
  }

  lemma DeliverRevision(f: Fleet, tab: nat, event: Event)
    requires RevisionInv(f) && tab < |f.tabs| && Possible(f.tabs[tab].world, event)
    requires FleetInv(f.(tabs := f.tabs[tab := Stepped(f.tabs[tab], event)]))
    ensures RevisionInv(f.(tabs := f.tabs[tab := Stepped(f.tabs[tab], event)]))
  {
    hide *;
    assert f.letters + [] == f.letters;
    ReplaceStepped(f, tab, event, []);
  }

  lemma AnswerRevision(f: Fleet, tab: nat, sequence: nat, payload: Payload)
    requires RevisionInv(f) && FleetPossible(f, Answer(tab, sequence, payload))
    ensures RevisionInv(FleetNext(f, Answer(tab, sequence, payload)))
  {
    hide EndpointOK;
    hide LetterOK;
    hide TabOK;
    hide Linked;
    hide Shows;
    hide Increasing;
    hide NothingLost;
    FleetNextInv(f, Answer(tab, sequence, payload));
    AnsweredTab(f.tabs[tab], f.history, sequence, payload);
    hide FleetInv;
  }

  lemma AcceptedRevision(f: Fleet, letter: nat, revision: int, payload: Payload)
    requires RevisionInv(f) && f.history != [] && letter < |f.letters| && f.letters[letter].tab < |f.tabs|
    requires revision > f.letters[letter].pending.request.revision
    requires Shows(payload, VersionOf(f.letters[letter], revision))
    requires FleetInv(Accepted(f, letter, revision, payload))
    ensures RevisionInv(Accepted(f, letter, revision, payload))
  {
    hide FleetInv;
    hide TabOK;
    hide Linked;
    hide Shows;
    hide VersionOf;
    var l := f.letters[letter];
    var version := VersionOf(l, revision);
    ReceivedTab(f.tabs[l.tab], l, f.history, revision, payload);
    forall i | 0 <= i < |f.tabs| ensures TabOK(f.tabs[i], f.history + [version]) {
      TabGrows(f.tabs[i], f.history, version);
    }
  }

  lemma RefusedRevision(f: Fleet, letter: nat)
    requires RevisionInv(f) && letter < |f.letters| && FleetInv(f.(letters := Remaining(f.letters, letter)))
    ensures RevisionInv(f.(letters := Remaining(f.letters, letter)))
  {
    hide FleetInv;
    hide TabOK;
    hide Linked;
  }

  lemma ProcessRevision(f: Fleet, letter: nat, revision: int, payload: Payload)
    requires RevisionInv(f) && f.history != [] && FleetPossible(f, Process(letter, revision, payload))
    requires FleetInv(FleetNext(f, Process(letter, revision, payload)))
    ensures RevisionInv(FleetNext(f, Process(letter, revision, payload)))
  {
    hide RevisionInv;
    hide FleetInv;
    hide Shows;
    hide Accepted;
    hide Stepped;
    hide Posted;
    if Matches(f, letter) {
      AcceptedRevision(f, letter, revision, payload);
    } else {
      RefusedRevision(f, letter);
    }
  }

  lemma DeliverAnswerRevision(f: Fleet, tab: nat, sequence: nat)
    requires RevisionInv(f) && FleetPossible(f, DeliverAnswer(tab, sequence))
    requires FleetInv(FleetNext(f, DeliverAnswer(tab, sequence)))
    ensures RevisionInv(FleetNext(f, DeliverAnswer(tab, sequence)))
  {
    hide RevisionInv;
    hide FleetInv;
    hide Stepped;
    DeliverRevision(f, tab, FetchLands(sequence, f.tabs[tab].answers[sequence]));
  }

  lemma DeliverReceiptRevision(f: Fleet, tab: nat)
    requires RevisionInv(f) && FleetPossible(f, DeliverReceipt(tab))
    requires FleetInv(FleetNext(f, DeliverReceipt(tab)))
    ensures RevisionInv(FleetNext(f, DeliverReceipt(tab)))
  {
    hide RevisionInv;
    hide FleetInv;
    hide Stepped;
    DeliverRevision(f, tab, SaveLands(f.tabs[tab].receipts[f.tabs[tab].world.save.value.id]));
  }

  lemma RevisionNext(f: Fleet, e: FleetEvent)
    requires RevisionInv(f) && FleetPossible(f, e)
    ensures RevisionInv(FleetNext(f, e))
  {
    assert f.history != [];
    hide EndpointOK;
    hide LetterOK;
    hide Increasing;
    hide NothingLost;
    hide TabOK;
    hide Linked;
    hide Shows;
    hide Stepped;
    hide Posted;
    hide FleetNext;
    FleetNextInv(f, e);
    hide FleetInv;
    hide RevisionInv;
    hide Matches;
    match e {
      case Local(tab, event) => LocalRevision(f, tab, event);
      case Answer(tab, sequence, payload) => AnswerRevision(f, tab, sequence, payload);
      case DeliverAnswer(tab, sequence) => DeliverAnswerRevision(f, tab, sequence);
      case Process(letter, revision, payload) => ProcessRevision(f, letter, revision, payload);
      case DeliverReceipt(tab) => DeliverReceiptRevision(f, tab);
    }
  }

  lemma {:induction false} RevisionRun(f: Fleet, events: seq<FleetEvent>)
    requires RevisionInv(f) && FleetRun(f, events)
    ensures RevisionInv(FleetAfter(f, events))
    decreases |events|
  {
    assert f.history != [];
    hide FleetNext;
    hide FleetPossible;
    hide RevisionInv;
    if events != [] {
      RevisionNext(f, events[0]);
      RevisionRun(FleetNext(f, events[0]), events[1..]);
    }
  }

  // ----- what moves a tab's revision -----

  ghost function RevisionAt(f: Fleet, tab: nat): int
    requires tab < |f.tabs|
  {
    f.tabs[tab].world.tab.revision
  }

  lemma TabsStay(f: Fleet, e: FleetEvent)
    requires f.history != [] && FleetPossible(f, e)
    ensures FleetNext(f, e).history != [] && |FleetNext(f, e).tabs| == |f.tabs|
  {
    hide Stepped;
    hide Posted;
    hide Shows;
    hide Matches;
  }

  /** Some run leads from `f` to `g`. */
  ghost predicate Reaches(f: Fleet, g: Fleet) {
    f.history != [] && exists events :: FleetRun(f, events) && FleetAfter(f, events) == g
  }

  lemma {:induction false} RunAppend(f: Fleet, events: seq<FleetEvent>, e: FleetEvent)
    requires f.history != [] && FleetRun(f, events) && FleetPossible(FleetAfter(f, events), e)
    ensures FleetRun(f, events + [e]) && FleetAfter(f, events + [e]) == FleetNext(FleetAfter(f, events), e)
    decreases |events|
  {
    hide FleetNext;
    hide FleetPossible;
    if events == [] {
      assert events + [e] == [e];
      TabsStay(f, e);
    } else {
      TabsStay(f, events[0]);
      RunAppend(FleetNext(f, events[0]), events[1..], e);
      assert (events + [e])[1..] == events[1..] + [e];
    }
  }

  lemma Reached(f: Fleet, g: Fleet, e: FleetEvent)
    requires Reaches(f, g) && g.history != [] && FleetPossible(g, e)
    ensures Reaches(f, FleetNext(g, e))
  {
    hide FleetNext;
    hide FleetPossible;
    var events :| FleetRun(f, events) && FleetAfter(f, events) == g;
    RunAppend(f, events, e);
    assert FleetRun(f, events + [e]);
  }

  lemma ReachedInv(f: Fleet, g: Fleet)
    requires FleetStart(f) && Reaches(f, g)
    ensures RevisionInv(g) && g.history != []
  {
    hide RevisionInv;
    hide FleetStart;
    var events :| FleetRun(f, events) && FleetAfter(f, events) == g;
    RevisionStart(f);
    RevisionRun(f, events);
  }

  /** In every reachable state a delivered answer leaves the tab's revision or raises it. */
  lemma AnswersNeverLower(f: Fleet, g: Fleet, tab: nat, sequence: nat)
    requires FleetStart(f) && Reaches(f, g) && g.history != [] && FleetPossible(g, DeliverAnswer(tab, sequence))
    ensures |FleetNext(g, DeliverAnswer(tab, sequence)).tabs| == |g.tabs|
    ensures RevisionAt(FleetNext(g, DeliverAnswer(tab, sequence)), tab) >= RevisionAt(g, tab)
  {
    ReachedInv(f, g);
    hide *;
    AnswerRaises(g, tab, sequence);
  }

  lemma AnswerRaises(f: Fleet, tab: nat, sequence: nat)
    requires RevisionInv(f) && FleetPossible(f, DeliverAnswer(tab, sequence))
    ensures |FleetNext(f, DeliverAnswer(tab, sequence)).tabs| == |f.tabs|
    ensures var next := RevisionAt(FleetNext(f, DeliverAnswer(tab, sequence)), tab);
            next == if Installs(f.tabs[tab].world, sequence) then Normalize(f.tabs[tab].answers[sequence]).revision
                    else RevisionAt(f, tab)
    ensures RevisionAt(FleetNext(f, DeliverAnswer(tab, sequence)), tab) >= RevisionAt(f, tab)
  {
    assert AnswersCurrent(f.tabs[tab]) by {
      assert TabOK(f.tabs[tab], f.history);
    }
    hide RevisionInv;
    hide Normalize;
    hide Merged;
  }

  /** The step installs an answer that shows a version with a revision above `r` in the tab. */
  ghost predicate InstallsAbove(f: Fleet, e: FleetEvent, tab: nat, r: int)
    requires f.history != [] && FleetPossible(f, e)
  {
    && e.DeliverAnswer? && e.tab == tab
    && Installs(f.tabs[tab].world, e.sequence)
    && Normalize(f.tabs[tab].answers[e.sequence]).revision > r
  }

  /** Some step of the run does. */
  ghost predicate InstalledAbove(f: Fleet, events: seq<FleetEvent>, tab: nat, r: int)
    requires f.history != [] && FleetRun(f, events)
    decreases |events|
  {
    events != [] && (InstallsAbove(f, events[0], tab, r) || InstalledAbove(FleetNext(f, events[0]), events[1..], tab, r))
  }

  /** The tab's save stays in flight: no receipt is delivered to it and it does not fail. */
  ghost predicate StaysInFlight(events: seq<FleetEvent>, tab: nat) {
    forall e :: e in events ==> e != DeliverReceipt(tab) && e != Local(tab, SaveFails)
  }

  /** A step under which the tab's save stays in flight keeps the save, and moves the revision only by an installed answer. */
  lemma StepInFlight(f: Fleet, e: FleetEvent, tab: nat)
    requires RevisionInv(f) && FleetPossible(f, e) && tab < |f.tabs| && f.tabs[tab].world.save.Some?
    requires e != DeliverReceipt(tab) && e != Local(tab, SaveFails)
    ensures tab < |FleetNext(f, e).tabs|
    ensures FleetNext(f, e).tabs[tab].world.save == f.tabs[tab].world.save
    ensures RevisionAt(FleetNext(f, e), tab) == RevisionAt(f, tab)
         || (e.DeliverAnswer? && e.tab == tab && Installs(f.tabs[tab].world, e.sequence))
    ensures f.tabs[tab].world.tab.dirty ==> FleetNext(f, e).tabs[tab].world.tab.dirty
  {
    assert EndpointOK(f.tabs[tab], f.history);
    TabsStay(f, e);
    hide RevisionInv;
    hide Installs;
    hide EndpointOK;
    hide Shows;
    hide Matches;
    hide Posted;
    if e.Local? && e.tab == tab {
      assert Inv(f.tabs[tab].world) by {
        InvOf(f.tabs[tab], f.history);
      }
      LocalInFlight(f.tabs[tab].world, e.event);
      SteppedWorld(f.tabs[tab], e.event);
      hide Stepped;
      hide Next;
    } else if e.DeliverAnswer? && e.tab == tab {
      InvOf(f.tabs[tab], f.history);
      var landing := FetchLands(e.sequence, f.tabs[tab].answers[e.sequence]);
      LandingInFlight(f.tabs[tab].world, landing);
      SteppedWorld(f.tabs[tab], landing);
      hide Stepped;
      hide Next;
    } else {
      OtherStep(f, e, tab);
      hide FleetNext;
    }
  }

  lemma InvOf(p: Endpoint, history: seq<Version>)
    requires EndpointOK(p, history)
    ensures Inv(p.world)
  {
  }

  lemma OtherStep(f: Fleet, e: FleetEvent, tab: nat)
    requires f.history != [] && FleetPossible(f, e) && tab < |f.tabs|
    requires !(e.Local? && e.tab == tab) && !(e.DeliverAnswer? && e.tab == tab) && e != DeliverReceipt(tab)
    ensures tab < |FleetNext(f, e).tabs| && FleetNext(f, e).tabs[tab].world == f.tabs[tab].world
  {
    hide Stepped;
    hide Shows;
    hide Matches;
    hide Posted;
  }

  lemma LocalInFlight(w: World, e: Event)
    requires Inv(w) && Possible(w, e) && w.save.Some? && !e.SaveFails? && !e.SaveLands? && !e.FetchLands?
    ensures Next(w, e).save == w.save && Next(w, e).tab.revision == w.tab.revision
    ensures w.tab.dirty ==> Next(w, e).tab.dirty
  {
    hide Normalize;
    match e {
      case PressSave => PressFrame(w, e);
      case PressRun => PressFrame(w, e);
      case UserEdits(edit) => EditedFrame(w.tab, edit);
      case _ =>
    }
    hide Edited;
    hide AllSendable;
    hide SaveBody;
    hide BaseTracked;
    hide RunsNameSaved;
  }

  lemma LandingInFlight(w: World, e: Event)
    requires Inv(w) && Possible(w, e) && e.FetchLands?
    ensures Next(w, e).save == w.save
    ensures Next(w, e).tab.revision == w.tab.revision || Installs(w, e.sequence)
    ensures w.tab.dirty ==> Next(w, e).tab.dirty
  {
    hide Normalize;
    hide Merged;
    hide Inv;
  }

  /** While the save is in flight the revision rises above `r` exactly by installing an answer above `r`. */
  lemma {:induction false} RisesByInstalling(f: Fleet, events: seq<FleetEvent>, tab: nat, r: int)
    requires RevisionInv(f) && f.history != [] && FleetRun(f, events)
    requires tab < |f.tabs| && f.tabs[tab].world.save.Some? && StaysInFlight(events, tab)
    ensures tab < |FleetAfter(f, events).tabs|
    ensures FleetAfter(f, events).tabs[tab].world.save == f.tabs[tab].world.save
    ensures RevisionAt(FleetAfter(f, events), tab) > r <==> RevisionAt(f, tab) > r || InstalledAbove(f, events, tab, r)
    decreases |events|
  {
    hide RevisionInv;
    hide FleetNext;
    hide FleetPossible;
    hide Installs;
    hide Normalize;
    if events != [] {
      var e := events[0];
      assert e in events && forall x :: x in events[1..] ==> x in events;
      StepInFlight(f, e, tab);
      if e.DeliverAnswer? && e.tab == tab {
        AnswerRaises(f, tab, e.sequence);
      }
      RevisionNext(f, e);
      TabsStay(f, e);
      RisesByInstalling(FleetNext(f, e), events[1..], tab, r);
    }
  }

  /** A press at the reachable state `g` sends a save of the tab, which leads to `sent`. */
  ghost predicate Sends(f: Fleet, g: Fleet, tab: nat, press: Event, sent: Fleet) {
    && FleetStart(f) && Reaches(f, g) && g.history != []
    && FleetPossible(g, Local(tab, press)) && sent == FleetNext(g, Local(tab, press))
    && tab < |sent.tabs| && g.tabs[tab].world.save.None? && sent.tabs[tab].world.save.Some?
  }

  /** The run leads from `sent` to `end` with the tab's save in flight, and there its receipt is due. */
  ghost predicate Flies(sent: Fleet, events: seq<FleetEvent>, tab: nat, end: Fleet) {
    && sent.history != [] && FleetRun(sent, events) && StaysInFlight(events, tab)
    && end == FleetAfter(sent, events) && FleetPossible(end, DeliverReceipt(tab))
  }

  ghost function ReceiptRevision(f: Fleet, tab: nat): int
    requires f.history != [] && FleetPossible(f, DeliverReceipt(tab))
  {
    Normalize(f.tabs[tab].receipts[f.tabs[tab].world.save.value.id]).revision
  }

  /** What the theorems about a save in flight start from. */
  lemma FlightStarts(f: Fleet, g: Fleet, tab: nat, press: Event, sent: Fleet)
    requires Sends(f, g, tab, press, sent)
    ensures RevisionInv(sent) && sent.tabs[tab].world.tab.revision == sent.tabs[tab].world.save.value.request.revision
  {
    ReachedInv(f, g);
    RevisionNext(g, Local(tab, press));
    SentSaves(g, tab, press);
    SentOnBase(g, tab, press);
    hide FleetNext;
    hide RevisionInv;
  }

  lemma SentSaves(f: Fleet, tab: nat, press: Event)
    requires f.history != [] && FleetPossible(f, Local(tab, press))
    ensures tab < |FleetNext(f, Local(tab, press)).tabs|
    ensures FleetNext(f, Local(tab, press)).tabs[tab].world == Next(f.tabs[tab].world, press)
  {
    SteppedWorld(f.tabs[tab], press);
    hide Stepped;
    hide Posted;
    hide Next;
  }

  /**
   A save goes out from a reachable state and its receipt is delivered after any
   further run: the receipt lowers the tab's revision exactly when, meanwhile,
   an answer showing a later version than the receipt was installed.
   */
  lemma ReceiptLowersExactly(f: Fleet, g: Fleet, tab: nat, press: Event, sent: Fleet, events: seq<FleetEvent>, end: Fleet)
    requires Sends(f, g, tab, press, sent) && Flies(sent, events, tab, end)
    ensures end.history != [] && |FleetNext(end, DeliverReceipt(tab)).tabs| == |end.tabs|
    ensures RevisionAt(FleetNext(end, DeliverReceipt(tab)), tab) < RevisionAt(end, tab)
       <==> InstalledAbove(sent, events, tab, ReceiptRevision(end, tab))
  {
    FlightStarts(f, g, tab, press, sent);
    RevisionRun(sent, events);
    hide RevisionInv;
    hide FleetNext;
    hide FleetPossible;
    hide FleetStart;
    hide Reaches;
    ReceiptLands(end, tab);
    RisesByInstalling(sent, events, tab, ReceiptRevision(end, tab));
  }

  lemma SentOnBase(f: Fleet, tab: nat, press: Event)
    requires RevisionInv(f) && FleetPossible(f, Local(tab, press)) && f.tabs[tab].world.save.None?
    requires Next(f.tabs[tab].world, press).save.Some?
    ensures var w := FleetNext(f, Local(tab, press)).tabs[tab].world;
            w.save.Some? && w.tab.revision == w.save.value.request.revision
  {
    var w := f.tabs[tab].world;
    assert EndpointOK(f.tabs[tab], f.history);
    NextInv(w, press);
    StepBase(w, press);
    StepNumbers(w, press);
    assert BaseTracked(Next(w, press)) && SaveCaptured(Next(w, press));
    SteppedWorld(f.tabs[tab], press);
    SentKeepsBase(w, press);
    hide Next;
    hide RevisionInv;
    hide Normalize;
  }

  lemma SentKeepsBase(w: World, press: Event)
    requires Inv(w) && Possible(w, press) && w.save.None? && Next(w, press).save.Some?
    ensures Next(w, press).base == w.base
  {
    hide Normalize;
    hide Edited;
    hide AllSendable;
    hide SaveBody;
    hide BaseTracked;
    hide RunsNameSaved;
  }

  lemma ReceiptLands(f: Fleet, tab: nat)
    requires RevisionInv(f) && FleetPossible(f, DeliverReceipt(tab))
    ensures var w := f.tabs[tab].world;
            var receipt := Normalize(f.tabs[tab].receipts[w.save.value.id]).revision;
            && |FleetNext(f, DeliverReceipt(tab)).tabs| == |f.tabs|
            && RevisionAt(FleetNext(f, DeliverReceipt(tab)), tab) == receipt
            && receipt > w.save.value.request.revision
  {
    var p := f.tabs[tab];
    ReceiptNewer(p, f.history);
    hide RevisionInv;
    TabsStay(f, DeliverReceipt(tab));
    var landing := SaveLands(p.receipts[p.world.save.value.id]);
    LandedRevision(p.world, landing.payload);
    SteppedWorld(p, landing);
    hide Stepped;
    hide Normalize;
    hide Next;
  }

  lemma LandedRevision(w: World, payload: Payload)
    requires w.save.Some?
    ensures Next(w, SaveLands(payload)).tab.revision == Normalize(payload).revision
  {
    hide Normalize;
    hide Merged;
  }

  lemma ReceiptNewer(p: Endpoint, history: seq<Version>)
    requires TabOK(p, history) && p.world.save.Some? && p.world.save.value.id in p.receipts
    ensures Normalize(p.receipts[p.world.save.value.id]).revision > p.world.save.value.request.revision
  {
    var save := p.world.save.value;
    var k :| ReceiptAt(save, p.receipts[save.id], history, k);
    hide Normalize;
  }

  /** The receipt of a save that went out with unsaved edits always raises the revision. */
  lemma DirtySaveRaises(f: Fleet, g: Fleet, tab: nat, press: Event, sent: Fleet, events: seq<FleetEvent>, end: Fleet)
    requires Sends(f, g, tab, press, sent) && Flies(sent, events, tab, end)
    requires sent.tabs[tab].world.tab.dirty
    ensures end.history != [] && |FleetNext(end, DeliverReceipt(tab)).tabs| == |end.tabs|
    ensures RevisionAt(FleetNext(end, DeliverReceipt(tab)), tab) > RevisionAt(end, tab)
  {
    FlightStarts(f, g, tab, press, sent);
    RevisionRun(sent, events);
    hide RevisionInv;
    hide FleetNext;
    hide FleetPossible;
    hide FleetStart;
    hide Reaches;
    ReceiptLands(end, tab);
    DirtyStays(sent, events, tab);
  }

  /** A dirty tab with a save in flight stays dirty on the revision it sent. */
  lemma {:induction false} DirtyStays(f: Fleet, events: seq<FleetEvent>, tab: nat)
    requires RevisionInv(f) && f.history != [] && FleetRun(f, events)
    requires tab < |f.tabs| && f.tabs[tab].world.save.Some? && f.tabs[tab].world.tab.dirty && StaysInFlight(events, tab)
    ensures tab < |FleetAfter(f, events).tabs|
    ensures FleetAfter(f, events).tabs[tab].world.save == f.tabs[tab].world.save
    ensures RevisionAt(FleetAfter(f, events), tab) == RevisionAt(f, tab)
    decreases |events|
  {
    hide RevisionInv;
    hide FleetNext;
    hide FleetPossible;
    hide Normalize;
    if events != [] {
      var e := events[0];
      assert e in events && forall x :: x in events[1..] ==> x in events;
      StepInFlight(f, e, tab);
      RevisionNext(f, e);
      TabsStay(f, e);
      DirtyStays(FleetNext(f, e), events[1..], tab);
    }
  }

  // ----- a run in which the revision falls -----

  /** A configuration of one enabled rule with one target, and the payload that shows it. */
  function SampleTarget(text: string): RawTarget {
    RawTarget(Number(1), text, "", text, Number(80), Missing, Number(0), Flag.Known(false), [])
  }

  function SampleItem(text: string): RawItem {
    RawItem(Number(1), "", "", Flag.Known(true), Number(30), Number(5000), Number(3), Number(2), [SampleTarget(text)])
  }

  function SampleRule(text: string): RawPolicy {
    RawPolicy(Number(1), text, "", text, Flag.Known(true), [], [])
  }

  function Sample(text: string, revision: int): Payload {
    Payload(Number(revision), [SampleItem(text)], [SampleRule(text)])
  }

  function SampleConfig(text: string): seq<SaveItem> {
    [SaveItem(1, true, 30, 5000, 3, 2, [SaveTarget(text, 80, false)])]
  }

  function TargetShown(text: string): Target {
    Target(Some(1), text, "", text, 80, 0, false, [])
  }

  function PolicyShown(text: string): Policy {
    Policy(1, text, Override, text, true, [], [])
  }

  function DraftShown(text: string): Draft {
    Draft(1, text, Override, true, 30, 5000, 3, 2, [TargetShown(text)])
  }

  lemma SampleTargets(text: string)
    requires text != "" && Trim(text) == text
    ensures ConfiguredTargets([SampleTarget(text)]) == [TargetShown(text)]
    ensures Map(TargetBody, [TargetShown(text)]) == [SaveTarget(text, 80, false)]
    ensures SortTargets([TargetShown(text)]) == [TargetShown(text)]
  {
    hide Trim;
    var t := TargetShown(text);
    assert SortTargets([]) == [] && Place(t, []) == [t];
    assert [t][1..] == [];
  }

  lemma SampleConfigured(text: string)
    requires text != "" && Trim(text) == text
    ensures Map(RawItemBody, [SampleItem(text)]) == SampleConfig(text)
    ensures NormalizePolicy(SampleRule(text)) == PolicyShown(text)
    ensures NormalizeDraft(PolicyShown(text), Some(SampleItem(text))) == DraftShown(text)
  {
    hide Trim;
    SampleTargets(text);
    hide ConfiguredTargets;
    hide SortTargets;
    assert "override"[1] != "original"[1] && |"override"| != |"hide"|;
    assert RawItemBody(SampleItem(text)) == SampleConfig(text)[0];
  }

  lemma SampleSelected(text: string)
    requires text != "" && Trim(text) == text
    ensures Selectable(PolicyShown(text)) && 1 in SelectableIDs([PolicyShown(text)])
    ensures UniqueIDs([1]) == [1]
  {
    hide Trim;
    assert DerivedTargets(PolicyShown(text)) != [];
    assert PolicyShown(text) in [PolicyShown(text)];
    FirstWinsFixes(Identity, [1]);
    assert Filter((id: int) => id > 0, [1]) == [1];
  }

  lemma SampleTable(text: string)
    requires NormalizeDraft(PolicyShown(text), Some(SampleItem(text))) == DraftShown(text)
    ensures DraftTable([PolicyShown(text)], DraftFor([SampleItem(text)])) == map[1 := DraftShown(text)]
  {
    hide NormalizeDraft;
    var policy, items := PolicyShown(text), [SampleItem(text)];
    assert ItemFor(items, 1) == Some(SampleItem(text));
    assert [policy][..0] == [] && DraftTable([], DraftFor(items)) == map[];
  }

  lemma SampleSelection(text: string)
    requires text != "" && Trim(text) == text
    ensures Filter(Within(SelectableIDs([PolicyShown(text)])), UniqueIDs(ItemIDs([SampleItem(text)]))) == [1]
  {
    SampleSelected(text);
    hide Trim;
    hide SelectableIDs;
    hide UniqueIDs;
    assert ItemIDs([SampleItem(text)]) == [1];
    FilterCons(Within(SelectableIDs([PolicyShown(text)])), 1, []);
    assert [1] + [] == [1];
  }

  lemma SamplePolicies(text: string)
    requires NormalizePolicy(SampleRule(text)) == PolicyShown(text)
    ensures NormalizedPolicies([SampleRule(text)]) == [PolicyShown(text)]
  {
    hide NormalizePolicy;
    var policy := PolicyShown(text);
    assert Map(NormalizePolicy, [SampleRule(text)]) == [policy];
    FilterCons(Identified(), policy, []);
    assert [policy] + [] == [policy];
  }

  lemma SampleNormalizes(text: string, revision: int)
    requires text != "" && Trim(text) == text
    ensures Normalize(Sample(text, revision))
         == Configuration(revision, [PolicyShown(text)], map[1 := DraftShown(text)], [1])
  {
    SampleConfigured(text);
    SampleSelection(text);
    SamplePolicies(text);
    SampleTable(text);
    hide Trim;
    hide NormalizePolicy;
    hide NormalizeDraft;
    hide NormalizedPolicies;
    hide SelectableIDs;
    hide UniqueIDs;
    hide ItemIDs;
    hide DraftTable;
    hide Filter;
    hide PolicyShown;
    hide DraftShown;
  }

  lemma SampleShows(text: string, version: Version)
    requires text != "" && Trim(text) == text && version.config == SampleConfig(text)
    ensures Shows(Sample(text, version.revision), version)
  {
    SampleConfigured(text);
    SampleNormalizes(text, version.revision);
    hide Normalize;
    hide RawItemBody;
  }

  /** A tab on the sample, with nothing edited and nothing under way. */
  ghost predicate OnSample(t: Tab, text: string, revision: int) {
    && t.policies == [PolicyShown(text)] && t.drafts == map[1 := DraftShown(text)] && t.selected == [1]
    && t.revision == revision && t.loaded && !t.dirty && !t.saving && !t.running
  }

  /** Run now sends the sample from such a tab. */
  lemma SampleRuns(t: Tab, text: string, revision: int)
    requires text != "" && Trim(text) == text && OnSample(t, text, revision)
    ensures RunWanted(t) && AllSendable(t)
    ensures SaveWanted(t).Some? && SaveWanted(t).value.items == SampleConfig(text) && SaveWanted(t).value.revision == revision
  {
    SampleSelected(text);
    SampleTargets(text);
    hide Trim;
    hide Selectable;
    hide IsSplitLeaf;
    assert PolicyFor(t.policies, 1) == Some(PolicyShown(text));
    assert Sendable(t.policies, t.drafts, 1);
    assert t.selected[0] == 1;
    assert ItemBodies(t.selected, t.drafts) == SampleConfig(text);
  }

  /** Two tabs nobody has touched, and the sample stored at revision 1. */
  function SampleFleet(text: string): Fleet {
    var untouched := Endpoint(START, map[], map[], NO_TRACE);
    Fleet([untouched, untouched], [], [Version(1, SampleConfig(text), None, NO_TRACE)])
  }

  /** `g` differs from `f` only in the tab. */
  ghost predicate OnlyTab(f: Fleet, g: Fleet, tab: nat) {
    && |g.tabs| == |f.tabs| && g.letters == f.letters && g.history == f.history
    && forall i :: 0 <= i < |f.tabs| && i != tab ==> g.tabs[i] == f.tabs[i]
  }

  ghost predicate StoresSample(f: Fleet, text: string) {
    f.history != [] && Stored(f).config == SampleConfig(text)
  }

  lemma NextSequenceUnused(f: Fleet, g: Fleet, tab: nat)
    requires FleetStart(f) && Reaches(f, g) && tab < |g.tabs|
    ensures g.tabs[tab].world.tab.sequence + 1 !in g.tabs[tab].answers
  {
    hide FleetStart;
    hide Reaches;
    ReachedInv(f, g);
    assert TabOK(g.tabs[tab], g.history);
  }

  /** A clean tab polls, is answered and installs the sample. */
  lemma Loads(f: Fleet, g: Fleet, tab: nat, text: string) returns (h: Fleet)
    requires FleetStart(f) && Reaches(f, g) && tab < |g.tabs| && StoresSample(g, text)
    requires text != "" && Trim(text) == text
    requires !g.tabs[tab].world.tab.dirty
    ensures Reaches(f, h) && OnlyTab(g, h, tab)
    ensures var w, n := g.tabs[tab].world, h.tabs[tab].world;
            && n.tab == Install(w.tab.(sequence := w.tab.sequence + 1), Normalize(Sample(text, Stored(g).revision)))
            && n.save == w.save && n.saves == w.saves && h.tabs[tab].receipts == g.tabs[tab].receipts
  {
    hide SampleConfig;
    hide Merged;
    hide Matches;
    hide Posted;
    hide Offered;
    hide Edited;
    hide SaveWanted;
    hide SaveLanded;
    hide Trim;
    hide Normalize;
    hide FleetStart;
    hide RevisionInv;
    hide TabOK;
    hide Reaches;
    hide Shows;
    hide Sample;
    NextSequenceUnused(f, g, tab);
    var sequence := g.tabs[tab].world.tab.sequence + 1;
    var payload := Sample(text, Stored(g).revision);
    SampleShows(text, Stored(g));
    var answered := IsAnswered(f, g, tab, payload);
    hide StoresSample;
    h := Does(f, answered, DeliverAnswer(tab, sequence));
  }

  /** The tab has polled and its answer is on its way. */
  ghost predicate Answered(p: Endpoint, q: Endpoint, payload: Payload) {
    var w := p.world;
    var sequence := w.tab.sequence + 1;
    && q.world == w.(tab := w.tab.(sequence := sequence), fetches := w.fetches[sequence := w.tab.editVersion])
    && q.receipts == p.receipts && sequence in q.answers && q.answers[sequence] == payload
  }

  lemma IsAnswered(f: Fleet, g: Fleet, tab: nat, payload: Payload) returns (h: Fleet)
    requires Reaches(f, g) && g.history != [] && tab < |g.tabs| && Shows(payload, Stored(g))
    requires g.tabs[tab].world.tab.sequence + 1 !in g.tabs[tab].answers
    ensures Reaches(f, h) && OnlyTab(g, h, tab)
    ensures Answered(g.tabs[tab], h.tabs[tab], payload)
  {
    hide Reaches;
    hide Normalize;
    hide Shows;
    var polled := Does(f, g, Local(tab, Poll));
    h := Does(f, polled, Answer(tab, g.tabs[tab].world.tab.sequence + 1, payload));
  }

  lemma Does(f: Fleet, g: Fleet, e: FleetEvent) returns (h: Fleet)
    requires Reaches(f, g) && g.history != [] && FleetPossible(g, e)
    ensures Reaches(f, h) && h == FleetNext(g, e) && h.history != []
  {
    hide Reaches;
    Reached(f, g, e);
    h := FleetNext(g, e);
    TabsStay(g, e);
    hide FleetNext;
    hide FleetPossible;
  }

  /** Run now on such a tab sends the sample. */
  lemma Runs(f: Fleet, g: Fleet, tab: nat, text: string, revision: int) returns (h: Fleet)
    requires Reaches(f, g) && g.history != [] && tab < |g.tabs| && text != "" && Trim(text) == text
    requires OnSample(g.tabs[tab].world.tab, text, revision) && g.tabs[tab].world.save.None?
    ensures Reaches(f, h) && |h.tabs| == |g.tabs| && h.history == g.history && |h.letters| == |g.letters| + 1
    ensures forall i :: 0 <= i < |g.tabs| && i != tab ==> h.tabs[i] == g.tabs[i]
    ensures h.letters[..|g.letters|] == g.letters
    ensures var w, n, l := g.tabs[tab].world, h.tabs[tab].world, h.letters[|g.letters|];
            && n.save == Some(l.pending) && l.tab == tab && l.pending.id == w.saves
            && l.pending.request.items == SampleConfig(text) && l.pending.request.revision == revision
            && !n.tab.dirty
    ensures h == FleetNext(g, Local(tab, PressRun))
  {
    hide Trim;
    hide Normalize;
    SampleRuns(g.tabs[tab].world.tab, text, revision);
    hide AllSendable;
    hide SaveBody;
    hide OnSample;
    h := Does(f, g, Local(tab, PressRun));
    hide Reaches;
  }

  /** The only letter is accepted under the next revision. */
  lemma Stores(f: Fleet, g: Fleet, text: string) returns (h: Fleet)
    requires Reaches(f, g) && StoresSample(g, text) && text != "" && Trim(text) == text
    requires |g.letters| == 1 && g.letters[0].tab < |g.tabs| && g.letters[0].pending.request.items == SampleConfig(text)
    requires g.letters[0].pending.request.revision == Stored(g).revision
    ensures Reaches(f, h) && StoresSample(h, text) && Stored(h).revision == Stored(g).revision + 1
    ensures |h.tabs| == |g.tabs| && h.letters == []
    ensures forall i :: 0 <= i < |g.tabs| ==> h.tabs[i].world == g.tabs[i].world
    ensures forall i :: 0 <= i < |g.tabs| && i != g.letters[0].tab ==> h.tabs[i] == g.tabs[i]
    ensures g.letters[0].pending.id in h.tabs[g.letters[0].tab].receipts
    ensures h.tabs[g.letters[0].tab].receipts[g.letters[0].pending.id] == Sample(text, Stored(h).revision)
  {
    hide Trim;
    hide Normalize;
    var revision := Stored(g).revision + 1;
    SampleShows(text, VersionOf(g.letters[0], revision));
    hide Shows;
    h := Does(f, g, Process(0, revision, Sample(text, revision)));
    hide Reaches;
  }

  lemma LoadedOnSample(t: Tab, u: Tab, text: string, revision: int)
    requires text != "" && Trim(text) == text && !t.saving && !t.running
    requires u == Install(t.(sequence := t.sequence + 1), Normalize(Sample(text, revision)))
    ensures OnSample(u, text, revision)
  {
    SampleNormalizes(text, revision);
    hide Trim;
    hide Normalize;
  }

  /**
   A clean tab runs its rules, which saves them; another tab saves on top; the
   first tab's next poll installs that, and then its own receipt arrives.
   */
  lemma FallsFor(text: string) returns (g: Fleet)
    requires text != "" && Trim(text) == text
    ensures FleetStart(SampleFleet(text)) && Reaches(SampleFleet(text), g)
    ensures g.history != [] && FleetPossible(g, DeliverReceipt(0)) && |FleetNext(g, DeliverReceipt(0)).tabs| == |g.tabs| == 2
    ensures RevisionAt(g, 0) == 3 && RevisionAt(FleetNext(g, DeliverReceipt(0)), 0) == 2
  {
    hide Trim;
    hide Normalize;
    var f := SampleFleet(text);
    assert FleetRun(f, []) && FleetAfter(f, []) == f;
    assert FleetStart(f);
    hide FleetStart;
    hide Reaches;
    hide FleetNext;
    hide FleetPossible;
    hide OnSample;
    var loaded := Loads(f, f, 0, text);
    LoadedOnSample(f.tabs[0].world.tab, loaded.tabs[0].world.tab, text, 1);
    var sent := Runs(f, loaded, 0, text, 1);
    var stored := Stores(f, sent, text);
    var other := Loads(f, stored, 1, text);
    LoadedOnSample(stored.tabs[1].world.tab, other.tabs[1].world.tab, text, 2);
    var sending := Runs(f, other, 1, text, 2);
    var storing := Stores(f, sending, text);
    g := Loads(f, storing, 0, text);
    SampleNormalizes(text, 3);
    SampleNormalizes(text, 2);
    Falls(f, g, text);
  }

  lemma Falls(f: Fleet, g: Fleet, text: string)
    requires FleetStart(f) && Reaches(f, g) && g.history != [] && |g.tabs| == 2
    requires text != "" && Trim(text) == text
    requires g.tabs[0].world.save.Some? && g.tabs[0].world.save.value.id in g.tabs[0].receipts
    requires g.tabs[0].receipts[g.tabs[0].world.save.value.id] == Sample(text, 2)
    ensures FleetPossible(g, DeliverReceipt(0)) && |FleetNext(g, DeliverReceipt(0)).tabs| == 2
    ensures RevisionAt(FleetNext(g, DeliverReceipt(0)), 0) == 2
  {
    hide Trim;
    hide Normalize;
    hide RevisionInv;
    hide FleetStart;
    hide Reaches;
    hide FleetNext;
    ReachedInv(f, g);
    assert FleetPossible(g, DeliverReceipt(0));
    hide FleetPossible;
    SampleNormalizes(text, 2);
    ReceiptLands(g, 0);
  }

  /** Such a run from two tabs nobody has touched. */
  lemma RevisionFalls() returns (f: Fleet, g: Fleet)
    ensures FleetStart(f) && Reaches(f, g)
    ensures g.history != [] && FleetPossible(g, DeliverReceipt(0)) && |FleetNext(g, DeliverReceipt(0)).tabs| == |g.tabs| == 2
    ensures RevisionAt(g, 0) == 3 && RevisionAt(FleetNext(g, DeliverReceipt(0)), 0) == 2
  {
    TrimmedFixed("k");
    hide *;
    f := SampleFleet("k");
    g := FallsFor("k");
  }
}
