/**
 A save in flight overtaken by an answer that is installed before its receipt
 arrives: which stored versions the values shown then stem from.
 */
module EntryMonitorFlights {

  import opened Options
  import opened Sequences
  import opened EntryMonitorModel
  import opened EntryMonitorTab
  import opened EntryMonitorRuns
  import opened EntryMonitorFleet
  import opened EntryMonitorRevisions
  import opened EntryMonitorConfig

  // ----- a save overtaken by an answer -----

  /** Where it was not edited since the save went out, the draft holds what this version holds. */
  ghost predicate DraftSourced(d: Draft, id: int, flying: set<Slot>, version: Version) {
    forall aspect, v :: DraftSlot(id, aspect) !in flying && ConfigHolds(version.config, id, aspect, v) ==> DraftHolds(d, aspect, v)
  }

  ghost predicate SelectionSourced(ids: seq<int>, offered: set<int>, version: Version) {
    && (forall id :: id in ids ==> id in BodyIDs(version.config))
    && (forall id :: id in BodyIDs(version.config) && id in offered ==> id in ids)
  }

  ghost predicate DraftFrom(d: Draft, id: int, flying: set<Slot>, history: seq<Version>, least: int, m: int) {
    0 <= m < |history| && history[m].revision >= least && DraftSourced(d, id, flying, history[m])
  }

  ghost predicate SelectionFrom(ids: seq<int>, offered: set<int>, history: seq<Version>, least: int, m: int) {
    0 <= m < |history| && history[m].revision >= least && SelectionSourced(ids, offered, history[m])
  }

  /** The save sent exactly what its base shows. */
  ghost predicate SentClean(save: PendingSave) {
    save.base.Some? && CleanImage(save.request.items, save.base.value)
  }

  /**
   While a save is in flight the tab stands on no less than it sent; once an
   answer has overtaken it, the save was sent from a clean tab, and every draft
   and the selection stem from some version that is no older.
   */
  ghost predicate FlightSourced(p: Endpoint, history: seq<Version>) {
    p.world.save.Some? ==>
      var least := p.world.save.value.request.revision;
      && p.world.tab.revision >= least
      && (p.trace.overtaken || !p.world.tab.dirty ==> SentClean(p.world.save.value))
      && (p.trace.overtaken ==>
            && (forall id :: id in p.world.tab.drafts ==>
                  exists m :: DraftFrom(p.world.tab.drafts[id], id, p.trace.flying, history, least, m))
            && (Selection !in p.trace.flying ==>
                  exists m :: SelectionFrom(p.world.tab.selected, p.trace.offered, history, least, m)))
  }

  /** The version stored last, if the receipt shows it, and the one before it are all that is no older than the save's base. */
  lemma OnlyTwoSources(p: Endpoint, payload: Payload, history: seq<Version>, m: int)
    requires Increasing(history) && NothingLost(history) && p.world.save.Some?
    requires SaveCaptured(p.world) && ReceiptOf(p.world.save.value, payload, history)
    requires history[|history| - 1].revision <= Normalize(payload).revision
    requires 0 <= m < |history| && history[m].revision >= p.world.save.value.request.revision
    ensures history[m].config == Config(payload) || history[m].config == Config(p.world.save.value.base.value)
  {
    var save := p.world.save.value;
    var k :| ReceiptAt(save, payload, history, k);
    assert BuiltOnPrevious(history, k);
    hide Normalize;
    hide RawItemBody;
  }

  lemma ReceiptConfig(save: PendingSave, payload: Payload, history: seq<Version>)
    requires ReceiptOf(save, payload, history)
    ensures Config(payload) == save.request.items
  {
    var k :| ReceiptAt(save, payload, history, k);
    hide Normalize;
    hide RawItemBody;
  }

  // ----- what the base of an overtaken save was -----

  ghost predicate PriorAt(base: Payload, prior: Payload, history: seq<Version>, k: int) {
    && 0 < k < |history| && Shows(base, history[k]) && Shows(prior, history[k - 1])
    && CleanImage(history[k].config, prior)
  }

  /** What an overtaken save was based on is the version before the one it became, and it was sent from a clean tab. */
  ghost predicate PriorKnown(base: Option<Payload>, prior: Option<Payload>, history: seq<Version>) {
    prior.Some? ==> base.Some? && exists k :: PriorAt(base.value, prior.value, history, k)
  }

  ghost predicate TabSourced(p: Endpoint, history: seq<Version>) {
    FlightSourced(p, history) && PriorKnown(p.world.base, p.trace.prior, history)
  }

  // ----- steps of one tab -----

  lemma PriorGrows(base: Option<Payload>, prior: Option<Payload>, history: seq<Version>, version: Version)
    requires PriorKnown(base, prior, history)
    ensures PriorKnown(base, prior, history + [version])
  {
    hide Shows;
    hide CleanImage;
    if prior.Some? {
      var k :| PriorAt(base.value, prior.value, history, k);
      assert PriorAt(base.value, prior.value, history + [version], k);
    }
  }

  lemma SourcedGrows(p: Endpoint, q: Endpoint, history: seq<Version>, version: Version)
    requires TabSourced(p, history) && q.world == p.world && q.trace == p.trace
    ensures TabSourced(q, history + [version])
  {
    PriorGrows(p.world.base, p.trace.prior, history, version);
    hide PriorKnown;
    hide DraftSourced;
    hide SelectionSourced;
    if p.world.save.Some? && p.trace.overtaken {
      var least := p.world.save.value.request.revision;
      forall id | id in p.world.tab.drafts
        ensures exists m :: DraftFrom(p.world.tab.drafts[id], id, p.trace.flying, history + [version], least, m)
      {
        var m :| DraftFrom(p.world.tab.drafts[id], id, p.trace.flying, history, least, m);
        assert DraftFrom(p.world.tab.drafts[id], id, p.trace.flying, history + [version], least, m);
      }
      if Selection !in p.trace.flying {
        var m :| SelectionFrom(p.world.tab.selected, p.trace.offered, history, least, m);
        assert SelectionFrom(p.world.tab.selected, p.trace.offered, history + [version], least, m);
      }
    }
  }

  lemma EditedDraftSourced(t: Tab, edit: Edit, id: int, flying: set<Slot>, version: Version)
    requires id in t.drafts && DraftSourced(t.drafts[id], id, flying, version)
    ensures id in Edited(t, edit).drafts && DraftSourced(Edited(t, edit).drafts[id], id, flying + {SlotOf(edit)}, version)
  {
    hide ConfigHolds;
    hide DraftHolds;
    hide Changed;
    hide SelectableIDs;
    var d := Edited(t, edit).drafts[id];
    forall aspect, v | DraftSlot(id, aspect) !in flying + {SlotOf(edit)} && ConfigHolds(version.config, id, aspect, v)
      ensures DraftHolds(d, aspect, v)
    {
      assert Holds(t, DraftSlot(id, aspect), v);
      OtherEditHolds(t, edit, DraftSlot(id, aspect), v);
    }
  }

  lemma EditedDomain(t: Tab, edit: Edit)
    ensures Edited(t, edit).drafts.Keys == t.drafts.Keys && Edited(t, edit).revision == t.revision
    ensures edit.ChangeDraft? ==> Edited(t, edit).selected == t.selected
    ensures t.dirty ==> Edited(t, edit).dirty
    ensures edit.ChangeDraft? && edit.id !in t.drafts ==> Edited(t, edit) == t
  {
    hide Changed;
    hide SelectableIDs;
  }

  lemma EditSourced(p: Endpoint, edit: Edit, history: seq<Version>)
    requires TabSourced(p, history) && Possible(p.world, UserEdits(edit))
    ensures TabSourced(Stepped(p, UserEdits(edit)), history)
  {
    SteppedWorld(p, UserEdits(edit));
    var q := Stepped(p, UserEdits(edit));
    var t := p.world.tab;
    EditedDomain(t, edit);
    hide PriorKnown;
    hide DraftSourced;
    hide SelectionSourced;
    hide Edited;
    if p.world.save.Some? && p.trace.overtaken && !(edit.ChangeDraft? && edit.id !in t.drafts) {
      var least := p.world.save.value.request.revision;
      forall id | id in q.world.tab.drafts
        ensures exists m :: DraftFrom(q.world.tab.drafts[id], id, q.trace.flying, history, least, m)
      {
        assert id in t.drafts.Keys;
        var m :| DraftFrom(t.drafts[id], id, p.trace.flying, history, least, m);
        EditedDraftSourced(t, edit, id, p.trace.flying, history[m]);
        assert DraftFrom(q.world.tab.drafts[id], id, q.trace.flying, history, least, m);
      }
    }
  }

  lemma SourcedStays(p: Endpoint, q: Endpoint, history: seq<Version>)
    requires TabSourced(p, history) && q.world == p.world && q.trace == p.trace
    ensures TabSourced(q, history)
  {
    hide DraftFrom;
    hide SelectionFrom;
    hide PriorKnown;
  }

  lemma SentSourced(q: Endpoint, history: seq<Version>)
    requires q.world.save.Some? && q.world.tab.revision >= q.world.save.value.request.revision && !q.trace.overtaken
    requires !q.world.tab.dirty ==> SentClean(q.world.save.value)
    requires PriorKnown(q.world.base, q.trace.prior, history)
    ensures TabSourced(q, history)
  {
    hide DraftFrom;
    hide SelectionFrom;
    hide PriorKnown;
    hide SentClean;
  }

  lemma PressTraced(w: World, e: Event, trace: Trace)
    requires Possible(w, e) && (e.PressSave? || e.PressRun?)
    ensures Traced(w, e, trace) == if w.save.None? && Next(w, e).save.Some? then trace.(flying := {}, overtaken := false) else trace
  {
    hide Next;
  }

  lemma PressSourced(p: Endpoint, e: Event, history: seq<Version>)
    requires TabSourced(p, history) && Inv(p.world) && Possible(p.world, e) && (e.PressSave? || e.PressRun?)
    ensures TabSourced(Stepped(p, e), history)
  {
    var q := Stepped(p, e);
    SteppedWorld(p, e);
    PressTraced(p.world, e, p.trace);
    PressSends(p.world, e);
    hide Next;
    hide Stepped;
    hide Traced;
    hide PriorKnown;
    hide FlightSourced;
    if q.world == p.world {
      SourcedStays(p, q, history);
    } else {
      SentFromBase(p.world);
      hide CleanImage;
      hide SaveWanted;
      hide Inv;
      SentSourced(q, history);
    }
  }

  lemma SentFromBase(w: World)
    requires Inv(w) && SaveWanted(w.tab).Some?
    ensures w.save.None? && SaveWanted(w.tab).value.revision == w.tab.revision
    ensures w.tab.loaded && !w.tab.dirty ==> w.base.Some? && CleanImage(SaveWanted(w.tab).value.items, w.base.value)
  {
    SaveWantedBody(w);
    SendableDrafts(w.tab);
    hide Normalize;
    hide RunsNameSaved;
    hide Sendable;
    hide EnabledAmong;
  }

  lemma QuietSourced(p: Endpoint, e: Event, history: seq<Version>)
    requires TabSourced(p, history) && Possible(p.world, e)
    requires e.Poll? || e.FetchFails? || e.SaveFails? || e.RunSettles?
    ensures TabSourced(Stepped(p, e), history)
  {
    SteppedWorld(p, e);
    hide PriorKnown;
    hide DraftFrom;
    hide SelectionFrom;
  }

  /** What an installed payload shows is what its version holds. */
  lemma InstalledSourced(payload: Payload, version: Version, flying: set<Slot>)
    requires Shows(payload, version)
    ensures forall id :: id in Normalize(payload).drafts ==> DraftSourced(Normalize(payload).drafts[id], id, flying, version)
    ensures SelectionSourced(Normalize(payload).configured, Offered(payload), version)
  {
    assert version.config == Config(payload);
    ConfiguredIs(payload);
    forall id, aspect, v | id in Normalize(payload).drafts && ConfigHolds(Config(payload), id, aspect, v)
      ensures DraftHolds(Normalize(payload).drafts[id], aspect, v)
    {
      InstalledHolds(payload, id, aspect, v);
    }
    hide ConfigHolds;
    hide DraftHolds;
    hide BodyIDs;
    hide Normalize;
    hide Config;
  }

  lemma MergedSourced(d: Draft, next: Draft, id: int, flying: set<Slot>, version: Version)
    requires DraftSourced(d, id, flying, version)
    ensures DraftSourced(MergeDraft(d, next), id, flying, version)
  {
    hide ConfigHolds;
    forall aspect, v | DraftSlot(id, aspect) !in flying && ConfigHolds(version.config, id, aspect, v)
      ensures DraftHolds(MergeDraft(d, next), aspect, v)
    {
      MergeDraftHolds(d, next, aspect, v);
    }
  }

  lemma InstallSourced(p: Endpoint, sequence: nat, payload: Payload, history: seq<Version>, k: int)
    requires TabSourced(p, history) && Possible(p.world, FetchLands(sequence, payload)) && Installs(p.world, sequence)
    requires 0 <= k < |history| && Shows(payload, history[k]) && history[k].revision >= p.world.tab.revision
    ensures TabSourced(Stepped(p, FetchLands(sequence, payload)), history)
  {
    var q := Stepped(p, FetchLands(sequence, payload));
    SteppedWorld(p, FetchLands(sequence, payload));
    InstalledSourced(payload, history[k], q.trace.flying);
    hide PriorKnown;
    hide DraftSourced;
    hide SelectionSourced;
    hide Normalize;
    if p.world.save.Some? {
      var least := p.world.save.value.request.revision;
      forall id | id in q.world.tab.drafts
        ensures exists m :: DraftFrom(q.world.tab.drafts[id], id, q.trace.flying, history, least, m)
      {
        assert DraftFrom(q.world.tab.drafts[id], id, q.trace.flying, history, least, k);
      }
      assert SelectionFrom(q.world.tab.selected, q.trace.offered, history, least, k);
    }
  }

  lemma OverlaySourced(p: Endpoint, sequence: nat, payload: Payload, history: seq<Version>, k: int)
    requires TabSourced(p, history) && Possible(p.world, FetchLands(sequence, payload))
    requires sequence == p.world.tab.sequence && !Installs(p.world, sequence)
    requires 0 <= k < |history| && Shows(payload, history[k]) && history[k].revision >= p.world.tab.revision
    ensures TabSourced(Stepped(p, FetchLands(sequence, payload)), history)
  {
    var q := Stepped(p, FetchLands(sequence, payload));
    SteppedWorld(p, FetchLands(sequence, payload));
    InstalledSourced(payload, history[k], q.trace.flying);
    hide PriorKnown;
    hide DraftSourced;
    hide SelectionSourced;
    hide Normalize;
    hide MergeDraft;
    if p.world.save.Some? && p.trace.overtaken {
      var least := p.world.save.value.request.revision;
      forall id | id in q.world.tab.drafts
        ensures exists m :: DraftFrom(q.world.tab.drafts[id], id, q.trace.flying, history, least, m)
      {
        if id !in p.world.tab.drafts {
          assert DraftFrom(q.world.tab.drafts[id], id, q.trace.flying, history, least, k);
        } else {
          var m :| DraftFrom(p.world.tab.drafts[id], id, p.trace.flying, history, least, m);
          if id in Normalize(payload).drafts {
            MergedSourced(p.world.tab.drafts[id], Normalize(payload).drafts[id], id, p.trace.flying, history[m]);
          }
          assert DraftFrom(q.world.tab.drafts[id], id, q.trace.flying, history, least, m);
        }
      }
    }
  }

  lemma LandingSourced(p: Endpoint, sequence: nat, payload: Payload, history: seq<Version>)
    requires TabSourced(p, history) && Possible(p.world, FetchLands(sequence, payload))
    requires EntryMonitorFleet.Known(payload, history)
    requires sequence == p.world.tab.sequence ==> Normalize(payload).revision >= p.world.tab.revision
    ensures TabSourced(Stepped(p, FetchLands(sequence, payload)), history)
  {
    hide Normalize;
    if sequence != p.world.tab.sequence {
      SteppedWorld(p, FetchLands(sequence, payload));
      hide PriorKnown;
      hide DraftFrom;
      hide SelectionFrom;
    } else {
      var k :| 0 <= k < |history| && Shows(payload, history[k]);
      hide TabSourced;
      hide Stepped;
      if Installs(p.world, sequence) {
        InstallSourced(p, sequence, payload, history, k);
      } else {
        OverlaySourced(p, sequence, payload, history, k);
      }
    }
  }

  lemma ReceiptSourced(p: Endpoint, payload: Payload, history: seq<Version>)
    requires TabSourced(p, history) && Possible(p.world, SaveLands(payload)) && NothingLost(history)
    requires SaveCaptured(p.world) && ReceiptOf(p.world.save.value, payload, history)
    ensures TabSourced(Stepped(p, SaveLands(payload)), history)
  {
    hide Shows;
    hide Normalize;
    hide Merged;
    hide CleanImage;
    hide DraftFrom;
    hide SelectionFrom;
    SteppedWorld(p, SaveLands(payload));
    var k :| ReceiptAt(p.world.save.value, payload, history, k);
    assert BuiltOnPrevious(history, k);
    if p.trace.overtaken {
      assert PriorAt(payload, p.world.save.value.base.value, history, k);
    }
  }

  lemma LocalSourced(p: Endpoint, e: Event, history: seq<Version>)
    requires TabSourced(p, history) && Inv(p.world) && Possible(p.world, e) && !e.FetchLands? && !e.SaveLands?
    ensures TabSourced(Stepped(p, e), history)
  {
    hide Inv;
    hide TabSourced;
    hide Stepped;
    match e {
      case UserEdits(edit) => EditSourced(p, edit, history);
      case PressSave => PressSourced(p, e, history);
      case PressRun => PressSourced(p, e, history);
      case Poll => QuietSourced(p, e, history);
      case FetchFails(_) => QuietSourced(p, e, history);
      case SaveFails => QuietSourced(p, e, history);
      case RunSettles => QuietSourced(p, e, history);
      case _ =>
    }
  }

  // ----- the invariant of the fleet -----

  ghost predicate VersionPrior(v: Version, history: seq<Version>) {
    PriorKnown(v.basedOn, v.trace.prior, history)
  }

  ghost predicate LetterPrior(l: Letter, history: seq<Version>) {
    PriorKnown(l.pending.base, l.trace.prior, history)
  }

  ghost predicate SourceInv(f: Fleet) {
    && RevisionInv(f) && f.history != []
    && (forall i :: 0 <= i < |f.tabs| ==> TabSourced(f.tabs[i], f.history))
    && (forall i :: 0 <= i < |f.letters| ==> LetterPrior(f.letters[i], f.history))
    && (forall k :: 0 < k < |f.history| ==> VersionPrior(f.history[k], f.history))
  }

  lemma SourceStart(f: Fleet)
    requires FleetStart(f)
    ensures SourceInv(f)
  {
    RevisionStart(f);
    hide RevisionInv;
  }

  lemma TabFacts(f: Fleet, tab: nat)
    requires SourceInv(f) && tab < |f.tabs|
    ensures EndpointOK(f.tabs[tab], f.history) && Inv(f.tabs[tab].world) && Increasing(f.history)
    ensures TabOK(f.tabs[tab], f.history) && TabSourced(f.tabs[tab], f.history) && NothingLost(f.history)
  {
    hide TabSourced;
    hide NothingLost;
    hide TabOK;
    hide Inv;
    hide Increasing;
    assert EndpointOK(f.tabs[tab], f.history);
  }

  lemma AnswerFacts(p: Endpoint, history: seq<Version>, sequence: nat)
    requires EndpointOK(p, history) && TabOK(p, history) && sequence in p.world.fetches && sequence in p.answers
    ensures EntryMonitorFleet.Known(p.answers[sequence], history)
    ensures sequence == p.world.tab.sequence ==> Normalize(p.answers[sequence]).revision >= p.world.tab.revision
  {
    hide Inv;
    hide Normalize;
    hide Shows;
  }

  lemma ReceiptFacts(p: Endpoint, history: seq<Version>)
    requires EndpointOK(p, history) && TabOK(p, history) && p.world.save.Some? && p.world.save.value.id in p.receipts
    ensures SaveCaptured(p.world) && ReceiptOf(p.world.save.value, p.receipts[p.world.save.value.id], history)
  {
    hide ReceiptOf;
    hide Normalize;
  }

  /** One tab steps, with the letters it posts. */
  lemma ReplaceSourced(f: Fleet, tab: nat, q: Endpoint, more: seq<Letter>)
    requires SourceInv(f) && tab < |f.tabs| && TabSourced(q, f.history)
    requires forall l :: l in more ==> LetterPrior(l, f.history)
    requires RevisionInv(f.(tabs := f.tabs[tab := q], letters := f.letters + more))
    ensures SourceInv(f.(tabs := f.tabs[tab := q], letters := f.letters + more))
  {
    hide RevisionInv;
    hide TabSourced;
    hide LetterPrior;
    hide VersionPrior;
  }

  lemma PostedPrior(p: Endpoint, e: Event, tab: nat, history: seq<Version>)
    requires TabSourced(p, history) && Inv(p.world) && Possible(p.world, e)
    ensures forall l :: l in Posted(p.world, Next(p.world, e), tab, p.trace) ==> LetterPrior(l, history)
  {
    StepBase(p.world, e);
    hide Next;
    hide Inv;
    hide PriorKnown;
    hide FlightSourced;
  }

  lemma LocalSourceInv(f: Fleet, tab: nat, event: Event)
    requires SourceInv(f) && FleetPossible(f, Local(tab, event))
    requires RevisionInv(FleetNext(f, Local(tab, event)))
    ensures SourceInv(FleetNext(f, Local(tab, event)))
  {
    var p := f.tabs[tab];
    TabFacts(f, tab);
    LocalSourced(p, event, f.history);
    PostedPrior(p, event, tab, f.history);
    SteppedWorld(p, event);
    hide SourceInv;
    hide RevisionInv;
    hide TabSourced;
    hide LetterPrior;
    hide Stepped;
    hide Posted;
    hide Next;
    hide Inv;
    hide EndpointOK;
    hide TabOK;
    hide Increasing;
    ReplaceSourced(f, tab, Stepped(p, event), Posted(p.world, Stepped(p, event).world, tab, p.trace));
  }

  lemma AnswerSourceInv(f: Fleet, tab: nat, sequence: nat, payload: Payload)
    requires SourceInv(f) && FleetPossible(f, Answer(tab, sequence, payload))
    requires RevisionInv(FleetNext(f, Answer(tab, sequence, payload)))
    ensures SourceInv(FleetNext(f, Answer(tab, sequence, payload)))
  {
    hide RevisionInv;
    hide TabSourced;
    hide LetterPrior;
    hide VersionPrior;
    hide Shows;
    var p := f.tabs[tab];
    var q := p.(answers := p.answers[sequence := payload]);
    SourcedStays(p, q, f.history);
    assert f.letters + [] == f.letters;
    hide SourceInv;
    ReplaceSourced(f, tab, q, []);
  }

  lemma DeliverAnswerSourceInv(f: Fleet, tab: nat, sequence: nat)
    requires SourceInv(f) && f.history != [] && FleetPossible(f, DeliverAnswer(tab, sequence))
    requires RevisionInv(FleetNext(f, DeliverAnswer(tab, sequence)))
    ensures SourceInv(FleetNext(f, DeliverAnswer(tab, sequence)))
  {
    hide SourceInv;
    hide RevisionInv;
    hide TabSourced;
    hide LetterPrior;
    hide EndpointOK;
    hide TabOK;
    hide Shows;
    hide Normalize;
    hide Inv;
    hide Increasing;
    hide NothingLost;
    hide Stepped;
    hide EntryMonitorFleet.Known;
    hide Matches;
    var p := f.tabs[tab];
    TabFacts(f, tab);
    AnswerFacts(p, f.history, sequence);
    LandingSourced(p, sequence, p.answers[sequence], f.history);
    assert f.letters + [] == f.letters;
    ReplaceSourced(f, tab, Stepped(p, FetchLands(sequence, p.answers[sequence])), []);
  }

  lemma DeliverReceiptSourceInv(f: Fleet, tab: nat)
    requires SourceInv(f) && f.history != [] && FleetPossible(f, DeliverReceipt(tab))
    requires RevisionInv(FleetNext(f, DeliverReceipt(tab)))
    ensures SourceInv(FleetNext(f, DeliverReceipt(tab)))
  {
    hide SourceInv;
    hide RevisionInv;
    hide TabSourced;
    hide LetterPrior;
    hide EndpointOK;
    hide TabOK;
    hide Shows;
    hide Inv;
    hide Increasing;
    hide NothingLost;
    hide Stepped;
    hide Matches;
    hide SaveCaptured;
    hide ReceiptOf;
    var p := f.tabs[tab];
    TabFacts(f, tab);
    ReceiptFacts(p, f.history);
    ReceiptSourced(p, p.receipts[p.world.save.value.id], f.history);
    assert f.letters + [] == f.letters;
    ReplaceSourced(f, tab, Stepped(p, SaveLands(p.receipts[p.world.save.value.id])), []);
  }

  lemma AcceptedSourceInv(f: Fleet, letter: nat, revision: int, payload: Payload)
    requires SourceInv(f) && letter < |f.letters| && f.letters[letter].tab < |f.tabs|
    requires RevisionInv(Accepted(f, letter, revision, payload))
    ensures SourceInv(Accepted(f, letter, revision, payload))
  {
    hide RevisionInv;
    hide TabSourced;
    hide PriorKnown;
    var l := f.letters[letter];
    var version := VersionOf(l, revision);
    var g := Accepted(f, letter, revision, payload);
    forall i | 0 <= i < |g.tabs| ensures TabSourced(g.tabs[i], g.history) {
      SourcedGrows(f.tabs[i], g.tabs[i], f.history, version);
    }
    forall x | x in f.letters ensures LetterPrior(x, g.history) {
      assert LetterPrior(x, f.history);
      PriorGrows(x.pending.base, x.trace.prior, f.history, version);
    }
    forall k | 0 < k < |g.history| ensures VersionPrior(g.history[k], g.history) {
      if k < |f.history| {
        assert VersionPrior(f.history[k], f.history);
        PriorGrows(f.history[k].basedOn, f.history[k].trace.prior, f.history, version);
      } else {
        assert LetterPrior(l, g.history);
      }
    }
  }

  lemma ProcessSourceInv(f: Fleet, letter: nat, revision: int, payload: Payload)
    requires SourceInv(f) && FleetPossible(f, Process(letter, revision, payload))
    requires RevisionInv(FleetNext(f, Process(letter, revision, payload)))
    ensures SourceInv(FleetNext(f, Process(letter, revision, payload)))
  {
    hide RevisionInv;
    hide Shows;
    if Matches(f, letter) {
      AcceptedSourceInv(f, letter, revision, payload);
    } else {
      hide TabSourced;
      hide LetterPrior;
      hide VersionPrior;
    }
  }

  lemma SourceNext(f: Fleet, e: FleetEvent)
    requires SourceInv(f) && FleetPossible(f, e)
    ensures SourceInv(FleetNext(f, e))
  {
    hide RevisionInv;
    hide TabSourced;
    hide LetterPrior;
    hide VersionPrior;
    hide FleetNext;
    hide Shows;
    hide Matches;
    RevisionNext(f, e);
    hide SourceInv;
    match e {
      case Local(tab, event) => LocalSourceInv(f, tab, event);
      case Answer(tab, sequence, payload) => AnswerSourceInv(f, tab, sequence, payload);
      case DeliverAnswer(tab, sequence) => DeliverAnswerSourceInv(f, tab, sequence);
      case Process(letter, revision, payload) => ProcessSourceInv(f, letter, revision, payload);
      case DeliverReceipt(tab) => DeliverReceiptSourceInv(f, tab);
    }
  }
}
