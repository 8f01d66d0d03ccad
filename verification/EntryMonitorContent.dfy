/**
 What an accepted save does to the configuration it replaces: slots the user has
 not edited since the base was installed keep their stored values.
 */
module EntryMonitorContent {

  import opened Options
  import opened Sequences
  import opened EntryMonitorModel
  import opened EntryMonitorTab
  import opened EntryMonitorRuns
  import opened EntryMonitorFleet
  import opened EntryMonitorRevisions
  import opened EntryMonitorConfig
  import opened EntryMonitorFlights

  // ----- what is kept -----

  /** The base shows the value, and so does what an overtaken save was based on. */
  ghost predicate Stands(base: Payload, prior: Option<Payload>, id: int, aspect: Aspect, v: SlotValue) {
    ConfigHolds(Config(base), id, aspect, v) && (prior.Some? ==> ConfigHolds(Config(prior.value), id, aspect, v))
  }

  /** The base lists the rule, and so does what an overtaken save was based on. */
  ghost predicate Listed(base: Payload, prior: Option<Payload>, id: int) {
    id in BodyIDs(Config(base)) && (prior.Some? ==> id in BodyIDs(Config(prior.value)))
  }

  /** The selection is what the base shows, up to rules that could not be selected when it was installed. */
  ghost predicate SelectionKept(ids: seq<int>, base: Payload, trace: Trace) {
    && (forall id :: id in ids ==>
          id in BodyIDs(Config(base)) || (trace.prior.Some? && id in BodyIDs(Config(trace.prior.value))))
    && (forall id :: id in trace.offered && Listed(base, trace.prior, id) ==> id in ids)
  }

  /** The drafts and the selection hold what stands, except for the touched slots. */
  ghost predicate BaseKept(drafts: Drafts, selected: seq<int>, base: Payload, trace: Trace) {
    && (forall id, aspect, v :: id in drafts && DraftSlot(id, aspect) !in trace.touched && Stands(base, trace.prior, id, aspect, v)
          ==> DraftHolds(drafts[id], aspect, v))
    && (Selection !in trace.touched ==> SelectionKept(selected, base, trace))
  }

  /** A body holds what stands, except for the touched slots. */
  ghost predicate BodyKept(items: seq<SaveItem>, base: Payload, trace: Trace) {
    && (forall id, aspect, v ::
          id in BodyIDs(items) && DraftSlot(id, aspect) !in trace.touched && Stands(base, trace.prior, id, aspect, v)
          ==> ConfigHolds(items, id, aspect, v))
    && (Selection !in trace.touched ==> SelectionKept(BodyIDs(items), base, trace))
  }

  /** The tab still holds what its save in flight sent, except for the slots edited since. */
  ghost predicate FlightKept(w: World, trace: Trace) {
    w.save.Some? && !trace.overtaken ==>
      var request := w.save.value.request;
      && BodyIDs(request.items) == request.policyIDs
      && (forall id, aspect, v :: DraftSlot(id, aspect) !in trace.flying && ConfigHolds(request.items, id, aspect, v)
            ==> id in w.tab.drafts && DraftHolds(w.tab.drafts[id], aspect, v))
      && (Selection !in trace.flying ==> w.tab.selected == request.policyIDs)
  }

  /** Unless a newer version is stored, in which case the tab's next save is refused. */
  ghost predicate ContentOK(p: Endpoint, stored: int) {
    && FlightKept(p.world, p.trace)
    && (p.world.base.Some? ==>
          stored > p.world.tab.revision || BaseKept(p.world.tab.drafts, p.world.tab.selected, p.world.base.value, p.trace))
  }

  ghost predicate LetterContent(l: Letter, stored: int) {
    l.pending.base.Some? ==>
      stored > l.pending.request.revision || BodyKept(l.pending.request.items, l.pending.base.value, l.trace)
  }

  ghost predicate VersionKept(v: Version) {
    v.basedOn.Some? ==> BodyKept(v.config, v.basedOn.value, v.trace)
  }

  // ----- wholesale installation -----

  lemma InstalledKept(payload: Payload, trace: Trace)
    requires trace.prior.None? && trace.offered == Offered(payload)
    ensures BaseKept(Normalize(payload).drafts, Normalize(payload).configured, payload, trace)
  {
    var c := Normalize(payload);
    forall id, aspect, v | id in c.drafts && ConfigHolds(Config(payload), id, aspect, v)
      ensures DraftHolds(c.drafts[id], aspect, v)
    {
      InstalledHolds(payload, id, aspect, v);
    }
    ConfiguredIs(payload);
    hide BodyIDs;
    hide Config;
    assert SelectionKept(c.configured, payload, trace);
    hide Normalize;
    hide SelectionKept;
    hide ConfigHolds;
    hide DraftHolds;
  }

  // ----- steps of one tab -----

  /** A step that leaves drafts, selection and base alone. */
  lemma QuietStep(p: Endpoint, q: Endpoint, stored: int)
    requires ContentOK(p, stored)
    requires q.world.tab.drafts == p.world.tab.drafts && q.world.tab.selected == p.world.tab.selected
    requires q.world.tab.revision == p.world.tab.revision && q.world.base == p.world.base
    requires q.trace == p.trace && (q.world.save == p.world.save || q.world.save.None?)
    ensures ContentOK(q, stored)
  {
    hide BaseKept;
    hide ConfigHolds;
    hide DraftHolds;
  }

  lemma EditKeepsBase(t: Tab, edit: Edit, base: Payload, trace: Trace, next: Trace)
    requires BaseKept(t.drafts, t.selected, base, trace)
    requires next.touched == trace.touched + {SlotOf(edit)} && next.prior == trace.prior && next.offered == trace.offered
    ensures BaseKept(Edited(t, edit).drafts, Edited(t, edit).selected, base, next)
  {
    hide Stands;
    hide DraftHolds;
    hide Changed;
    hide SelectableIDs;
    hide ItemIDs;
    var u := Edited(t, edit);
    forall id, aspect, v | id in u.drafts && DraftSlot(id, aspect) !in next.touched && Stands(base, trace.prior, id, aspect, v)
      ensures DraftHolds(u.drafts[id], aspect, v)
    {
      assert Holds(t, DraftSlot(id, aspect), v);
      OtherEditHolds(t, edit, DraftSlot(id, aspect), v);
    }
  }

  lemma EditKeepsFlight(w: World, edit: Edit, trace: Trace, next: Trace)
    requires FlightKept(w, trace) && w.tab.loaded
    requires next.overtaken == trace.overtaken && next.flying == trace.flying + {SlotOf(edit)}
    ensures FlightKept(Next(w, UserEdits(edit)), next)
  {
    hide ConfigHolds;
    hide DraftHolds;
    hide Changed;
    hide SelectableIDs;
    var u := Edited(w.tab, edit);
    if w.save.Some? && !trace.overtaken {
      var request := w.save.value.request;
      forall id, aspect, v | DraftSlot(id, aspect) !in next.flying && ConfigHolds(request.items, id, aspect, v)
        ensures id in u.drafts && DraftHolds(u.drafts[id], aspect, v)
      {
        assert DraftSlot(id, aspect) !in trace.flying;
        assert Holds(w.tab, DraftSlot(id, aspect), v);
        OtherEditHolds(w.tab, edit, DraftSlot(id, aspect), v);
      }
    }
  }

  lemma EditContent(p: Endpoint, edit: Edit, stored: int)
    requires ContentOK(p, stored) && Possible(p.world, UserEdits(edit))
    ensures ContentOK(Stepped(p, UserEdits(edit)), stored)
  {
    var q := Stepped(p, UserEdits(edit));
    SteppedWorld(p, UserEdits(edit));
    EditedFrame(p.world.tab, edit);
    if edit.ChangeDraft? && edit.id !in p.world.tab.drafts {
      QuietStep(p, q, stored);
    } else {
      EditKeepsFlight(p.world, edit, p.trace, q.trace);
      if p.world.base.Some? && BaseKept(p.world.tab.drafts, p.world.tab.selected, p.world.base.value, p.trace) {
        EditKeepsBase(p.world.tab, edit, p.world.base.value, p.trace, q.trace);
      }
      hide BaseKept;
      hide FlightKept;
      hide Edited;
    }
  }

  lemma PressContent(p: Endpoint, e: Event, stored: int)
    requires ContentOK(p, stored) && Inv(p.world) && Possible(p.world, e) && (e.PressSave? || e.PressRun?)
    ensures ContentOK(Stepped(p, e), stored)
  {
    var q := Stepped(p, e);
    SteppedWorld(p, e);
    PressFrame(p.world, e);
    PressSends(p.world, e);
    if Next(p.world, e) == p.world {
      hide Next;
      hide Stepped;
      QuietStep(p, q, stored);
    } else {
      SentKept(p.world, e, q.trace);
      if p.world.base.Some? && BaseKept(p.world.tab.drafts, p.world.tab.selected, p.world.base.value, p.trace) {
        FlightStartsBase(p.world.tab.drafts, p.world.tab.selected, p.world.base.value, p.trace, q.trace);
      }
      hide BaseKept;
      hide FlightKept;
      hide SaveWanted;
      hide Inv;
      hide Next;
    }
  }

  /** What is kept does not depend on the flight. */
  lemma FlightStartsBase(drafts: Drafts, selected: seq<int>, base: Payload, trace: Trace, next: Trace)
    requires BaseKept(drafts, selected, base, trace) && next == trace.(flying := next.flying, overtaken := next.overtaken)
    ensures BaseKept(drafts, selected, base, next)
  {
    hide Stands;
    hide DraftHolds;
    hide ItemIDs;
  }

  /** What has just been sent is what the tab holds. */
  lemma SentKept(w: World, e: Event, trace: Trace)
    requires Inv(w) && SaveWanted(w.tab).Some? && Possible(w, e)
    requires Next(w, e) == WithSave(w, SaveWanted(w.tab).value, e.PressRun?)
    ensures FlightKept(Next(w, e), trace)
  {
    hide Next;
    hide Inv;
    SendableDrafts(w.tab);
    var ids, drafts := w.tab.selected, w.tab.drafts;
    BodyNames(ids, drafts);
    forall id, aspect, v | ConfigHolds(ItemBodies(ids, drafts), id, aspect, v)
      ensures id in drafts && DraftHolds(drafts[id], aspect, v)
    {
      BodyIsDrafts(ids, drafts, id, aspect, v);
    }
    hide ConfigHolds;
    hide DraftHolds;
    hide AllSendable;
  }

  /** Live data added under unsaved edits. */
  lemma OverlayKeeps(t: Tab, payload: Payload, base: Payload, trace: Trace)
    requires BaseKept(t.drafts, t.selected, base, trace) && Config(payload) == Config(base)
    ensures BaseKept(Merged(t.drafts, Normalize(payload).drafts), t.selected, base, trace)
  {
    var c := Normalize(payload);
    var merged := Merged(t.drafts, c.drafts);
    forall id, aspect, v | id in merged && DraftSlot(id, aspect) !in trace.touched && Stands(base, trace.prior, id, aspect, v)
      ensures DraftHolds(merged[id], aspect, v)
    {
      if id !in t.drafts {
        InstalledHolds(payload, id, aspect, v);
      } else if id in c.drafts {
        MergeDraftHolds(t.drafts[id], c.drafts[id], aspect, v);
      }
    }
    hide Normalize;
    hide SelectionKept;
    hide Stands;
    hide DraftHolds;
    hide MergeDraft;
  }

  lemma OverlayKeepsFlight(w: World, n: World, payload: Payload, trace: Trace)
    requires FlightKept(w, trace) && n.save == w.save && n.tab.selected == w.tab.selected
    requires n.tab.drafts == Merged(w.tab.drafts, Normalize(payload).drafts)
    ensures FlightKept(n, trace)
  {
    hide Normalize;
    hide ConfigHolds;
    hide DraftHolds;
    hide MergeDraft;
    if w.save.Some? && !trace.overtaken {
      var request := w.save.value.request;
      forall id, aspect, v | DraftSlot(id, aspect) !in trace.flying && ConfigHolds(request.items, id, aspect, v)
        ensures id in n.tab.drafts && DraftHolds(n.tab.drafts[id], aspect, v)
      {
        if id in Normalize(payload).drafts {
          MergeDraftHolds(w.tab.drafts[id], Normalize(payload).drafts[id], aspect, v);
        }
      }
    }
  }

  /** An answer shows the base's version, or one that outdates the tab. */
  lemma AnswerShows(p: Endpoint, history: seq<Version>, payload: Payload)
    requires EndpointOK(p, history) && Increasing(history) && p.world.base.Some?
    requires EntryMonitorFleet.Known(payload, history) && Normalize(payload).revision >= p.world.tab.revision
    ensures history[|history| - 1].revision > p.world.tab.revision || Config(payload) == Config(p.world.base.value)
  {
    hide RawItemBody;
    assert BaseTracked(p.world);
    var j :| 0 <= j < |history| && Shows(payload, history[j]);
    var k :| 0 <= k < |history| && Shows(p.world.base.value, history[k]);
    hide Normalize;
    assert history[j].revision >= history[k].revision;
    if j > k {
      assert history[|history| - 1].revision >= history[j].revision > history[k].revision;
    }
  }

  lemma LandingContent(p: Endpoint, sequence: nat, payload: Payload, history: seq<Version>)
    requires history != [] && EndpointOK(p, history) && Increasing(history)
    requires ContentOK(p, history[|history| - 1].revision) && Possible(p.world, FetchLands(sequence, payload))
    requires EntryMonitorFleet.Known(payload, history)
    requires sequence == p.world.tab.sequence ==> Normalize(payload).revision >= p.world.tab.revision
    ensures ContentOK(Stepped(p, FetchLands(sequence, payload)), history[|history| - 1].revision)
  {
    var e := FetchLands(sequence, payload);
    var q := Stepped(p, e);
    var stored := history[|history| - 1].revision;
    SteppedWorld(p, e);
    InvOf(p, history);
    hide Normalize;
    if sequence != p.world.tab.sequence {
      QuietStep(p, q, stored);
    } else if Installs(p.world, sequence) {
      InstalledKept(payload, q.trace);
      hide BaseKept;
    } else {
      assert p.world.base.Some? by {
        DirtyHasBase(p.world, sequence);
      }
      AnswerShows(p, history, payload);
      hide EndpointOK;
      hide Inv;
      OverlayKeepsFlight(p.world, q.world, payload, p.trace);
      if Config(payload) == Config(p.world.base.value)
         && BaseKept(p.world.tab.drafts, p.world.tab.selected, p.world.base.value, p.trace) {
        OverlayKeeps(p.world.tab, payload, p.world.base.value, p.trace);
      }
      hide BaseKept;
      hide FlightKept;
      hide Merged;
    }
  }

  lemma DirtyHasBase(w: World, sequence: nat)
    requires Inv(w) && sequence in w.fetches && sequence == w.tab.sequence && !Installs(w, sequence)
    ensures w.base.Some? && w.tab.dirty
  {
    hide Normalize;
    hide RunsNameSaved;
  }

  /** An overtaken save becomes the tab's base: what it and its own base hold alike is still held. */
  lemma SourcedBecomesBase(p: Endpoint, payload: Payload, history: seq<Version>, next: Trace)
    requires Increasing(history) && NothingLost(history) && FlightSourced(p, history) && p.world.save.Some?
    requires SaveCaptured(p.world) && p.trace.overtaken && ReceiptOf(p.world.save.value, payload, history)
    requires next.touched == p.trace.flying && next.prior == p.world.save.value.base && next.offered == p.trace.offered
    ensures history[|history| - 1].revision > Normalize(payload).revision
         || BaseKept(Merged(p.world.tab.drafts, Normalize(payload).drafts), p.world.tab.selected, payload, next)
  {
    if history[|history| - 1].revision <= Normalize(payload).revision {
      SourcedDrafts(p, payload, history, next);
      if Selection !in next.touched {
        SourcedSelection(p, payload, history, next);
      }
      hide *;
    }
  }

  lemma SourcedDrafts(p: Endpoint, payload: Payload, history: seq<Version>, next: Trace)
    requires Increasing(history) && NothingLost(history) && FlightSourced(p, history) && p.world.save.Some?
    requires SaveCaptured(p.world) && p.trace.overtaken && ReceiptOf(p.world.save.value, payload, history)
    requires history[|history| - 1].revision <= Normalize(payload).revision
    requires next.touched == p.trace.flying && next.prior == p.world.save.value.base
    ensures var merged := Merged(p.world.tab.drafts, Normalize(payload).drafts);
            forall id, aspect, v :: id in merged && DraftSlot(id, aspect) !in next.touched && Stands(payload, next.prior, id, aspect, v)
              ==> DraftHolds(merged[id], aspect, v)
  {
    var drafts, least := p.world.tab.drafts, p.world.save.value.request.revision;
    var merged := Merged(drafts, Normalize(payload).drafts);
    hide Normalize;
    hide DraftHolds;
    hide ConfigHolds;
    hide MergeDraft;
    hide Increasing;
    hide NothingLost;
    hide ReceiptOf;
    hide Config;
    hide SaveCaptured;
    forall id, aspect, v | id in merged && DraftSlot(id, aspect) !in next.touched && Stands(payload, next.prior, id, aspect, v)
      ensures DraftHolds(merged[id], aspect, v)
    {
      if id !in drafts {
        InstalledHolds(payload, id, aspect, v);
      } else {
        var m :| DraftFrom(drafts[id], id, p.trace.flying, history, least, m);
        OnlyTwoSources(p, payload, history, m);
        if id in Normalize(payload).drafts {
          MergeDraftHolds(drafts[id], Normalize(payload).drafts[id], aspect, v);
        }
      }
    }
  }

  lemma SourcedSelection(p: Endpoint, payload: Payload, history: seq<Version>, next: Trace)
    requires Increasing(history) && NothingLost(history) && FlightSourced(p, history) && p.world.save.Some?
    requires SaveCaptured(p.world) && p.trace.overtaken && ReceiptOf(p.world.save.value, payload, history)
    requires history[|history| - 1].revision <= Normalize(payload).revision && Selection !in p.trace.flying
    requires next.prior == p.world.save.value.base && next.offered == p.trace.offered
    ensures SelectionKept(p.world.tab.selected, payload, next)
  {
    var m :| SelectionFrom(p.world.tab.selected, p.trace.offered, history, p.world.save.value.request.revision, m);
    OnlyTwoSources(p, payload, history, m);
    hide Normalize;
    hide Config;
    hide BodyIDs;
    hide Increasing;
    hide NothingLost;
    hide ReceiptOf;
  }

  /** The tab's own save becomes its base under newer edits. */
  lemma FlightBecomesBase(w: World, payload: Payload, trace: Trace, next: Trace)
    requires w.save.Some? && FlightKept(w, trace) && !trace.overtaken
    requires next.touched == trace.flying && next.prior.None?
    requires Config(payload) == w.save.value.request.items
    ensures BaseKept(Merged(w.tab.drafts, Normalize(payload).drafts), w.tab.selected, payload, next)
  {
    hide Normalize;
    hide ConfigHolds;
    hide DraftHolds;
    hide MergeDraft;
    hide SelectableIDs;
    var c := Normalize(payload);
    var merged := Merged(w.tab.drafts, c.drafts);
    forall id, aspect, v | id in merged && DraftSlot(id, aspect) !in trace.flying && ConfigHolds(Config(payload), id, aspect, v)
      ensures DraftHolds(merged[id], aspect, v)
    {
      assert id in w.tab.drafts;
      if id in c.drafts {
        MergeDraftHolds(w.tab.drafts[id], c.drafts[id], aspect, v);
      }
    }
    hide Merged;
    hide RawItemBody;
    if Selection !in trace.flying {
      assert w.tab.selected == BodyIDs(Config(payload));
      assert SelectionKept(w.tab.selected, payload, next);
    }
  }

  lemma ReceiptContent(p: Endpoint, payload: Payload, history: seq<Version>)
    requires history != [] && ContentOK(p, history[|history| - 1].revision) && Possible(p.world, SaveLands(payload))
    requires Increasing(history) && NothingLost(history) && TabSourced(p, history)
    requires SaveCaptured(p.world) && ReceiptOf(p.world.save.value, payload, history)
    ensures ContentOK(Stepped(p, SaveLands(payload)), history[|history| - 1].revision)
  {
    var e := SaveLands(payload);
    var q := Stepped(p, e);
    SteppedWorld(p, e);
    ReceiptConfig(p.world.save.value, payload, history);
    hide Normalize;
    if p.world.tab.editVersion == p.world.save.value.request.editVersion {
      InstalledKept(payload, q.trace);
    } else if !p.trace.overtaken {
      FlightBecomesBase(p.world, payload, p.trace, q.trace);
    } else {
      SourcedBecomesBase(p, payload, history, q.trace);
    }
    hide BaseKept;
    hide Merged;
    hide Config;
    hide TabSourced;
    hide Increasing;
    hide NothingLost;
    hide ReceiptOf;
    hide SaveCaptured;
  }

  lemma QuietContent(p: Endpoint, e: Event, stored: int)
    requires ContentOK(p, stored) && Possible(p.world, e)
    requires e.Poll? || e.FetchFails? || e.SaveFails? || e.RunSettles?
    ensures ContentOK(Stepped(p, e), stored)
  {
    hide ContentOK;
    SteppedWorld(p, e);
    QuietStep(p, Stepped(p, e), stored);
  }

  lemma LocalContent(p: Endpoint, e: Event, stored: int)
    requires ContentOK(p, stored) && Inv(p.world) && Possible(p.world, e) && !e.FetchLands? && !e.SaveLands?
    ensures ContentOK(Stepped(p, e), stored)
  {
    hide Inv;
    hide ContentOK;
    hide SaveBegun;
    hide Edited;
    match e {
      case UserEdits(edit) => EditContent(p, edit, stored);
      case PressSave => PressContent(p, e, stored);
      case PressRun => PressContent(p, e, stored);
      case Poll => QuietContent(p, e, stored);
      case FetchFails(_) => QuietContent(p, e, stored);
      case SaveFails => QuietContent(p, e, stored);
      case RunSettles => QuietContent(p, e, stored);
      case _ =>
    }
  }

  /** A letter takes over what its tab kept. */
  lemma PostedContent(p: Endpoint, e: Event, tab: nat, stored: int)
    requires ContentOK(p, stored) && Inv(p.world) && Possible(p.world, e)
    ensures forall l :: l in Posted(p.world, Next(p.world, e), tab, p.trace) ==> LetterContent(l, stored)
  {
    if p.world.save.None? && Next(p.world, e).save.Some? {
      OnlyPressSends(p.world, e);
      PressSends(p.world, e);
      hide Next;
      hide Inv;
      LetterTakesOver(p, Letter(tab, Next(p.world, e).save.value, p.trace), stored);
      hide ContentOK;
      hide LetterContent;
    }
  }

  lemma LetterTakesOver(p: Endpoint, l: Letter, stored: int)
    requires ContentOK(p, stored) && AllSendable(p.world.tab)
    requires l.pending.request == SaveBody(p.world.tab) && l.pending.base == p.world.base && l.trace == p.trace
    ensures LetterContent(l, stored)
  {
    var t := p.world.tab;
    SendableDrafts(t);
    hide AllSendable;
    hide FlightKept;
    if p.world.base.Some? && BaseKept(t.drafts, t.selected, p.world.base.value, p.trace) {
      DraftsKeep(t.selected, t.drafts, p.world.base.value, p.trace);
    }
    hide BaseKept;
    hide BodyKept;
  }

  lemma OnlyPressSends(w: World, e: Event)
    requires Possible(w, e) && w.save.None? && Next(w, e).save.Some?
    ensures e.PressSave? || e.PressRun?
  {
    hide Normalize;
  }

  lemma DraftsKeep(ids: seq<int>, drafts: Drafts, base: Payload, trace: Trace)
    requires forall i :: 0 <= i < |ids| ==> ids[i] in drafts
    requires BaseKept(drafts, ids, base, trace)
    ensures BodyKept(ItemBodies(ids, drafts), base, trace)
  {
    hide Stands;
    hide ConfigHolds;
    hide DraftHolds;
    hide SelectionKept;
    BodyNames(ids, drafts);
    var items := ItemBodies(ids, drafts);
    forall id, aspect, v | id in BodyIDs(items) && DraftSlot(id, aspect) !in trace.touched && Stands(base, trace.prior, id, aspect, v)
      ensures ConfigHolds(items, id, aspect, v)
    {
      BodyIsDrafts(ids, drafts, id, aspect, v);
    }
  }

  // ----- the invariant of the fleet -----

  ghost predicate ContentInv(f: Fleet) {
    && SourceInv(f) && f.history != []
    && (forall i :: 0 <= i < |f.tabs| ==> ContentOK(f.tabs[i], Stored(f).revision))
    && (forall i :: 0 <= i < |f.letters| ==> LetterContent(f.letters[i], Stored(f).revision))
    && (forall k :: 0 < k < |f.history| ==> VersionKept(f.history[k]))
  }

  lemma ContentStart(f: Fleet)
    requires FleetStart(f)
    ensures ContentInv(f)
  {
    SourceStart(f);
    hide SourceInv;
  }

  /** One tab steps, with the letters it posts. */
  lemma ReplaceContent(f: Fleet, tab: nat, q: Endpoint, more: seq<Letter>)
    requires ContentInv(f) && tab < |f.tabs| && ContentOK(q, Stored(f).revision)
    requires forall l :: l in more ==> LetterContent(l, Stored(f).revision)
    requires SourceInv(f.(tabs := f.tabs[tab := q], letters := f.letters + more))
    ensures ContentInv(f.(tabs := f.tabs[tab := q], letters := f.letters + more))
  {
    hide SourceInv;
    hide ContentOK;
    hide LetterContent;
    hide VersionKept;
  }

  lemma ContentFacts(f: Fleet, tab: nat)
    requires ContentInv(f) && tab < |f.tabs|
    ensures SourceInv(f) && ContentOK(f.tabs[tab], Stored(f).revision)
  {
    hide SourceInv;
    hide ContentOK;
  }

  lemma LocalContentInv(f: Fleet, tab: nat, event: Event)
    requires ContentInv(f) && FleetPossible(f, Local(tab, event))
    requires SourceInv(FleetNext(f, Local(tab, event)))
    ensures ContentInv(FleetNext(f, Local(tab, event)))
  {
    var p := f.tabs[tab];
    var stored := Stored(f).revision;
    ContentFacts(f, tab);
    TabFacts(f, tab);
    LocalContent(p, event, stored);
    PostedContent(p, event, tab, stored);
    SteppedWorld(p, event);
    hide ContentInv;
    hide SourceInv;
    hide ContentOK;
    hide LetterContent;
    hide Stepped;
    hide Posted;
    hide Next;
    hide Inv;
    hide EndpointOK;
    hide TabOK;
    hide Increasing;
    ReplaceContent(f, tab, Stepped(p, event), Posted(p.world, Stepped(p, event).world, tab, p.trace));
  }

  lemma AnswerContentInv(f: Fleet, tab: nat, sequence: nat, payload: Payload)
    requires ContentInv(f) && f.history != [] && FleetPossible(f, Answer(tab, sequence, payload))
    requires SourceInv(FleetNext(f, Answer(tab, sequence, payload)))
    ensures ContentInv(FleetNext(f, Answer(tab, sequence, payload)))
  {
    hide ContentInv;
    hide SourceInv;
    hide ContentOK;
    hide LetterContent;
    hide Shows;
    var p := f.tabs[tab];
    var q := p.(answers := p.answers[sequence := payload]);
    ContentFacts(f, tab);
    assert ContentOK(q, Stored(f).revision) by {
      StoredGrows(p, q, Stored(f).revision, Stored(f).revision);
    }
    assert f.letters + [] == f.letters;
    ReplaceContent(f, tab, q, []);
  }

  lemma DeliverAnswerContentInv(f: Fleet, tab: nat, sequence: nat)
    requires ContentInv(f) && f.history != [] && FleetPossible(f, DeliverAnswer(tab, sequence))
    requires SourceInv(FleetNext(f, DeliverAnswer(tab, sequence)))
    ensures ContentInv(FleetNext(f, DeliverAnswer(tab, sequence)))
  {
    hide ContentInv;
    hide SourceInv;
    hide ContentOK;
    hide LetterContent;
    hide EndpointOK;
    hide TabOK;
    hide Shows;
    hide Normalize;
    hide Inv;
    hide Increasing;
    hide Stepped;
    hide EntryMonitorFleet.Known;
    hide Matches;
    var p := f.tabs[tab];
    ContentFacts(f, tab);
    TabFacts(f, tab);
    AnswerFacts(p, f.history, sequence);
    LandingContent(p, sequence, p.answers[sequence], f.history);
    assert f.letters + [] == f.letters;
    ReplaceContent(f, tab, Stepped(p, FetchLands(sequence, p.answers[sequence])), []);
  }

  lemma DeliverReceiptContentInv(f: Fleet, tab: nat)
    requires ContentInv(f) && f.history != [] && FleetPossible(f, DeliverReceipt(tab))
    requires SourceInv(FleetNext(f, DeliverReceipt(tab)))
    ensures ContentInv(FleetNext(f, DeliverReceipt(tab)))
  {
    hide TabSourced;
    hide NothingLost;
    hide SaveCaptured;
    hide ReceiptOf;
    hide ContentInv;
    hide SourceInv;
    hide ContentOK;
    hide LetterContent;
    hide EndpointOK;
    hide TabOK;
    hide Increasing;
    hide Config;
    hide Inv;
    hide Stepped;
    hide Shows;
    hide Matches;
    var p := f.tabs[tab];
    ContentFacts(f, tab);
    TabFacts(f, tab);
    ReceiptFacts(p, f.history);
    var payload := p.receipts[p.world.save.value.id];
    ReceiptContent(p, payload, f.history);
    assert f.letters + [] == f.letters;
    ReplaceContent(f, tab, Stepped(p, SaveLands(payload)), []);
  }

  lemma ProcessContentInv(f: Fleet, letter: nat, revision: int, payload: Payload)
    requires ContentInv(f) && FleetPossible(f, Process(letter, revision, payload))
    requires SourceInv(FleetNext(f, Process(letter, revision, payload)))
    ensures ContentInv(FleetNext(f, Process(letter, revision, payload)))
  {
    hide SourceInv;
    hide Shows;
    hide ContentOK;
    hide LetterContent;
    hide VersionKept;
    hide Accepted;
    if Matches(f, letter) {
      AcceptedContent(f, letter, revision, payload);
    }
  }

  lemma StoredGrows(p: Endpoint, q: Endpoint, stored: int, more: int)
    requires ContentOK(p, stored) && more >= stored && q.world == p.world && q.trace == p.trace
    ensures ContentOK(q, more)
  {
    hide FlightKept;
    hide BaseKept;
  }

  lemma LetterOutlives(l: Letter, stored: int, more: int)
    requires LetterContent(l, stored) && more >= stored
    ensures LetterContent(l, more)
  {
    hide BodyKept;
  }

  lemma StoredVersionKept(l: Letter, stored: int, revision: int)
    requires LetterContent(l, stored) && stored == l.pending.request.revision
    ensures VersionKept(VersionOf(l, revision))
  {
    hide BodyKept;
  }

  lemma AcceptedContent(f: Fleet, letter: nat, revision: int, payload: Payload)
    requires ContentInv(f) && letter < |f.letters| && f.letters[letter].tab < |f.tabs| && Matches(f, letter)
    requires revision > Stored(f).revision && SourceInv(Accepted(f, letter, revision, payload))
    ensures ContentInv(Accepted(f, letter, revision, payload))
  {
    hide SourceInv;
    hide ContentOK;
    hide LetterContent;
    hide VersionKept;
    hide VersionOf;
    var stored := Stored(f).revision;
    var l := f.letters[letter];
    var version := VersionOf(l, revision);
    StoredVersionKept(l, stored, revision);
    RevisionOfVersion(l, revision);
    var g := Accepted(f, letter, revision, payload);
    assert Stored(g) == version;
    forall i | 0 <= i < |g.tabs| ensures ContentOK(g.tabs[i], revision) {
      StoredGrows(f.tabs[i], g.tabs[i], stored, revision);
    }
    forall x | x in g.letters ensures LetterContent(x, revision) {
      assert x in f.letters;
      LetterOutlives(x, stored, revision);
    }
    forall k | 0 < k < |g.history| ensures VersionKept(g.history[k]) {
      if k < |f.history| {
        assert g.history[k] == f.history[k];
      }
    }
  }

  lemma RevisionOfVersion(l: Letter, revision: int)
    ensures VersionOf(l, revision).revision == revision
  {
  }

  lemma ContentNext(f: Fleet, e: FleetEvent)
    requires ContentInv(f) && FleetPossible(f, e)
    ensures ContentInv(FleetNext(f, e))
  {
    hide SourceInv;
    hide ContentOK;
    hide LetterContent;
    hide VersionKept;
    hide FleetNext;
    hide Shows;
    hide Matches;
    SourceNext(f, e);
    hide ContentInv;
    match e {
      case Local(tab, event) => LocalContentInv(f, tab, event);
      case Answer(tab, sequence, payload) => AnswerContentInv(f, tab, sequence, payload);
      case DeliverAnswer(tab, sequence) => DeliverAnswerContentInv(f, tab, sequence);
      case Process(letter, revision, payload) => ProcessContentInv(f, letter, revision, payload);
      case DeliverReceipt(tab) => DeliverReceiptContentInv(f, tab);
    }
  }

  lemma {:induction false} ContentRun(f: Fleet, events: seq<FleetEvent>)
    requires ContentInv(f) && f.history != [] && FleetRun(f, events)
    ensures ContentInv(FleetAfter(f, events))
    decreases |events|
  {
    hide FleetNext;
    hide FleetPossible;
    hide ContentInv;
    if events != [] {
      ContentNext(f, events[0]);
      TabsStay(f, events[0]);
      ContentRun(FleetNext(f, events[0]), events[1..]);
    }
  }

  /** The version an accepted save replaces, and what is known of it if it is an overtaken save. */
  lemma PriorVersion(history: seq<Version>, k: nat)
    requires Increasing(history) && NothingLost(history) && 0 < k < |history|
    requires PriorKnown(history[k].basedOn, history[k].trace.prior, history) && history[k].trace.prior.Some?
    ensures k > 1 && Shows(history[k].trace.prior.value, history[k - 2])
    ensures CleanImage(history[k - 1].config, history[k].trace.prior.value)
  {
    assert BuiltOnPrevious(history, k);
    var j :| PriorAt(history[k].basedOn.value, history[k].trace.prior.value, history, j);
    hide Normalize;
    hide RawItemBody;
    hide CleanImage;
    assert j == k - 1;
  }

  /**
   The configuration held a value before the save that became version `k`. If
   that save stands on an overtaken one, the value must not be one the overtaken
   save first wrote down: a target of a rule that listed none before it.
   */
  ghost predicate HeldBefore(history: seq<Version>, k: nat, id: int, aspect: Aspect, v: SlotValue)
    requires 0 < k < |history| && (history[k].trace.prior.Some? ==> k > 1)
  {
    && ConfigHolds(history[k - 1].config, id, aspect, v)
    && (history[k].trace.prior.Some? ==> Fixed(history[k - 2].config, id, aspect))
  }

  /** What was held before stands. */
  lemma HeldStands(history: seq<Version>, k: nat, id: int, aspect: Aspect, v: SlotValue)
    requires 0 < k < |history| && history[k].basedOn.Some? && Shows(history[k].basedOn.value, history[k - 1])
    requires history[k].trace.prior.Some? ==>
               k > 1 && Shows(history[k].trace.prior.value, history[k - 2])
               && CleanImage(history[k - 1].config, history[k].trace.prior.value)
    requires HeldBefore(history, k, id, aspect, v)
    ensures Stands(history[k].basedOn.value, history[k].trace.prior, id, aspect, v)
  {
    hide Normalize;
    hide RawItemBody;
    hide ConfigHolds;
    hide Fixed;
    hide CleanImage;
    assert history[k - 1].config == Config(history[k].basedOn.value);
    if history[k].trace.prior.Some? {
      var prior := history[k].trace.prior.value;
      assert history[k - 2].config == Config(prior);
      CleanImageAgrees(history[k - 1].config, prior, id, aspect, v);
    }
  }

  /** And a rule listed before is listed in both. */
  lemma ListedStands(history: seq<Version>, k: nat, id: int)
    requires 0 < k < |history| && history[k].basedOn.Some? && Shows(history[k].basedOn.value, history[k - 1])
    requires history[k].trace.prior.Some? ==> CleanImage(history[k - 1].config, history[k].trace.prior.value)
    requires id in BodyIDs(history[k - 1].config)
    ensures Listed(history[k].basedOn.value, history[k].trace.prior, id)
  {
    hide Normalize;
    hide RawItemBody;
    hide BodyIDs;
    hide CleanImage;
    assert history[k - 1].config == Config(history[k].basedOn.value);
    if history[k].trace.prior.Some? {
      CleanImageLists(history[k - 1].config, history[k].trace.prior.value);
    }
  }

  /** What an accepted save leaves of the version before: the values not edited, and the rules of an unedited selection. */
  ghost predicate KeepsContent(history: seq<Version>, k: nat)
    requires 0 < k < |history| && (history[k].trace.prior.Some? ==> k > 1)
  {
    var before, after := history[k - 1], history[k];
    && (forall id, aspect, v ::
          id in BodyIDs(after.config) && DraftSlot(id, aspect) !in after.trace.touched && HeldBefore(history, k, id, aspect, v)
          ==> ConfigHolds(after.config, id, aspect, v))
    && (Selection !in after.trace.touched ==>
          && (forall id :: id in BodyIDs(before.config) && id in after.trace.offered ==> id in BodyIDs(after.config))
          && (forall id :: id in BodyIDs(after.config) ==>
                id in BodyIDs(before.config) || (after.trace.prior.Some? && id in BodyIDs(history[k - 2].config))))
  }

  lemma KeptMeans(history: seq<Version>, k: nat)
    requires 0 < k < |history| && VersionKept(history[k]) && BuiltOnPrevious(history, k)
    requires history[k].trace.prior.Some? ==>
               k > 1 && Shows(history[k].trace.prior.value, history[k - 2])
               && CleanImage(history[k - 1].config, history[k].trace.prior.value)
    ensures KeepsContent(history, k)
  {
    hide ConfigHolds;
    hide BodyIDs;
    hide Normalize;
    hide RawItemBody;
    hide CleanImage;
    hide Fixed;
    var before, after := history[k - 1], history[k];
    var base := after.basedOn.value;
    assert before.config == Config(base);
    if after.trace.prior.Some? {
      assert history[k - 2].config == Config(after.trace.prior.value);
    }
    hide Config;
    forall id, aspect, v | id in BodyIDs(after.config) && DraftSlot(id, aspect) !in after.trace.touched
        && HeldBefore(history, k, id, aspect, v)
      ensures ConfigHolds(after.config, id, aspect, v)
    {
      HeldStands(history, k, id, aspect, v);
    }
    forall id | id in BodyIDs(before.config) ensures Listed(base, after.trace.prior, id) {
      ListedStands(history, k, id);
    }
  }

  /**
   Whatever the accepted save of a tab did not edit, it leaves: in every run,
   each stored version has, in every slot not edited since its base was
   installed, the value of the version directly before it; and if the selection
   was not edited, it covers the rules of the version before, up to those that
   could not be selected when the configuration shown was installed. Where the
   base is an own save that an installed answer had overtaken, the targets which
   that save wrote down for a rule that listed none are not promised, and a rule
   it left out as not selectable may come back.
   */
  lemma AcceptedSavesKeepContent(f: Fleet, events: seq<FleetEvent>, k: nat)
    requires FleetStart(f) && f.history != [] && FleetRun(f, events) && 0 < k < |FleetAfter(f, events).history|
    ensures var history := FleetAfter(f, events).history;
            && history[k].basedOn.Some? && Shows(history[k].basedOn.value, history[k - 1])
            && (history[k].trace.prior.Some? ==> k > 1 && Shows(history[k].trace.prior.value, history[k - 2]))
            && KeepsContent(history, k)
  {
    ContentStart(f);
    ContentRun(f, events);
    hide ConfigHolds;
    hide BodyIDs;
    hide FleetRun;
    hide FleetAfter;
    hide FleetStart;
    hide VersionKept;
    hide NothingLost;
    hide Increasing;
    hide PriorKnown;
    hide Shows;
    hide CleanImage;
    hide KeepsContent;
    var history := FleetAfter(f, events).history;
    assert VersionKept(history[k]) && NothingLost(history) && Increasing(history);
    assert PriorKnown(history[k].basedOn, history[k].trace.prior, history);
    hide ContentInv;
    assert BuiltOnPrevious(history, k) by {
      PreviousOf(history, k);
    }
    if history[k].trace.prior.Some? {
      PriorVersion(history, k);
    }
    KeptMeans(history, k);
  }

  lemma PreviousOf(history: seq<Version>, k: nat)
    requires NothingLost(history) && 0 < k < |history|
    ensures BuiltOnPrevious(history, k)
  {
    hide Shows;
  }
}
