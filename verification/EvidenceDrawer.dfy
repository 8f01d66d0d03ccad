/**
 Which case a split is executed for: the case displayed, in every run in which a
 case links only to an earlier one, and in every run in which no mutation's
 continuation reopens a case the user has left.
 */
module EvidenceDrawer {

  import opened Options
  import opened EvidencePanel
  import opened EvidenceRuns

  /** A preview was asked for while the case displayed was the one selected. */
  ghost predicate PreparedAligned(q: Option<Prepared>) {
    q.Some? ==> q.value.shown.id == q.value.caseID
  }

  ghost predicate HistoryAligned(w: World) {
    && PreparedAligned(w.prepared)
    && (forall x :: x in w.executed ==> PreparedAligned(x.prepared))
  }

  lemma AlignedExecutions(events: seq<Event>)
    requires ValidRun(START, events) && HistoryAligned(After(START, events))
    ensures forall x :: x in After(START, events).executed ==>
              x.input.caseID == x.shown.id && x.input.revision == x.shown.revision
  {
    EveryExecutionWasPreviewed(events);
  }

  /** Only a preview asked for brings in a record; it must be the case selected. */
  lemma NextHistoryAligned(w: World, e: Event)
    requires HistoryAligned(w) && Possible(w, e)
    requires e.PrepareClicked? && !w.p.busy ==> w.p.record.value.id == w.p.caseID
    ensures HistoryAligned(Next(w, e))
  {
    hide Opened;
    hide LoadLanded;
    hide LoadFailed;
    hide Closed;
    hide PreviewLanded;
    hide ExecuteBegun;
    hide PrepareBegun;
    hide PreviewCleared;
    hide SplitPayload;
    hide RenderOf;
    hide Asks;
    hide ReplyValid;
    hide Superseded;
    hide DraftReplaced;
    hide ReopenID;
  }

  // ----- a case links only to earlier cases -----

  /** Every case a response brings links to an earlier case, if to any. */
  ghost predicate EarlierParents(events: seq<Event>) {
    forall e :: e in events ==> EarlierParent(e)
  }

  ghost predicate EarlierParent(e: Event) {
    e.LoadLands? && e.reply.detail.parent.Some? ==> e.reply.detail.parent.value < e.reply.detail.id
  }

  /** The record displayed belongs to an open drawer and links to an earlier case. */
  ghost predicate RecordOrdered(w: World) {
    w.p.record.Some? ==>
      && w.p.caseID > 0
      && (w.p.record.value.parent.Some? ==> w.p.record.value.parent.value < w.p.record.value.id)
  }

  /** Another case is displayed than the one selected. */
  ghost predicate Hidden(w: World) {
    w.p.mounted && w.p.record.Some? && w.p.record.value.id != w.p.caseID
  }

  /** That happens only while a mutation waits for the load it started, of a later case. */
  ghost predicate HiddenOnlyFinishing(w: World) {
    Hidden(w) ==>
      && w.mutation == Some(Finishing(w.p.sequence)) && w.p.sequence in w.loads
      && w.p.record.value.id < w.p.caseID
  }

  /** Since a mutation was started in the open drawer, the user has only gone to earlier cases. */
  ghost predicate OnlyBackwards(w: World) {
    w.p.mounted && w.mutation.Some? && w.mutation.value.Reopening? && w.mutation.value.render.caseID > 0 ==>
      var m := w.mutation.value;
      && 0 < w.p.caseID <= m.render.caseID
      && (forall s :: s in w.switches ==> s.id <= m.render.caseID)
      && (m.id.Some? ==> m.id.value == m.render.caseID)
  }

  ghost predicate Ordered(w: World) {
    RecordOrdered(w) && HiddenOnlyFinishing(w) && OnlyBackwards(w)
  }

  /** A click in the drawer opens an earlier case or the one selected, and hides nothing. */
  lemma ClickOrdered(w: World, id: int)
    requires LoadsBounded(w) && Ordered(w) && Offered(w, id)
    ensures Ordered(Opens(w, RenderOf(w.p), id, false, false))
  {
  }

  lemma SwitchOrdered(w: World, choice: nat)
    requires SwitchesAway(w) && Ordered(w) && Possible(w, SwitchConfirmed(choice))
    ensures Ordered(Next(w, SwitchConfirmed(choice)))
  {
    var s := w.switches[choice];
    assert s in w.switches;
    assert !Asks(s.render, s.id, true);
  }

  lemma SucceedsOrdered(w: World, result: int)
    requires BusyMirrors(w) && Ordered(w) && Possible(w, MutationSucceeds(result))
    ensures Ordered(Succeeds(w, result))
  {
  }

  lemma LandedOrdered(w: World, sequence: nat, reply: LoadReply)
    requires LoadsBounded(w) && Ordered(w) && sequence in w.loads && EarlierParent(LoadLands(sequence, reply))
    ensures Ordered(Landed(w, sequence, reply))
  {
    hide DraftReplaced;
  }

  lemma LoadFailsOrdered(w: World, sequence: nat)
    requires LoadsBounded(w) && Ordered(w) && sequence in w.loads
    ensures Ordered(Next(w, LoadFails(sequence)))
  {
  }

  /** A mutation starts on the case selected. */
  lemma ClickedOrdered(w: World, e: Event)
    requires BusyMirrors(w) && Ordered(w) && Possible(w, e)
    requires e.PrepareClicked? || e.ExecuteClicked? || e.SaveClicked? || e.FreezeClicked? || e.OtherClicked?
    ensures Ordered(Next(w, e))
  {
    hide SplitPayload;
  }

  lemma OthersOrdered(w: World, e: Event)
    requires BusyMirrors(w) && Ordered(w) && Possible(w, e)
    requires e.SwitchDropped? || e.CloseConfirmed? || e.DraftEdited? || e.InputsChanged? || e.PreviewLands?
             || e.MutationFails? || e.MutationEnds? || e.Unmounts?
    ensures Ordered(Next(w, e))
  {
  }

  lemma NextOrdered(w: World, e: Event)
    requires Inv(w) && Ordered(w) && Possible(w, e) && EarlierParent(e)
    ensures Ordered(Next(w, e))
  {
    hide Ordered;
    hide Opens;
    hide Dropped;
    hide Landed;
    hide Prepares;
    hide Executes;
    hide Saves;
    hide Starts;
    hide Succeeds;
    hide Closed;
    hide LoadFailed;
    hide PreviewLanded;
    hide PreviewCleared;
    hide RenderOf;
    hide PreviewTraced;
    hide PreparingTraced;
    hide PreparedTraced;
    hide LoadsBounded;
    hide DraftTraced;
    hide SwitchesAway;
    hide BusyMirrors;
    hide IdsPositive;
    match e
    case OpenClicked(id) => ClickOrdered(w, id);
    case SwitchConfirmed(choice) => SwitchOrdered(w, choice);
    case LoadLands(sequence, reply) => LandedOrdered(w, sequence, reply);
    case LoadFails(sequence) => LoadFailsOrdered(w, sequence);
    case MutationSucceeds(result) => SucceedsOrdered(w, result);
    case PrepareClicked => ClickedOrdered(w, e);
    case ExecuteClicked => ClickedOrdered(w, e);
    case SaveClicked => ClickedOrdered(w, e);
    case FreezeClicked => ClickedOrdered(w, e);
    case OtherClicked => ClickedOrdered(w, e);
    case SwitchDropped(_) => OthersOrdered(w, e);
    case CloseConfirmed => OthersOrdered(w, e);
    case DraftEdited(_, _) => OthersOrdered(w, e);
    case InputsChanged(_, _, _) => OthersOrdered(w, e);
    case PreviewLands(_) => OthersOrdered(w, e);
    case MutationFails => OthersOrdered(w, e);
    case MutationEnds => OthersOrdered(w, e);
    case Unmounts => OthersOrdered(w, e);
  }

  lemma IdleShowsSelected(w: World)
    requires BusyMirrors(w) && HiddenOnlyFinishing(w) && w.p.mounted && !w.p.busy && w.p.record.Some?
    ensures w.p.record.value.id == w.p.caseID
  {
  }

  lemma {:induction false} OrderedRunKeeps(w: World, events: seq<Event>)
    requires Inv(w) && Ordered(w) && HistoryAligned(w) && ValidRun(w, events) && EarlierParents(events)
    ensures HistoryAligned(After(w, events))
    decreases |events|
  {
    hide Next;
    hide Ordered;
    hide HistoryAligned;
    if events != [] {
      var e := events[0];
      OrderedStep(w, e);
      hide Inv;
      hide Possible;
      OrderedRunKeeps(Next(w, e), events[1..]);
    }
  }

  lemma OrderedStep(w: World, e: Event)
    requires Inv(w) && Ordered(w) && HistoryAligned(w) && Possible(w, e) && EarlierParent(e)
    ensures Inv(Next(w, e)) && Ordered(Next(w, e)) && HistoryAligned(Next(w, e))
  {
    if e.PrepareClicked? && !w.p.busy {
      IdleShowsSelected(w);
    }
    hide Next;
    hide Inv;
    hide Ordered;
    hide HistoryAligned;
    NextKeeps(w, e);
    NextOrdered(w, e);
    NextHistoryAligned(w, e);
  }

  /** When every case links only to earlier ones, every split executed is for the case and revision displayed. */
  lemma EveryExecutionIsForDisplayedCase(events: seq<Event>)
    requires ValidRun(START, events) && EarlierParents(events)
    ensures forall x :: x in After(START, events).executed ==>
              x.input.caseID == x.shown.id && x.input.revision == x.shown.revision
  {
    StartKeeps();
    OrderedRunKeeps(START, events);
    AlignedExecutions(events);
  }

  // ----- no continuation reopens a case left -----

  /** When a continuation reopens a case, the case selected is still the one its rendering showed. */
  ghost predicate Steady(w: World, e: Event)
    requires Possible(w, e)
  {
    e.MutationSucceeds? && w.p.mounted ==> w.mutation.value.render.caseID == w.p.caseID
  }

  ghost predicate SteadyRun(w: World, events: seq<Event>)
    requires ValidRun(w, events)
    decreases |events|
  {
    events == [] || (Steady(w, events[0]) && SteadyRun(Next(w, events[0]), events[1..]))
  }

  lemma OpensShown(w: World, r: Render, id: int, reset: bool, discard: bool)
    requires !Hidden(w) && (id == r.caseID ==> w.p.caseID == id)
    ensures !Hidden(Opens(w, r, id, reset, discard))
  {
  }

  lemma LandedShown(w: World, sequence: nat, reply: LoadReply)
    requires LoadsBounded(w) && !Hidden(w) && sequence in w.loads
    ensures !Hidden(Landed(w, sequence, reply))
  {
    hide DraftReplaced;
  }

  lemma NextShown(w: World, e: Event)
    requires LoadsBounded(w) && SwitchesAway(w) && Possible(w, e) && Steady(w, e) && !Hidden(w)
    ensures !Hidden(Next(w, e))
  {
    hide SplitPayload;
    hide Opens;
    hide Landed;
    hide LoadsBounded;
    match e
    case OpenClicked(id) => OpensShown(w, RenderOf(w.p), id, false, false);
    case SwitchConfirmed(choice) =>
      var s := w.switches[choice];
      assert s in w.switches;
      OpensShown(Dropped(w, choice), s.render, s.id, s.reset, true);
    case LoadLands(sequence, reply) => LandedShown(w, sequence, reply);
    case MutationSucceeds(result) =>
      var m := w.mutation.value;
      if w.p.mounted {
        OpensShown(w, m.render, ReopenID(m, result), m.reset, false);
      }
    case _ =>
  }

  lemma {:induction false} SteadyRunKeeps(w: World, events: seq<Event>)
    requires Inv(w) && !Hidden(w) && HistoryAligned(w) && ValidRun(w, events) && SteadyRun(w, events)
    ensures HistoryAligned(After(w, events))
    decreases |events|
  {
    hide Next;
    hide Steady;
    hide HistoryAligned;
    if events != [] {
      var e := events[0];
      NextShown(w, e);
      NextHistoryAligned(w, e);
      hide Inv;
      hide Hidden;
      hide Possible;
      NextKeeps(w, e);
      SteadyRunKeeps(Next(w, e), events[1..]);
    }
  }

  /** Whatever cases link to, the same holds of every run in which no continuation reopens a case left. */
  lemma SteadyRunExecutesDisplayedCase(events: seq<Event>)
    requires ValidRun(START, events) && SteadyRun(START, events)
    ensures forall x :: x in After(START, events).executed ==>
              x.input.caseID == x.shown.id && x.input.revision == x.shown.revision
  {
    StartKeeps();
    SteadyRunKeeps(START, events);
    AlignedExecutions(events);
  }

  // ----- without either -----

  const FIRST := Case(1, 1, "", "", Some(2))
  const SECOND := Case(2, 1, "", "", Some(1))

  /**
   Were two cases linked to each other, neither assumption could be dropped. A
   save is in flight for case 1 while the user follows its link to case 2; the
   continuation reopens case 1 without clearing case 2. The link back reopens
   case 1 once more; it loads while case 2 is still displayed and previewed, and
   then case 2 is split while case 1 is displayed.
   */
  lemma MutualParentsSplitHiddenCase() returns (w: World)
    ensures Reachable(w)
    ensures |w.executed| == 1 && w.executed[0].input.caseID == 2 && w.executed[0].shown.id == 1
  {
    w := SwitchUnderSave();
    w := StaleReopen(w);
    w := PreviewsHiddenCase(w);
    w := SplitsHiddenCase(w);
  }

  /** Case 2 displayed while case 1 is selected and loading, nothing in flight. */
  ghost predicate HiddenCase(w: World) {
    && w.p == Panel(1, Some(SECOND), false, "", "", true, "", "", None, None, 4, 2, Base(1, "", ""), false, true)
    && 4 in w.loads && w.loads[4] == Load(1, false)
    && w.mutation.None? && w.executed == [] && w.switches == []
  }

  /** A save of case 1 in flight with case 2 displayed. */
  ghost predicate SwitchedUnderSave(w: World) {
    && w.p == Panel(2, Some(SECOND), false, "", "", true, "", "", None, None, 2, 2, Base(1, "", ""), true, true)
    && w.mutation == Some(Reopening(Some(1), true, Render(1, false))) && w.executed == [] && w.switches == []
  }

  lemma SwitchUnderSave() returns (w: World)
    ensures Reachable(w) && SwitchedUnderSave(w)
  {
    hide Prepares;
    hide Executes;
    hide Starts;
    hide Succeeds;
    hide PreviewLanded;
    hide Closed;
    hide LoadFailed;
    w := START;
    assert ValidRun(START, []) && After(START, []) == START;
    w := Displays(w, FIRST);
    w := Does(w, SaveClicked);
    w := Displays(w, SECOND);
  }

  lemma StaleReopen(v: World) returns (w: World)
    requires Reachable(v) && SwitchedUnderSave(v)
    ensures Reachable(w) && HiddenCase(w)
  {
    hide Prepares;
    hide Executes;
    hide Saves;
    hide Starts;
    hide Landed;
    hide PreviewLanded;
    hide Closed;
    w := Does(v, MutationSucceeds(1));
    w := Does(w, OpenClicked(1));
    w := Does(w, LoadFails(3));
    w := Does(w, MutationEnds);
  }

  /** Case 2 displayed with its preview while case 1 is selected and loading. */
  ghost predicate HiddenPreview(w: World) {
    && w.p == Panel(1, Some(SECOND), false, "", "", true, "", "", Some(Preview(2, 1, true, true)),
                    Some(SplitInput(2, 1, true, None)), 4, 2, Base(1, "", ""), false, true)
    && 4 in w.loads && w.loads[4] == Load(1, false) && w.executed == [] && w.switches == []
  }

  lemma PreviewsHiddenCase(v: World) returns (w: World)
    requires Reachable(v) && HiddenCase(v)
    ensures Reachable(w) && HiddenPreview(w)
  {
    hide Executes;
    hide Saves;
    hide Starts;
    hide Succeeds;
    hide Closed;
    hide Opens;
    hide Landed;
    hide LoadFailed;
    PoolPayload(v.p.record.value);
    hide SplitPayload;
    w := Does(v, PrepareClicked);
    w := Does(w, PreviewLands(Some(Preview(2, 1, true, true))));
  }

  lemma SplitsHiddenCase(v: World) returns (w: World)
    requires Reachable(v) && HiddenPreview(v)
    ensures Reachable(w)
    ensures |w.executed| == 1 && w.executed[0].input.caseID == 2 && w.executed[0].shown.id == 1
  {
    hide Prepares;
    hide Saves;
    hide Starts;
    hide Succeeds;
    hide PreviewLanded;
    hide Closed;
    hide Opens;
    hide LoadFailed;
    w := Does(v, LoadLands(4, LoadReply(FIRST, true)));
    w := Does(w, ExecuteClicked);
  }

  lemma PoolPayload(c: Case)
    requires c.id > 0 && c.revision > 0
    ensures SplitPayload(c, true, "", "") == Some(SplitInput(c.id, c.revision, true, None))
  {
  }
}
