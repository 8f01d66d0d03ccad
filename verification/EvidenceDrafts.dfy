/**
 The unsaved draft of the case drawer: exactly which events replace it, and two
 runs in which it ends up where the user does not expect it.
 */
module EvidenceDrafts {

  import opened Options
  import opened EvidencePanel
  import opened EvidenceRuns

  /** Text and base of the draft. */
  ghost predicate SameDraft(p: Panel, q: Panel) {
    p.observation == q.observation && p.conclusion == q.conclusion && p.draftBase == q.draftBase
  }

  /** The case the draft belongs to; 0 once the drawer has been closed. */
  ghost function OwnerAfter(w: World, e: Event, owner: int): int {
    if e.CloseConfirmed? && !w.p.busy then 0 else owner
  }

  /** A load lands with a valid users page, and it is one that resets the draft or is not for its owner. */
  ghost predicate Replaces(w: World, e: Event, owner: int)
    requires Possible(w, e)
  {
    && e.LoadLands? && Lands(w, e.sequence, e.reply) && e.reply.usersValid
    && (w.loads[e.sequence].reset || w.loads[e.sequence].id != owner)
  }

  ghost predicate NeverReplaced(w: World, events: seq<Event>, owner: int)
    requires ValidRun(w, events)
    decreases |events|
  {
    events == []
    || (!Replaces(w, events[0], owner)
        && NeverReplaced(Next(w, events[0]), events[1..], OwnerAfter(w, events[0], owner)))
  }

  ghost predicate NoEdits(events: seq<Event>) {
    forall e :: e in events ==> !e.DraftEdited?
  }

  lemma LandedDraft(w: World, sequence: nat, reply: LoadReply)
    requires Possible(w, LoadLands(sequence, reply)) && DraftChanged(w.p)
    ensures var next := Landed(w, sequence, reply).p;
            if Replaces(w, LoadLands(sequence, reply), w.p.draftCaseID) then !DraftChanged(next)
            else SameDraft(next, w.p) && next.draftCaseID == w.p.draftCaseID
  {
  }

  lemma NextFrame(w: World, e: Event)
    requires Possible(w, e) && !e.DraftEdited? && !e.LoadLands?
    ensures SameDraft(Next(w, e).p, w.p) && Next(w, e).p.draftCaseID == OwnerAfter(w, e, w.p.draftCaseID)
  {
    hide Landed;
    hide Asks;
    hide ReplyValid;
    hide PrepareWanted;
    hide ExecuteWanted;
    hide SaveWanted;
    hide SplitPayload;
    hide RenderOf;
    hide ReopenID;
  }

  /** Nothing but an edit or a replacing load touches a changed draft. */
  lemma NextDraft(w: World, e: Event)
    requires Possible(w, e) && !e.DraftEdited? && DraftChanged(w.p)
    ensures var next := Next(w, e).p;
            if Replaces(w, e, w.p.draftCaseID) then !DraftChanged(next)
            else SameDraft(next, w.p) && next.draftCaseID == OwnerAfter(w, e, w.p.draftCaseID)
  {
    hide Landed;
    hide Lands;
    if e.LoadLands? {
      LandedDraft(w, e.sequence, e.reply);
    } else {
      hide Next;
      hide Possible;
      NextFrame(w, e);
    }
  }

  lemma NextUnchanged(w: World, e: Event)
    requires Possible(w, e) && !e.DraftEdited? && !DraftChanged(w.p)
    ensures !DraftChanged(Next(w, e).p)
  {
    if !e.LoadLands? {
      hide Next;
      hide Possible;
      NextFrame(w, e);
    }
  }

  lemma {:induction false} UnchangedStays(w: World, events: seq<Event>)
    requires ValidRun(w, events) && NoEdits(events) && !DraftChanged(w.p)
    ensures !DraftChanged(After(w, events).p)
    decreases |events|
  {
    hide Next;
    hide Possible;
    hide DraftChanged;
    if events != [] {
      NextUnchanged(w, events[0]);
      UnchangedStays(Next(w, events[0]), events[1..]);
    }
  }

  /**
   Left alone, a changed draft is kept, text and base, exactly until a load lands
   that replaces it: opening or confirming another case, closing, saving, failed
   and malformed loads do not.
   */
  lemma {:induction false} DraftKeptExactly(w: World, events: seq<Event>)
    requires ValidRun(w, events) && NoEdits(events) && DraftChanged(w.p)
    ensures DraftChanged(After(w, events).p) <==> NeverReplaced(w, events, w.p.draftCaseID)
    ensures NeverReplaced(w, events, w.p.draftCaseID) ==> SameDraft(After(w, events).p, w.p)
    decreases |events|
  {
    hide Next;
    hide Possible;
    hide Replaces;
    hide OwnerAfter;
    if events != [] {
      var e := events[0];
      NextDraft(w, e);
      if Replaces(w, e, w.p.draftCaseID) {
        UnchangedStays(Next(w, e), events[1..]);
      } else {
        DraftKeptExactly(Next(w, e), events[1..]);
      }
    }
  }

  // ----- reloads of the same case -----

  /** The drawer is not closed, and no load that takes effect is for another case or resets the draft. */
  ghost predicate LeavesDraft(w: World, e: Event, id: int)
    requires Possible(w, e)
  {
    && !e.CloseConfirmed?
    && (e.LoadLands? && !Superseded(w.p, e.sequence) ==> w.loads[e.sequence].id == id && !w.loads[e.sequence].reset)
  }

  ghost predicate RunLeavesDraft(w: World, events: seq<Event>, id: int)
    requires ValidRun(w, events)
    decreases |events|
  {
    events == [] || (LeavesDraft(w, events[0], id) && RunLeavesDraft(Next(w, events[0]), events[1..], id))
  }

  lemma {:induction false} ReloadsReplaceNothing(w: World, events: seq<Event>, id: int)
    requires ValidRun(w, events) && RunLeavesDraft(w, events, id)
    ensures NeverReplaced(w, events, id)
    decreases |events|
  {
    hide Next;
    hide Possible;
    if events != [] {
      ReloadsReplaceNothing(Next(w, events[0]), events[1..], id);
    }
  }

  /** However often the same case is reloaded, a changed draft keeps its text and its base. */
  lemma DirtyDraftSurvivesReloads(w: World, events: seq<Event>)
    requires ValidRun(w, events) && NoEdits(events) && DraftChanged(w.p)
    requires RunLeavesDraft(w, events, w.p.draftCaseID)
    ensures SameDraft(After(w, events).p, w.p)
  {
    ReloadsReplaceNothing(w, events, w.p.draftCaseID);
    DraftKeptExactly(w, events);
  }

  // ----- where the draft is not expected -----

  const ROOT := Case(1, 1, "", "", None)
  const ROUND := Case(2, 7, "text", "", Some(1))

  /** Case 2 displayed with a changed draft while its split is executed. */
  ghost predicate Executing(w: World) {
    && w.p == Panel(2, Some(ROUND), false, "given up", "", true, "", "", None, None, 1, 2, Base(7, "text", ""), true, true)
    && w.mutation == Some(Reopening(None, false, Render(2, true))) && w.switches == []
  }

  /** The same while case 2 is previewed. */
  ghost predicate Previewed(w: World) {
    && w.p == Panel(2, Some(ROUND), false, "given up", "", true, "", "", Some(Preview(2, 7, true, true)),
                    Some(SplitInput(2, 7, true, None)), 1, 2, Base(7, "text", ""), false, true)
    && w.switches == []
  }

  lemma Edits() returns (w: World)
    ensures Reachable(w) && w.mutation.None? && w.switches == []
    ensures w.p == Panel(2, Some(ROUND), false, "given up", "", true, "", "", None, None, 1, 2, Base(7, "text", ""), false, true)
  {
    hide Prepares;
    hide Executes;
    hide Saves;
    hide Starts;
    hide Succeeds;
    hide PreviewLanded;
    hide Closed;
    hide LoadFailed;
    w := START;
    assert ValidRun(START, []) && After(START, []) == START;
    w := Displays(w, ROUND);
    w := Does(w, DraftEdited("given up", ""));
  }

  lemma Previews() returns (w: World)
    ensures Reachable(w) && Previewed(w)
  {
    hide Executes;
    hide Saves;
    hide Starts;
    hide Succeeds;
    hide Closed;
    hide Opens;
    hide Landed;
    hide LoadFailed;
    assert SplitPayload(ROUND, true, "", "") == Some(SplitInput(2, 7, true, None));
    hide SplitPayload;
    w := Edits();
    w := Does(w, PrepareClicked);
    w := Does(w, PreviewLands(Some(Preview(2, 7, true, true))));
  }

  lemma ExecutesPreviewed(v: World) returns (w: World)
    requires Reachable(v) && Previewed(v)
    ensures Reachable(w) && Executing(w)
  {
    w := Does(v, ExecuteClicked);
  }

  /** Case 1 confirmed and loading, the draft of case 2 given up. */
  ghost predicate GivenUp(w: World) {
    && w.p == Panel(1, None, false, "given up", "", true, "", "", None, None, 2, 2, Base(7, "text", ""), true, true)
    && w.mutation == Some(Reopening(None, false, Render(2, true))) && w.switches == []
  }

  lemma GivesUp(v: World) returns (w: World)
    requires Reachable(v) && Executing(v)
    ensures Reachable(w) && GivenUp(w)
  {
    w := Does(v, OpenClicked(1));
    assert w.switches == [Switch(1, false, Render(2, true))];
    w := Does(w, SwitchConfirmed(0));
    assert w.switches == [];
  }

  /**
   A draft given up comes back: while the split of case 2 is executed the user
   follows its link to case 1 and confirms; the execution's continuation reopens
   case 2 before case 1 has arrived, and the draft is shown again.
   */
  lemma DiscardedDraftReturns() returns (w: World)
    ensures Reachable(w) && w.p.caseID == 2 && w.p.record == Some(ROUND) && w.p.observation == "given up"
  {
    w := Previews();
    w := ExecutesPreviewed(w);
    w := GivesUp(w);
    w := Does(w, MutationSucceeds(2));
    w := Does(w, LoadLands(3, LoadReply(ROUND, true)));
  }

  /** After a malformed users page, one case's text and base are saved to the case it links to. */
  lemma MalformedPageSavesToAnotherCase() returns (w: World)
    ensures Reachable(w) && |w.saved| == 1
    ensures w.saved[0].body == SaveBody(1, 7, "text", "") && w.saved[0].snapshot == Some(ROUND)
  {
    hide Prepares;
    hide Executes;
    hide Starts;
    hide Succeeds;
    hide PreviewLanded;
    hide Closed;
    hide LoadFailed;
    w := START;
    assert ValidRun(START, []) && After(START, []) == START;
    w := Displays(w, ROUND);
    w := Does(w, OpenClicked(1));
    w := Does(w, LoadLands(2, LoadReply(ROOT, false)));
    w := Does(w, SaveClicked);
  }
}
