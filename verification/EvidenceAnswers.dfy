/**
 What one answer or one click does to the case drawer, stated on the fields it
 shows: loads, previews, splits and the payload they are sent with.
 */
module EvidenceAnswers {

  import opened Options
  import opened JsText
  import opened EvidencePanel
  import opened EvidenceRuns

  // ----- the payload -----

  /** Two hosts that differ beyond white space around them and case. */
  ghost predicate TwoHosts(a: string, b: string) {
    Trim(a) != "" && Trim(b) != "" && ToLower(Trim(a)) != ToLower(Trim(b))
  }

  /** A split names its case, its revision, and either the pool or two different trimmed hosts. */
  lemma PayloadExactly(record: Case, pool: bool, hostA: string, hostB: string)
    ensures var input := SplitPayload(record, pool, hostA, hostB);
            && (input.Some? <==> record.id > 0 && record.revision > 0 && (pool || TwoHosts(hostA, hostB)))
            && (input.Some? ==>
                  && input.value.caseID == record.id && input.value.revision == record.revision
                  && input.value.pool == pool
                  && input.value.hosts == if pool then None else Some(Hosts(Trim(hostA), Trim(hostB))))
  {
    hide Trim;
    hide ToLower;
  }

  // ----- loads -----

  /** The answer is to the last case opened, and the drawer has not been closed or left since. */
  ghost predicate Current(w: World, sequence: nat) {
    w.p.mounted && sequence == w.p.sequence
  }

  ghost predicate DraftDirty(p: Panel) {
    p.observation != p.draftBase.observation || p.conclusion != p.draftBase.conclusion
  }

  /** The draft of the case stays: it has unsaved text and the load does not reset it. */
  ghost predicate DraftHeld(p: Panel, load: Load) {
    !load.reset && p.draftCaseID == load.id && DraftDirty(p)
  }

  ghost predicate SameDraftText(p: Panel, q: Panel) {
    p.observation == q.observation && p.conclusion == q.conclusion && p.draftBase == q.draftBase && p.draftCaseID == q.draftCaseID
  }

  /** The draft is the case as loaded, unchanged. */
  ghost predicate DraftIs(p: Panel, c: Case) {
    && p.observation == c.observation && p.conclusion == c.conclusion && p.draftCaseID == c.id
    && p.draftBase == Base(c.revision, c.observation, c.conclusion)
  }

  /** A loaded case has the id asked for and a positive revision. */
  ghost predicate Answers(load: Load, c: Case) {
    c.id == load.id && c.revision > 0
  }

  /** What a load leaves alone whatever it answers. */
  ghost predicate LoadFrame(p: Panel, q: Panel) {
    && q.caseID == p.caseID && q.pool == p.pool && q.hostA == p.hostA && q.hostB == p.hostB
    && q.preview == p.preview && q.previewInput == p.previewInput
    && q.sequence == p.sequence && q.busy == p.busy && q.mounted == p.mounted
  }

  /**
   The current load shows the case it brings, and a fresh draft of it unless the
   case has unsaved text that is to stay; with a malformed page of users the case
   is shown and the draft untouched. A case that is not the one asked for is a
   failure, and an answer that is not current changes nothing.
   */
  lemma LoadAnswerShown(w: World, sequence: nat, reply: LoadReply)
    requires Inv(w) && Possible(w, LoadLands(sequence, reply))
    ensures var load := w.loads[sequence];
            var v := Next(w, LoadLands(sequence, reply)).p;
            && LoadFrame(w.p, v)
            && (!Current(w, sequence) ==> v == w.p)
            && (Current(w, sequence) && Answers(load, reply.detail) ==>
                  && v.record == Some(reply.detail) && v.caseFailed == !reply.usersValid
                  && if reply.usersValid && !DraftHeld(w.p, load) then DraftIs(v, reply.detail) else SameDraftText(w.p, v))
            && (Current(w, sequence) && !Answers(load, reply.detail) ==> LoadLost(w.p, load, v))
  {
    hide PreviewTraced;
    hide PreparingTraced;
    hide PreparedTraced;
    hide DraftTraced;
    hide BusyMirrors;
    hide SwitchesAway;
    hide IdsPositive;
  }

  /** The failure is reported, the record stays only when it is of the case asked for, and the draft stays. */
  ghost predicate LoadLost(p: Panel, load: Load, q: Panel) {
    && q.caseFailed && SameDraftText(p, q)
    && q.record == if p.record.Some? && p.record.value.id == load.id then p.record else None
  }

  lemma LoadFailureShown(w: World, sequence: nat)
    requires Inv(w) && Possible(w, LoadFails(sequence))
    ensures var v := Next(w, LoadFails(sequence)).p;
            LoadFrame(w.p, v) && if Current(w, sequence) then LoadLost(w.p, w.loads[sequence], v) else v == w.p
  {
    hide Inv;
  }

  /**
   Opening another case over unsaved text of the record shown only asks;
   otherwise the case is selected, the preview dropped, and a load of it is the
   one current. The record stays only when the case is the one selected before.
   */
  lemma OpenAsksOrSelects(w: World, id: int)
    requires Inv(w) && Possible(w, OpenClicked(id))
    ensures var next := Next(w, OpenClicked(id));
            var v := next.p;
            if id != w.p.caseID && w.p.record.Some? && DraftDirty(w.p)
            then v == w.p && next.loads == w.loads && next.switches == w.switches + [Switch(id, false, RenderOf(w.p))]
            else
              && v.caseID == id && !v.caseFailed && v.preview == None && v.previewInput == None
              && v.record == (if id == w.p.caseID then w.p.record else None)
              && SameDraftText(w.p, v) && v.busy == w.p.busy
              && (forall s :: s in w.loads ==> !Current(next, s))
              && v.sequence in next.loads && next.loads[v.sequence] == Load(id, false) && next.switches == w.switches
  {
    hide PreviewTraced;
    hide PreparingTraced;
    hide PreparedTraced;
    hide DraftTraced;
    hide BusyMirrors;
    hide SwitchesAway;
    hide IdsPositive;
  }

  /** Closing leaves no case, record or preview and no current load, unless a mutation is in flight: then it does nothing. */
  lemma CloseForgets(w: World)
    requires Inv(w) && Possible(w, CloseConfirmed)
    ensures var next := Next(w, CloseConfirmed);
            var v := next.p;
            if w.mutation.Some? then next == w
            else
              && v.caseID == 0 && v.record == None && v.preview == None && v.previewInput == None
              && !v.caseFailed && v.draftCaseID == 0 && v.observation == w.p.observation && v.conclusion == w.p.conclusion
              && v.draftBase == w.p.draftBase && next.loads == w.loads && forall s :: s in w.loads ==> !Current(next, s)
  {
    hide PreviewTraced;
    hide PreparingTraced;
    hide PreparedTraced;
    hide DraftTraced;
    hide SwitchesAway;
    hide IdsPositive;
  }

  // ----- previews and splits -----

  /** Preparing drops the preview shown and asks for one of the record shown, when idle and with a whole payload. */
  lemma PrepareAsks(w: World)
    requires Inv(w) && Possible(w, PrepareClicked)
    ensures var next := Next(w, PrepareClicked);
            var record := w.p.record.value;
            var asked := SplitPayload(record, w.p.pool, w.p.hostA, w.p.hostB);
            && (w.mutation.Some? ==> next == w)
            && (w.mutation.None? ==> next.p.preview == None && next.p.previewInput == None && next.p.busy == asked.Some?)
            && (w.mutation.None? ==> next.mutation == if asked.Some? then Some(Preparing(w.p.sequence, record, asked.value)) else None)
  {
    hide SplitPayload;
    hide PreviewTraced;
    hide PreparedTraced;
    hide LoadsBounded;
    hide DraftTraced;
    hide SwitchesAway;
    hide IdsPositive;
  }

  /** A preview is shown, with the input it was asked for, exactly when the drawer is as it was and it names the case and revision shown then. */
  lemma PreviewAnswerShown(w: World, reply: Option<Preview>)
    requires Inv(w) && Possible(w, PreviewLands(reply))
    ensures var m := w.mutation.value;
            var next := Next(w, PreviewLands(reply));
            var shown := reply.Some? && Current(w, m.sequence) && reply.value.hasGroups
                         && reply.value.caseID == m.shown.id && reply.value.revision == m.shown.revision;
            && next.mutation == None && !next.p.busy && next.p.record == w.p.record && SameDraftText(w.p, next.p)
            && next.p.preview == (if shown then reply else w.p.preview)
            && next.p.previewInput == (if shown then Some(m.input) else w.p.previewInput)
  {
    hide Inv;
  }

  /**
   A click sends a split exactly when nothing is in flight and a supported preview
   of the revision displayed is shown; it sends the preview's own input, once,
   since the preview is dropped with it.
   */
  lemma ExecuteSendsSupported(w: World)
    requires Inv(w) && Possible(w, ExecuteClicked)
    ensures var next := Next(w, ExecuteClicked);
            var due := w.mutation.None? && w.p.preview.Some? && w.p.preview.value.supported
                       && w.p.preview.value.revision == w.p.record.value.revision;
            if !due then next == w
            else
              && w.p.previewInput.Some? && next.p.busy && next.p.preview == None && next.p.previewInput == None
              && |next.executed| == |w.executed| + 1 && next.executed[..|w.executed|] == w.executed
              && next.executed[|w.executed|].input == w.p.previewInput.value
  {
    hide SplitPayload;
    hide PreparedTraced;
    hide LoadsBounded;
    hide DraftTraced;
    hide SwitchesAway;
    hide IdsPositive;
  }

  /** A save goes out exactly when nothing is in flight, with the text shown, and leaves the drawer as it is but busy. */
  lemma SaveSendsDraft(w: World)
    requires Inv(w) && Possible(w, SaveClicked)
    ensures var next := Next(w, SaveClicked);
            if w.mutation.Some? then next == w
            else
              && next.p == w.p.(busy := true)
              && |next.saved| == |w.saved| + 1 && next.saved[..|w.saved|] == w.saved
              && next.saved[|w.saved|].body == SaveBody(w.p.record.value.id, w.p.draftBase.revision, w.p.observation, w.p.conclusion)
              && next.mutation == Some(Reopening(Some(w.p.record.value.id), true, RenderOf(w.p)))
  {
    hide PreviewTraced;
    hide PreparingTraced;
    hide PreparedTraced;
    hide LoadsBounded;
    hide DraftTraced;
    hide SwitchesAway;
    hide IdsPositive;
  }

  /** The worlds above are those of every run. */
  lemma RunsAreTraced(events: seq<Event>)
    requires ValidRun(START, events)
    ensures Inv(After(START, events))
  {
    StartKeeps();
    RunKeeps(START, events);
  }
}
