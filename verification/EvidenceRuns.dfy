/**
 Runs of the case drawer: reloads, case switches, edits and mutations interleave;
 a mutation's continuation still sees the rendering it was started from.

 Case ids are positive, those of links and of answers included.
 */
module EvidenceRuns {

  import opened Options
  import opened JsText
  import opened EvidencePanel

  datatype Load = Load(id: int, reset: bool)

  /** A switch waiting for its confirmation, with the rendering that asked. */
  datatype Switch = Switch(id: int, reset: bool, render: Render)

  /** The one mutation in flight, with what its callback captured. */
  datatype Mutation =
    | Preparing(sequence: nat, shown: Case, input: SplitInput)
    | Reopening(id: Option<int>, reset: bool, render: Render)
    | Finishing(load: nat)
    | Unrelated

  /**
   A preview asked for: the case displayed, the case selected and the load
   sequence at the click, and whether a load has replaced the record since.
   */
  datatype Prepared = Prepared(shown: Case, caseID: int, sequence: nat, reloaded: bool)

  /** A split sent, with the case displayed and the inputs shown at that click. */
  datatype Execution = Execution(
    input: SplitInput, shown: Case, pool: bool, hostA: string, hostB: string, prepared: Option<Prepared>)

  /** A save sent, the case its draft started from, and the case of the last load that arrived whole. */
  datatype Save = Save(body: SaveBody, snapshot: Option<Case>, landed: Option<int>)

  /** `landed` is the case of the last load taken over with a valid users page. */
  datatype World = World(
    p: Panel, loads: map<nat, Load>, mutation: Option<Mutation>, switches: seq<Switch>,
    prepared: Option<Prepared>, snapshot: Option<Case>, landed: Option<int>, executed: seq<Execution>, saved: seq<Save>)

  const START := World(FRESH_PANEL, map[], None, [], None, None, None, [], [])

  datatype Event =
    | OpenClicked(id: int)
    | SwitchConfirmed(choice: nat)
    | SwitchDropped(choice: nat)
    | CloseConfirmed
    | LoadLands(sequence: nat, reply: LoadReply)
    | LoadFails(sequence: nat)
    | DraftEdited(observation: string, conclusion: string)
    | InputsChanged(pool: bool, hostA: string, hostB: string)
    | PrepareClicked
    | PreviewLands(preview: Option<Preview>)
    | ExecuteClicked
    | SaveClicked
    | FreezeClicked
    | OtherClicked
    | MutationSucceeds(result: int)
    | MutationFails
    | MutationEnds
    | Unmounts

  /** No confirmation covers the page. */
  ghost predicate Uncovered(w: World) {
    w.p.mounted && w.switches == []
  }

  /** The drawer is open and shows a record. */
  ghost predicate RecordShown(w: World) {
    Uncovered(w) && w.p.caseID > 0 && w.p.record.Some?
  }

  /**
   The cases a click can open: any listed one while the drawer is closed; in the
   open drawer the parent of the record shown, that record again (another page
   of users, refreshed coverage), or the selected case after an error.
   */
  ghost predicate Offered(w: World, id: int) {
    && Uncovered(w) && id > 0
    && (w.p.caseID <= 0
        || (w.p.record.Some? && (w.p.record.value.parent == Some(id) || w.p.record.value.id == id))
        || (w.p.caseFailed && w.p.caseID == id))
  }

  /** The parent a response names carries a positive id. */
  ghost predicate ParentPositive(reply: LoadReply) {
    reply.detail.parent.Some? ==> reply.detail.parent.value > 0
  }

  /** What the page lets happen: an open drawer covers the lists, a confirmation covers everything, inputs are disabled while busy. */
  ghost predicate Possible(w: World, e: Event) {
    match e
    case OpenClicked(id) => Offered(w, id)
    case LoadLands(sequence, reply) => sequence in w.loads && ParentPositive(reply)
    case LoadFails(sequence) => sequence in w.loads
    case PreviewLands(_) => w.mutation.Some? && w.mutation.value.Preparing?
    case MutationSucceeds(result) => w.mutation.Some? && w.mutation.value.Reopening? && result > 0
    case MutationFails => w.mutation.Some? && (w.mutation.value.Reopening? || w.mutation.value.Unrelated?)
    case MutationEnds =>
      w.mutation.Some? && (w.mutation.value.Unrelated? || (w.mutation.value.Finishing? && w.mutation.value.load !in w.loads))
    case SwitchConfirmed(choice) => w.p.mounted && choice < |w.switches|
    case SwitchDropped(choice) => w.p.mounted && choice < |w.switches|
    case CloseConfirmed => w.p.mounted && w.p.caseID > 0
    case DraftEdited(_, _) => RecordShown(w) && !w.p.busy
    case InputsChanged(_, _, _) => RecordShown(w) && !w.p.busy
    case FreezeClicked => Uncovered(w) && w.p.caseID <= 0
    case OtherClicked => Uncovered(w)
    case Unmounts => w.p.mounted
    case _ => RecordShown(w)
  }

  /** `openCase` called by a callback of rendering `r`. */
  ghost function Opens(w: World, r: Render, id: int, reset: bool, discard: bool): World {
    if Asks(r, id, discard) then w.(switches := w.switches + [Switch(id, reset, r)])
    else w.(p := Opened(w.p, r, id), loads := w.loads[w.p.sequence + 1 := Load(id, reset)])
  }

  /** The load takes over the record. */
  ghost predicate Lands(w: World, sequence: nat, reply: LoadReply)
    requires sequence in w.loads
  {
    !Superseded(w.p, sequence) && ReplyValid(w.loads[sequence].id, reply)
  }

  ghost function Landed(w: World, sequence: nat, reply: LoadReply): World
    requires sequence in w.loads
  {
    var load := w.loads[sequence];
    var next := w.(p := LoadLanded(w.p, sequence, load.id, load.reset, reply), loads := w.loads - {sequence});
    if !Lands(w, sequence, reply) then next
    else next.(
      landed := if reply.usersValid then Some(reply.detail.id) else w.landed,
      prepared := if w.prepared.Some? then Some(w.prepared.value.(reloaded := true)) else None,
      snapshot := if reply.usersValid && DraftReplaced(w.p, load.id, load.reset) then Some(reply.detail) else w.snapshot)
  }

  ghost function Prepares(w: World): World {
    var input := PrepareWanted(w.p);
    var next := w.(p := PrepareBegun(w.p));
    if input.None? then next
    else next.(
      mutation := Some(Preparing(w.p.sequence, w.p.record.value, input.value)),
      prepared := Some(Prepared(w.p.record.value, w.p.caseID, w.p.sequence, false)))
  }

  ghost function Executes(w: World): World {
    var input := ExecuteWanted(w.p);
    if input.None? then w
    else w.(
      p := ExecuteBegun(w.p),
      mutation := Some(Reopening(None, false, RenderOf(w.p))),
      executed := w.executed + [Execution(input.value, w.p.record.value, w.p.pool, w.p.hostA, w.p.hostB, w.prepared)])
  }

  ghost function Saves(w: World): World {
    var body := SaveWanted(w.p);
    if body.None? then w
    else w.(
      p := w.p.(busy := true),
      mutation := Some(Reopening(Some(body.value.caseID), true, RenderOf(w.p))),
      saved := w.saved + [Save(body.value, w.snapshot, w.landed)])
  }

  ghost function Starts(w: World, mutation: Mutation): World {
    if w.p.busy then w else w.(p := w.p.(busy := true), mutation := Some(mutation))
  }

  /** The case a mutation's continuation reopens: the saved one, or the one in the response. */
  ghost function ReopenID(m: Mutation, result: int): int
    requires m.Reopening?
  {
    if m.id.Some? then m.id.value else result
  }

  ghost function Succeeds(w: World, result: int): World
    requires Possible(w, MutationSucceeds(result))
  {
    var m := w.mutation.value;
    if !w.p.mounted then w.(mutation := Some(Finishing(0)))
    else
      Opens(w, m.render, ReopenID(m, result), m.reset, false).(
        mutation := Some(Finishing(if Asks(m.render, ReopenID(m, result), false) then 0 else w.p.sequence + 1)))
  }

  /** The confirmation is taken away. */
  ghost function Dropped(w: World, choice: nat): World
    requires choice < |w.switches|
  {
    w.(switches := w.switches[..choice] + w.switches[choice + 1..])
  }

  ghost function Next(w: World, e: Event): World
    requires Possible(w, e)
  {
    match e
    case OpenClicked(id) => Opens(w, RenderOf(w.p), id, false, false)
    case SwitchConfirmed(choice) =>
      Opens(Dropped(w, choice), w.switches[choice].render, w.switches[choice].id, w.switches[choice].reset, true)
    case SwitchDropped(choice) => Dropped(w, choice)
    case CloseConfirmed => w.(p := Closed(w.p))
    case LoadLands(sequence, reply) => Landed(w, sequence, reply)
    case LoadFails(sequence) =>
      w.(p := LoadFailed(w.p, sequence, w.loads[sequence].id), loads := w.loads - {sequence})
    case DraftEdited(observation, conclusion) =>
      w.(p := w.p.(observation := observation, conclusion := conclusion))
    case InputsChanged(pool, hostA, hostB) =>
      w.(p := PreviewCleared(w.p).(pool := pool, hostA := hostA, hostB := hostB))
    case PrepareClicked => Prepares(w)
    case PreviewLands(preview) =>
      var m := w.mutation.value;
      w.(p := PreviewLanded(w.p, m.sequence, m.shown, m.input, preview), mutation := None)
    case ExecuteClicked => Executes(w)
    case SaveClicked => Saves(w)
    case FreezeClicked => Starts(w, Reopening(None, false, RenderOf(w.p)))
    case OtherClicked => Starts(w, Unrelated)
    case MutationSucceeds(result) => Succeeds(w, result)
    case MutationFails => w.(p := w.p.(busy := false), mutation := None)
    case MutationEnds => w.(p := w.p.(busy := false), mutation := None)
    case Unmounts => w.(p := w.p.(mounted := false, sequence := w.p.sequence + 1))
  }

  ghost predicate ValidRun(w: World, events: seq<Event>)
    decreases |events|
  {
    events == [] || (Possible(w, events[0]) && ValidRun(Next(w, events[0]), events[1..]))
  }

  ghost function After(w: World, events: seq<Event>): World
    requires ValidRun(w, events)
    decreases |events|
  {
    if events == [] then w else After(Next(w, events[0]), events[1..])
  }

  // ----- the invariant -----

  /** Nothing has been opened or closed since the preview was asked for. */
  ghost predicate Standing(w: World, q: Prepared) {
    q.sequence == w.p.sequence
  }

  /** The record displayed is the one the preview was asked for, or the selected case reloaded. */
  ghost predicate RecordTraced(w: World, q: Prepared) {
    w.p.record.Some? ==> if q.reloaded then w.p.record.value.id == q.caseID else w.p.record.value == q.shown
  }

  /** A preview shown belongs to the case it was asked for and to the inputs shown now. */
  ghost predicate PreviewTraced(w: World) {
    w.p.mounted && w.p.preview.Some? ==>
      && w.prepared.Some? && Standing(w, w.prepared.value)
      && w.p.previewInput.Some?
      && w.p.previewInput == SplitPayload(w.prepared.value.shown, w.p.pool, w.p.hostA, w.p.hostB)
      && w.p.preview.value.caseID == w.prepared.value.shown.id
      && w.p.preview.value.revision == w.prepared.value.shown.revision
  }

  /** A preview in flight is the last one asked for, with the inputs shown now. */
  ghost predicate PreparingTraced(w: World) {
    w.mutation.Some? && w.mutation.value.Preparing? ==>
      var m := w.mutation.value;
      && w.prepared.Some? && w.prepared.value.shown == m.shown && w.prepared.value.sequence == m.sequence
      && Some(m.input) == SplitPayload(m.shown, w.p.pool, w.p.hostA, w.p.hostB)
  }

  ghost predicate PreparedTraced(w: World) {
    w.p.mounted && w.prepared.Some? && Standing(w, w.prepared.value) ==>
      w.p.caseID == w.prepared.value.caseID && RecordTraced(w, w.prepared.value)
  }

  /** Loads carry earlier sequences; the current one is for the selected case. */
  ghost predicate LoadsBounded(w: World) {
    && (forall s :: s in w.loads ==> 0 < s <= w.p.sequence && w.loads[s].id > 0)
    && (w.p.mounted && w.p.sequence in w.loads ==> !w.p.caseFailed)
    && (w.p.mounted && w.p.sequence in w.loads ==> w.loads[w.p.sequence].id == w.p.caseID)
    && (w.prepared.Some? ==> w.prepared.value.sequence <= w.p.sequence)
  }

  /** The draft's base is the snapshot it started from. */
  ghost predicate DraftTraced(w: World) {
    && (w.snapshot.None? ==> w.p.draftBase.revision == 0 && w.p.draftCaseID == 0)
    && (w.snapshot.Some? ==>
          && w.p.draftBase == Base(w.snapshot.value.revision, w.snapshot.value.observation, w.snapshot.value.conclusion)
          && (w.p.draftCaseID == 0 || w.p.draftCaseID == w.snapshot.value.id))
    && (w.landed == if w.snapshot.Some? then Some(w.snapshot.value.id) else None)
  }

  /** A confirmation waits only for a switch away from the case its rendering showed. */
  ghost predicate SwitchesAway(w: World) {
    forall s :: s in w.switches ==> s.id > 0 && s.id != s.render.caseID
  }

  ghost predicate BusyMirrors(w: World) {
    && (w.p.mounted ==> (w.p.busy <==> w.mutation.Some?))
    && (w.mutation.Some? && w.mutation.value.Reopening? && w.mutation.value.id.Some? ==>
          w.mutation.value.id.value > 0 && w.mutation.value.reset)
  }

  /** A record shown carries a positive id, and so does its parent. */
  ghost predicate IdsPositive(w: World) {
    w.p.record.Some? ==>
      w.p.record.value.id > 0 && (w.p.record.value.parent.Some? ==> w.p.record.value.parent.value > 0)
  }

  ghost predicate Inv(w: World) {
    && PreviewTraced(w) && PreparingTraced(w) && PreparedTraced(w)
    && LoadsBounded(w) && DraftTraced(w) && SwitchesAway(w) && BusyMirrors(w) && IdsPositive(w)
  }

  lemma StartKeeps()
    ensures Inv(START)
  {
  }

  lemma OpensKeeps(w: World, r: Render, id: int, reset: bool, discard: bool)
    requires Inv(w) && id > 0
    ensures Inv(Opens(w, r, id, reset, discard))
  {
    hide SplitPayload;
  }

  lemma DroppedKeeps(w: World, choice: nat)
    requires Inv(w) && choice < |w.switches|
    ensures Inv(Dropped(w, choice))
  {
    hide SplitPayload;
  }

  lemma LandedDraft(w: World, sequence: nat, reply: LoadReply)
    requires LoadsBounded(w) && DraftTraced(w) && sequence in w.loads
    ensures DraftTraced(Landed(w, sequence, reply))
  {
  }

  lemma LandedPreview(w: World, sequence: nat, reply: LoadReply)
    requires PreviewTraced(w) && PreparingTraced(w) && sequence in w.loads
    ensures PreviewTraced(Landed(w, sequence, reply)) && PreparingTraced(Landed(w, sequence, reply))
  {
    hide SplitPayload;
    hide DraftReplaced;
  }

  lemma LandedPrepared(w: World, sequence: nat, reply: LoadReply)
    requires PreparedTraced(w) && LoadsBounded(w) && sequence in w.loads
    ensures PreparedTraced(Landed(w, sequence, reply)) && LoadsBounded(Landed(w, sequence, reply))
  {
    hide DraftReplaced;
  }

  lemma LandedRest(w: World, sequence: nat, reply: LoadReply)
    requires SwitchesAway(w) && BusyMirrors(w) && IdsPositive(w) && LoadsBounded(w)
    requires sequence in w.loads && ParentPositive(reply)
    ensures SwitchesAway(Landed(w, sequence, reply)) && BusyMirrors(Landed(w, sequence, reply))
    ensures IdsPositive(Landed(w, sequence, reply))
  {
    hide DraftReplaced;
  }

  lemma LandedKeeps(w: World, sequence: nat, reply: LoadReply)
    requires Inv(w) && sequence in w.loads && ParentPositive(reply)
    ensures Inv(Landed(w, sequence, reply))
  {
    hide PreviewTraced;
    hide PreparingTraced;
    hide PreparedTraced;
    hide LoadsBounded;
    hide DraftTraced;
    hide SwitchesAway;
    hide BusyMirrors;
    hide IdsPositive;
    hide Landed;
    LandedDraft(w, sequence, reply);
    LandedPreview(w, sequence, reply);
    LandedPrepared(w, sequence, reply);
    LandedRest(w, sequence, reply);
  }

  lemma LoadFailsKeeps(w: World, sequence: nat)
    requires Inv(w) && sequence in w.loads
    ensures Inv(Next(w, LoadFails(sequence)))
  {
    hide SplitPayload;
    var next := Next(w, LoadFails(sequence));
    assert PreviewTraced(next) && PreparingTraced(next);
    assert DraftTraced(next) && BusyMirrors(next) && IdsPositive(next);
    assert LoadsBounded(next);
  }

  lemma PreparesKeeps(w: World)
    requires Inv(w) && w.p.mounted
    ensures Inv(Prepares(w))
  {
    hide SplitPayload;
  }

  lemma PreviewLandsKeeps(w: World, preview: Option<Preview>)
    requires Inv(w) && Possible(w, PreviewLands(preview))
    ensures Inv(Next(w, PreviewLands(preview)))
  {
    hide SplitPayload;
    var next := Next(w, PreviewLands(preview));
    assert LoadsBounded(next) && DraftTraced(next) && SwitchesAway(next) && BusyMirrors(next) && IdsPositive(next);
    assert PreparedTraced(next);
  }

  lemma ExecutesKeeps(w: World)
    requires Inv(w)
    ensures Inv(Executes(w))
  {
    hide SplitPayload;
  }

  lemma SavesKeeps(w: World)
    requires Inv(w)
    ensures Inv(Saves(w))
  {
    hide SplitPayload;
  }

  /** Which mutation other than a preview is in flight does not matter. */
  lemma MutationKeeps(w: World, m: Mutation)
    requires Inv(w) && w.mutation.Some? && m.Finishing?
    ensures Inv(w.(mutation := Some(m)))
  {
    hide SplitPayload;
  }

  lemma OpensOnly(w: World, r: Render, id: int, reset: bool, discard: bool)
    ensures Opens(w, r, id, reset, discard).mutation == w.mutation
  {
  }

  lemma SucceedsKeeps(w: World, result: int)
    requires Inv(w) && Possible(w, MutationSucceeds(result))
    ensures Inv(Next(w, MutationSucceeds(result)))
  {
    var m := w.mutation.value;
    assert ReopenID(m, result) > 0;
    hide Inv;
    hide Opens;
    OpensKeeps(w, m.render, ReopenID(m, result), m.reset, false);
    OpensOnly(w, m.render, ReopenID(m, result), m.reset, false);
    var next := if w.p.mounted then Opens(w, m.render, ReopenID(m, result), m.reset, false) else w;
    MutationKeeps(next, Finishing(if !w.p.mounted || Asks(m.render, ReopenID(m, result), false) then 0 else w.p.sequence + 1));
  }

  lemma InputsKeep(w: World, pool: bool, hostA: string, hostB: string)
    requires Inv(w) && Possible(w, InputsChanged(pool, hostA, hostB))
    ensures Inv(Next(w, InputsChanged(pool, hostA, hostB)))
  {
    hide SplitPayload;
  }

  lemma CloseKeeps(w: World)
    requires Inv(w) && Possible(w, CloseConfirmed)
    ensures Inv(Next(w, CloseConfirmed))
  {
    hide SplitPayload;
  }

  lemma SwitchKeeps(w: World, choice: nat)
    requires Inv(w) && Possible(w, SwitchConfirmed(choice))
    ensures Inv(Next(w, SwitchConfirmed(choice)))
  {
    var s := w.switches[choice];
    assert s in w.switches && s.id > 0;
    DroppedKeeps(w, choice);
    hide Inv;
    hide Opens;
    hide Dropped;
    OpensKeeps(Dropped(w, choice), s.render, s.id, s.reset, true);
  }

  lemma NextKeeps(w: World, e: Event)
    requires Inv(w) && Possible(w, e)
    ensures Inv(Next(w, e))
  {
    hide Inv;
    hide Opens;
    hide Dropped;
    hide Landed;
    hide Prepares;
    hide Executes;
    hide Saves;
    hide Starts;
    hide Succeeds;
    hide Closed;
    hide LoadFailed;
    hide PreviewLanded;
    hide PreviewCleared;
    hide RenderOf;
    match e
    case OpenClicked(id) => OpensKeeps(w, RenderOf(w.p), id, false, false);
    case SwitchConfirmed(choice) => SwitchKeeps(w, choice);
    case SwitchDropped(choice) => DroppedKeeps(w, choice);
    case CloseConfirmed => CloseKeeps(w);
    case LoadLands(sequence, reply) => LandedKeeps(w, sequence, reply);
    case LoadFails(sequence) => LoadFailsKeeps(w, sequence);
    case InputsChanged(pool, hostA, hostB) => InputsKeep(w, pool, hostA, hostB);
    case PrepareClicked => PreparesKeeps(w);
    case PreviewLands(preview) => PreviewLandsKeeps(w, preview);
    case ExecuteClicked => ExecutesKeeps(w);
    case SaveClicked => SavesKeeps(w);
    case MutationSucceeds(result) => SucceedsKeeps(w, result);
    case DraftEdited(_, _) => OthersKeep(w, e);
    case FreezeClicked => OthersKeep(w, e);
    case OtherClicked => OthersKeep(w, e);
    case MutationFails => OthersKeep(w, e);
    case MutationEnds => OthersKeep(w, e);
    case Unmounts => OthersKeep(w, e);
  }

  lemma OthersKeep(w: World, e: Event)
    requires Inv(w) && Possible(w, e)
    requires e.DraftEdited? || e.FreezeClicked? || e.OtherClicked? || e.MutationFails? || e.MutationEnds? || e.Unmounts?
    ensures Inv(Next(w, e))
  {
    hide SplitPayload;
  }

  // ----- what was executed and saved -----

  /**
   The input executed is the payload of the case its preview was asked for, with
   the inputs shown at the click and the revision displayed. It is for the case
   displayed exactly when the preview was asked for while the displayed case was
   the selected one, or no load has replaced the record since.
   */
  ghost predicate ExecutedAsPreviewed(x: Execution) {
    && x.prepared.Some?
    && Some(x.input) == SplitPayload(x.prepared.value.shown, x.pool, x.hostA, x.hostB)
    && x.input.revision == x.shown.revision
    && (x.input.caseID == x.shown.id <==> x.prepared.value.shown.id == x.prepared.value.caseID || !x.prepared.value.reloaded)
  }

  /**
   The save carries the revision of the snapshot its draft started from (0 when
   none was ever loaded), and the snapshot is of the saved case exactly when the
   last load taken over with a valid users page was of that case.
   */
  ghost predicate SavedFromSnapshot(s: Save) {
    && s.body.revision == (if s.snapshot.Some? then s.snapshot.value.revision else 0)
    && (s.snapshot.Some? && s.snapshot.value.id == s.body.caseID <==> s.landed == Some(s.body.caseID))
  }

  ghost predicate History(w: World) {
    && (forall x :: x in w.executed ==> ExecutedAsPreviewed(x))
    && (forall s :: s in w.saved ==> SavedFromSnapshot(s))
  }

  lemma ExecutionTraced(w: World)
    requires PreviewTraced(w) && PreparedTraced(w) && w.p.mounted && ExecuteWanted(w.p).Some?
    ensures w.p.record.Some?
    ensures ExecutedAsPreviewed(
              Execution(ExecuteWanted(w.p).value, w.p.record.value, w.p.pool, w.p.hostA, w.p.hostB, w.prepared))
  {
    hide SplitPayload;
    PayloadNamesRecord(w.prepared.value.shown, w.p.pool, w.p.hostA, w.p.hostB);
  }

  lemma ExecutesHistory(w: World)
    requires Inv(w) && History(w) && w.p.mounted
    ensures History(Executes(w))
  {
    hide ExecutedAsPreviewed;
    hide SavedFromSnapshot;
    hide PreviewTraced;
    hide PreparingTraced;
    hide PreparedTraced;
    hide LoadsBounded;
    hide DraftTraced;
    hide SwitchesAway;
    hide BusyMirrors;
    hide ExecuteWanted;
    hide ExecuteBegun;
    hide RenderOf;
    if ExecuteWanted(w.p).Some? {
      ExecutionTraced(w);
    }
  }

  lemma SavesHistory(w: World)
    requires Inv(w) && History(w)
    ensures History(Saves(w))
  {
    hide ExecutedAsPreviewed;
  }

  lemma NextHistory(w: World, e: Event)
    requires Inv(w) && History(w) && Possible(w, e)
    ensures History(Next(w, e))
  {
    hide Opened;
    hide LoadFailed;
    hide Closed;
    hide PrepareBegun;
    hide PreviewLanded;
    hide ExecuteBegun;
    hide Asks;
    hide ReplyValid;
    hide DraftReplaced;
    hide PrepareWanted;
    hide SplitPayload;
    hide PreviewCleared;
    hide RenderOf;
    match e
    case ExecuteClicked => ExecutesHistory(w);
    case SaveClicked => SavesHistory(w);
    case _ =>
      hide Inv;
      hide ExecutedAsPreviewed;
      hide SavedFromSnapshot;
      hide LoadLanded;
  }

  lemma {:induction false} RunKeeps(w: World, events: seq<Event>)
    requires Inv(w) && History(w) && ValidRun(w, events)
    ensures Inv(After(w, events)) && History(After(w, events))
    decreases |events|
  {
    hide Inv;
    hide History;
    hide Next;
    hide Possible;
    if events != [] {
      NextKeeps(w, events[0]);
      NextHistory(w, events[0]);
      RunKeeps(Next(w, events[0]), events[1..]);
    }
  }

  /** In every run, every split executed was previewed as stated. */
  lemma EveryExecutionWasPreviewed(events: seq<Event>)
    requires ValidRun(START, events)
    ensures forall x :: x in After(START, events).executed ==> ExecutedAsPreviewed(x)
  {
    StartKeeps();
    RunKeeps(START, events);
  }

  /** In every run, every save carries the revision its draft started from. */
  lemma EverySaveCarriesItsBase(events: seq<Event>)
    requires ValidRun(START, events)
    ensures forall s :: s in After(START, events).saved ==> SavedFromSnapshot(s)
  {
    StartKeeps();
    RunKeeps(START, events);
  }

  // ----- building runs -----

  ghost predicate Reachable(w: World) {
    exists events :: ValidRun(START, events) && After(START, events) == w
  }

  lemma {:induction false} RunAppend(w: World, events: seq<Event>, e: Event)
    requires ValidRun(w, events) && Possible(After(w, events), e)
    ensures ValidRun(w, events + [e]) && After(w, events + [e]) == Next(After(w, events), e)
    decreases |events|
  {
    hide Next;
    hide Possible;
    if events == [] {
      assert events + [e] == [e];
    } else {
      RunAppend(Next(w, events[0]), events[1..], e);
      assert (events + [e])[1..] == events[1..] + [e];
    }
  }

  lemma Steps(w: World, e: Event)
    requires Reachable(w) && Possible(w, e)
    ensures Reachable(Next(w, e))
  {
    hide Next;
    hide Possible;
    var events :| ValidRun(START, events) && After(START, events) == w;
    RunAppend(START, events, e);
    assert ValidRun(START, events + [e]);
  }

  lemma Does(w: World, e: Event) returns (next: World)
    requires Reachable(w) && Possible(w, e)
    ensures Reachable(next) && next == Next(w, e)
  {
    Steps(w, e);
    next := Next(w, e);
  }

  lemma Displays(w: World, c: Case) returns (next: World)
    requires Reachable(w) && !RenderOf(w.p).dirty && c.revision > 0 && c.id != w.p.caseID
    requires Offered(w, c.id) && ParentPositive(LoadReply(c, true))
    ensures Reachable(next)
    ensures next == Landed(Opens(w, RenderOf(w.p), c.id, false, false), w.p.sequence + 1, LoadReply(c, true))
  {
    hide Prepares;
    hide Executes;
    hide Saves;
    hide Starts;
    hide Succeeds;
    hide PreviewLanded;
    hide Closed;
    hide LoadFailed;
    next := Does(w, OpenClicked(c.id));
    next := Does(next, LoadLands(next.p.sequence, LoadReply(c, true)));
  }
}
