/**
 The case drawer of the entry-evidence panel: one displayed case, an unsaved
 observation draft with the snapshot it started from, and a split preview that
 is executed later.
 */
module EvidencePanel {

  import opened Options
  import opened JsText

  /** A case; `parent` is the earlier round it links to, if any. */
  datatype Case = Case(id: int, revision: int, observation: string, conclusion: string, parent: Option<int>)

  datatype Hosts = Hosts(a: string, b: string)

  /** What `split-preview` and `split-execute` are sent. */
  datatype SplitInput = SplitInput(caseID: int, revision: int, pool: bool, hosts: Option<Hosts>)

  datatype Preview = Preview(caseID: int, revision: int, supported: bool, hasGroups: bool)

  datatype Base = Base(revision: int, observation: string, conclusion: string)

  datatype SaveBody = SaveBody(caseID: int, revision: int, observation: string, conclusion: string)

  /** The two responses of `openCase`: a case, and a page of users that may be malformed. */
  datatype LoadReply = LoadReply(detail: Case, usersValid: bool)

  /** What a callback created by one rendering knows of the state, however late it runs. */
  datatype Render = Render(caseID: int, dirty: bool)

  datatype Panel = Panel(
    caseID: int, record: Option<Case>, caseFailed: bool, observation: string, conclusion: string,
    pool: bool, hostA: string, hostB: string, preview: Option<Preview>, previewInput: Option<SplitInput>,
    sequence: nat, draftCaseID: int, draftBase: Base, busy: bool, mounted: bool)

  const FRESH_PANEL :=
    Panel(0, None, false, "", "", true, "", "", None, None, 0, 0, Base(0, "", ""), false, true)

  /** `evidenceSplitPayload`; None when it throws. */
  function SplitPayload(record: Case, pool: bool, hostA: string, hostB: string): Option<SplitInput> {
    var a, b := Trim(hostA), Trim(hostB);
    if record.id <= 0 || record.revision <= 0 then None
    else if pool then Some(SplitInput(record.id, record.revision, true, None))
    else if a == "" || b == "" || ToLower(a) == ToLower(b) then None
    else Some(SplitInput(record.id, record.revision, false, Some(Hosts(a, b))))
  }

  lemma PayloadNamesRecord(record: Case, pool: bool, hostA: string, hostB: string)
    ensures var input := SplitPayload(record, pool, hostA, hostB);
            input.Some? ==> input.value.caseID == record.id && input.value.revision == record.revision
  {
  }

  predicate DraftChanged(p: Panel) {
    p.observation != p.draftBase.observation || p.conclusion != p.draftBase.conclusion
  }

  function RenderOf(p: Panel): Render {
    Render(p.caseID, p.record.Some? && DraftChanged(p))
  }

  /** `openCase` asks for confirmation first. */
  predicate Asks(r: Render, id: int, discard: bool) {
    id != r.caseID && r.dirty && !discard
  }

  function PreviewCleared(p: Panel): Panel {
    p.(preview := None, previewInput := None)
  }

  /** `openCase` up to its `await`, called by a callback of rendering `r`. */
  function Opened(p: Panel, r: Render, id: int): Panel {
    PreviewCleared(p).(sequence := p.sequence + 1, caseID := id, caseFailed := false,
                       record := if id != r.caseID then None else p.record)
  }

  predicate ReplyValid(id: int, reply: LoadReply) {
    reply.detail.id == id && reply.detail.revision > 0
  }

  predicate Superseded(p: Panel, sequence: nat) {
    !p.mounted || sequence != p.sequence
  }

  /** The draft starts over from the loaded case. */
  predicate DraftReplaced(p: Panel, id: int, reset: bool) {
    reset || p.draftCaseID != id || !DraftChanged(p)
  }

  function LoadFailed(p: Panel, sequence: nat, id: int): Panel {
    if Superseded(p, sequence) then p
    else p.(record := if p.record.Some? && p.record.value.id == id then p.record else None, caseFailed := true)
  }

  /** `openCase` after its `await`; a malformed users page throws between the record and the draft. */
  function LoadLanded(p: Panel, sequence: nat, id: int, reset: bool, reply: LoadReply): Panel {
    if Superseded(p, sequence) then p
    else if !ReplyValid(id, reply) then LoadFailed(p, sequence, id)
    else
      var next := reply.detail;
      var q := p.(record := Some(next));
      if !reply.usersValid then q.(caseFailed := true)
      else if !DraftReplaced(p, id, reset) then q
      else q.(observation := next.observation, conclusion := next.conclusion, draftCaseID := id,
              draftBase := Base(next.revision, next.observation, next.conclusion))
  }

  /** `closeCase` once it goes ahead. */
  function Closed(p: Panel): Panel {
    if p.busy then p
    else PreviewCleared(p).(sequence := p.sequence + 1, draftCaseID := 0, caseID := 0, record := None,
                          caseFailed := false)
  }

  function PrepareWanted(p: Panel): Option<SplitInput> {
    if p.busy || p.record.None? then None else SplitPayload(p.record.value, p.pool, p.hostA, p.hostB)
  }

  function PrepareBegun(p: Panel): Panel {
    if p.busy || p.record.None? then p else PreviewCleared(p).(busy := PrepareWanted(p).Some?)
  }

  /** The response of `split-preview` for the case shown and sequence captured at the click. */
  function PreviewLanded(p: Panel, sequence: nat, shown: Case, input: SplitInput, reply: Option<Preview>): Panel {
    if Superseded(p, sequence) || reply.None? || reply.value.caseID != shown.id
       || reply.value.revision != shown.revision || !reply.value.hasGroups
    then p.(busy := false)
    else p.(busy := false, preview := reply, previewInput := Some(input))
  }

  /** The input `executeSplit` sends, if it sends one. */
  function ExecuteWanted(p: Panel): Option<SplitInput> {
    if !p.busy && p.record.Some? && p.preview.Some? && p.preview.value.supported && p.previewInput.Some?
       && p.preview.value.revision == p.record.value.revision
    then p.previewInput else None
  }

  function ExecuteBegun(p: Panel): Panel {
    if ExecuteWanted(p).None? then p else PreviewCleared(p).(busy := true)
  }

  function SaveWanted(p: Panel): Option<SaveBody> {
    if p.busy || p.record.None? then None
    else Some(SaveBody(p.record.value.id, p.draftBase.revision, p.observation, p.conclusion))
  }

  class EvidencePanel {
    var caseID: int
    var record: Option<Case>
    var caseFailed: bool
    var observation: string
    var conclusion: string
    var pool: bool
    var hostA: string
    var hostB: string
    var preview: Option<Preview>
    var previewInput: Option<SplitInput>
    var sequence: nat
    var draftCaseID: int
    var draftBase: Base
    var busy: bool
    var mounted: bool

    function View(): Panel
      reads this
    {
      Panel(caseID, record, caseFailed, observation, conclusion, pool, hostA, hostB, preview, previewInput,
            sequence, draftCaseID, draftBase, busy, mounted)
    }

    constructor ()
      ensures View() == FRESH_PANEL
    {
      caseID, record, caseFailed, observation, conclusion := 0, None, false, "", "";
      pool, hostA, hostB, preview, previewInput := true, "", "", None, None;
      sequence, draftCaseID, draftBase, busy, mounted := 0, 0, Base(0, "", ""), false, true;
    }

    method InvalidatePreview()
      modifies this`preview, this`previewInput
      ensures View() == PreviewCleared(old(View()))
    {
      preview, previewInput := None, None;
    }

    /** False when it asks for confirmation instead. */
    method OpenCase(render: Render, id: int, discard: bool) returns (done: bool)
      modifies this
      ensures done <==> !Asks(render, id, discard)
      ensures View() == if done then Opened(old(View()), render, id) else old(View())
    {
      if id != render.caseID && render.dirty && !discard {
        return false;
      }
      sequence := sequence + 1;
      caseID, caseFailed := id, false;
      InvalidatePreview();
      if id != render.caseID {
        record := None;
      }
      return true;
    }

    method ReceiveLoad(request: nat, id: int, reset: bool, reply: LoadReply)
      modifies this
      ensures View() == LoadLanded(old(View()), request, id, reset, reply)
      ensures Superseded(old(View()), request) ==> View() == old(View())
    {
      if !mounted || request != sequence {
        return;
      }
      var next := reply.detail;
      if next.id != id || next.revision <= 0 {
        ReceiveLoadFailure(request, id);
        return;
      }
      record := Some(next);
      if !reply.usersValid {
        caseFailed := true;
        return;
      }
      var dirtyDraft := observation != draftBase.observation || conclusion != draftBase.conclusion;
      if reset || draftCaseID != id || !dirtyDraft {
        observation, conclusion := next.observation, next.conclusion;
        draftCaseID := id;
        draftBase := Base(next.revision, next.observation, next.conclusion);
      }
    }

    method ReceiveLoadFailure(request: nat, id: int)
      modifies this
      ensures View() == LoadFailed(old(View()), request, id)
    {
      if mounted && request == sequence {
        if record.None? || record.value.id != id {
          record := None;
        }
        caseFailed := true;
      }
    }

    /** `closeCase` behind its confirmation. */
    method CloseCase()
      modifies this
      ensures View() == Closed(old(View()))
    {
      if busy {
        return;
      }
      InvalidatePreview();
      sequence := sequence + 1;
      draftCaseID, caseID, record, caseFailed := 0, 0, None, false;
    }

    /** The input to preview, or None when no request goes out. */
    method BeginPrepare() returns (input: Option<SplitInput>)
      modifies this
      ensures View() == PrepareBegun(old(View())) && input == PrepareWanted(old(View()))
    {
      if busy || record.None? {
        return None;
      }
      InvalidatePreview();
      input := SplitPayload(record.value, pool, hostA, hostB);
      busy := input.Some?;
    }

    method ReceivePreview(request: nat, shown: Case, input: SplitInput, reply: Option<Preview>)
      modifies this
      ensures View() == PreviewLanded(old(View()), request, shown, input, reply)
    {
      busy := false;
      if reply.None? || !mounted || request != sequence {
        return;
      }
      var result := reply.value;
      if result.caseID == shown.id && result.revision == shown.revision && result.hasGroups {
        preview, previewInput := reply, Some(input);
      }
    }

    /** The input to execute, or None when no request goes out. */
    method BeginExecute() returns (input: Option<SplitInput>)
      modifies this
      ensures View() == ExecuteBegun(old(View())) && input == ExecuteWanted(old(View()))
    {
      if busy || record.None? || preview.None? || !preview.value.supported || previewInput.None?
         || preview.value.revision != record.value.revision {
        return None;
      }
      busy := true;
      input := previewInput;
      InvalidatePreview();
    }

    method BeginSave() returns (body: Option<SaveBody>)
      modifies this`busy
      ensures body == SaveWanted(old(View()))
      ensures View() == old(View()).(busy := old(busy) || body.Some?)
    {
      if busy || record.None? {
        return None;
      }
      busy := true;
      return Some(SaveBody(record.value.id, draftBase.revision, observation, conclusion));
    }
  }
}
