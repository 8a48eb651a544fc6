// The state of one resident binding, its durable record, and the projections
// between them (bot/binding_runtime_state_factory.py, bot/binding_runtime_lifecycle.py).
// Approval policies, permission profiles and paths are taken as normalized.
module BindingRecords {
  import opened Wrappers
  import opened ExecutionPages

  // `feishu_runtime_state`: empty, attached or detached.
  datatype Attachment = NoRuntime | Attached | Detached

  datatype Setting = ApprovalPolicy | PermissionsProfile | Model | ReasoningEffort

  datatype Settings = Settings(
    approvalPolicy: string, permissionsProfile: string, model: string, reasoningEffort: string, configured: seq<Setting>)

  // The durable record of a binding.
  datatype Record = Record(workingDir: string, threadId: string, title: string, attachment: Attachment, settings: Settings) {
    predicate IsEmpty() {
      workingDir == "" && threadId == "" && title == "" && attachment.NoRuntime? && settings.configured == []
    }
  }

  // The execution part of the state; timers stand for their registrations.
  datatype Turn = Turn(
    pages: seq<PageFacts>, turnId: string, running: bool, awaitingTurnStarted: bool,
    patchTimer: Option<nat>, watchdog: Option<nat>)

  const IDLE_TURN := Turn([], "", false, false, None, None)

  datatype State = State(
    workingDir: string, threadId: string, title: string, attachment: Attachment, settings: Settings,
    goal: string, plan: string, turn: Turn)
  {
    predicate Inflight() {
      turn.running || turn.awaitingTurnStarted || turn.turnId != ""
    }

    predicate AttachedTo(t: string) {
      attachment.Attached? && threadId == t && t != ""
    }

    // `ThreadStateChanged`.
    function WithThread(dir: string, thread: string, newTitle: string, newAttachment: Attachment): State {
      this.(workingDir := dir, threadId := thread, title := newTitle, attachment := newAttachment)
    }

    // `project_detached_locked` and `project_deactivated_locked`: no timer survives.
    function TimersDetached(): State {
      this.(turn := turn.(patchTimer := None, watchdog := None))
    }

    // A page whose send is unresolved cannot be forgotten.
    predicate Replaceable() {
      !LastPending(turn.pages)
    }

    // `project_thread_replaced_locked`.
    function ThreadReplaced(): State {
      this.(turn := IDLE_TURN, goal := "")
    }

    // `project_after_bind_locked`.
    function AfterBind(): State {
      this.(plan := "")
    }

    // `project_thread_cleared_locked`.
    function ThreadCleared(): State {
      ThreadReplaced().AfterBind()
    }
  }

  datatype Factory = Factory(workingDir: string, approvalPolicy: string, permissionsProfile: string, model: string, effort: string) {
    predicate Valid() {
      approvalPolicy != "" && permissionsProfile != ""
    }

    function DefaultState(): State {
      State(workingDir, "", "", NoRuntime, Settings(approvalPolicy, permissionsProfile, model, effort, []), "", "", IDLE_TURN)
    }

    // `hydrate_stored_binding`: an attached record comes back detached, which the
    // flag reports.
    function Hydrated(state: State, record: Record): (State, bool) {
      var s := state.(
        workingDir := if record.workingDir != "" then record.workingDir else workingDir,
        threadId := record.threadId,
        title := record.title,
        attachment := if record.attachment.Attached? then Detached else record.attachment,
        settings := record.settings.(
          approvalPolicy := if record.settings.approvalPolicy != "" then record.settings.approvalPolicy else approvalPolicy,
          permissionsProfile :=
            if record.settings.permissionsProfile != "" then record.settings.permissionsProfile else permissionsProfile));
      (s, record.attachment.Attached?)
    }

    // `stored_binding_from_runtime`.
    function Stored(s: State): Record {
      Record(
        if s.workingDir == workingDir then "" else s.workingDir,
        s.threadId,
        s.title,
        if s.threadId == "" then NoRuntime else s.attachment,
        s.settings.(permissionsProfile :=
          if s.settings.permissionsProfile == "" then permissionsProfile else s.settings.permissionsProfile))
    }

    // A state with the settings every resident state has.
    predicate Settled(s: State) {
      s.settings.approvalPolicy != "" && s.settings.permissionsProfile != ""
    }

    // Storing a state and loading it again gives the same directory, thread, title and
    // settings, with the claim to be attached withdrawn; a second time nothing changes.
    lemma HydrationRoundTrip(state: State, s: State)
      requires Valid() && Settled(s)
      ensures var (loaded, downgraded) := Hydrated(state, Stored(s));
        && loaded.workingDir == (if s.workingDir == "" then workingDir else s.workingDir)
        && loaded.threadId == s.threadId && loaded.title == s.title && loaded.settings == s.settings
        && loaded.attachment ==
             (if s.threadId == "" then NoRuntime else if s.attachment == Attached then Detached else s.attachment)
        && (downgraded <==> s.attachment == Attached && s.threadId != "")
        && Hydrated(state, Stored(loaded)) == (loaded, false)
    {
    }
  }
}
