// Recovery of a silent execution (bot/execution_recovery_runtime.py and the staged
// watchdog of bot/execution_recovery_controller.py): prepare on the loop, read the
// thread outside it, settle on the loop, if nothing has happened in between.
module Recovery {
  import opened Wrappers
  import opened ExecutionPages
  import opened BindingSessions
  import opened IngressGate

  datatype WatchdogTarget = WatchdogTarget(execution: ExecutionTarget, registered: bool) {
    predicate Matches(s: Session) {
      execution.Matches(s) && s.execution.watchdog.Some? == registered
    }
  }

  // A watchdog's fence also compares whether one is registered.
  lemma WatchdogFenceIff(target: WatchdogTarget, s: Session)
    ensures target.Matches(s) <==> target.execution.Matches(s) && (s.execution.watchdog.None? <==> !target.registered)
  {
  }

  datatype WatchdogAction = Reconcile | Reschedule | CompactStartUnknown

  datatype WatchdogEffect = WatchdogEffect(session: Session, action: WatchdogAction)

  // The active page to finish, and the range it shows.
  datatype TerminalTarget = TerminalTarget(threadId: string, turnId: string, cardMessageId: string, start: Cursor, end: Cursor)

  datatype SnapshotPreparation = SnapshotPreparation(
    session: Session, target: ExecutionTarget, observedAt: real, threadId: string, turnId: string)

  datatype TurnStatus = Completed | Interrupted | FailedTurn | OtherStatus

  // What the read of a thread leads to.  `reply` is the length of the reply rebuilt
  // from it, when there was something to rebuild.
  datatype ThreadReading = ThreadReading(status: TurnStatus, threadActive: bool, reply: Option<nat>)

  datatype Transition = Transition(session: Session, finalize: bool, terminal: Option<TerminalTarget>)

  datatype RecoveryError = GenerationLost | TranscriptTooShort

  // `_terminal_target`; Err when the transcript is shorter than the page.
  function TerminalOf(s: Session, threadId: string, turnId: string): Result<Option<TerminalTarget>, RecoveryError> {
    var projection := s.execution.pages.ActiveProjectionEnd(s.execution.transcriptEnd);
    if s.execution.CurrentMessageId() == "" || projection.None? then Ok(None)
    else if projection.value.Err? then Err(TranscriptTooShort)
    else
      Ok(Some(TerminalTarget(threadId, turnId, s.execution.CurrentMessageId(), s.execution.pages.ActivePage().value.facts.start,
                             projection.value.value)))
  }

  // The local turn has not been acknowledged upstream yet.
  predicate AwaitsStart(x: Execution) {
    x.CurrentMessageId() != "" && x.awaitingTurnStarted && (x.awaitingAttachSettle || x.turnId == "")
  }

  // The action of a watchdog that fires while its turn is still running.
  function ActionOf(x: Execution, occurredAt: real, compactTimeout: real): WatchdogAction {
    if !AwaitsStart(x) then Reconcile
    else if x.kind == "compact" && compactTimeout != 0.0 && x.startedAt != 0.0 && occurredAt - x.startedAt >= compactTimeout
    then CompactStartUnknown
    else Reschedule
  }

  // The watchdog reads the thread unless its start is still awaited, whose only
  // acknowledgement then is the next event; a compact start that has waited too long
  // is given up.
  ghost predicate ActsOn(x: Execution, action: WatchdogAction, occurredAt: real, compactTimeout: real) {
    var awaits := x.CurrentMessageId() != "" && x.awaitingTurnStarted && (x.awaitingAttachSettle || x.turnId == "");
    && (action.Reconcile? <==> !awaits)
    && (action.CompactStartUnknown? <==>
          && awaits && x.kind == "compact" && compactTimeout != 0.0 && x.startedAt != 0.0
          && occurredAt - x.startedAt >= compactTimeout)
  }

  // The execution a watchdog was set for is still the one that runs.
  predicate WatchdogCurrent(s: Session, ticket: WatchdogTicket) {
    && s.threadId == ticket.threadId && s.execution.CurrentMessageId() == ticket.cardMessageId
    && s.execution.turnId == ticket.turnId && s.execution.running
  }

  // A reading applies to the execution it was prepared for, unobserved since.
  predicate AppliesTo(p: SnapshotPreparation, s: Option<Session>) {
    && s.Some? && p.target.Matches(s.value)
    && s.value.threadId == p.threadId && s.value.execution.lastEventAt == p.observedAt
  }

  // The execution after a reading was applied: a reply never gets shorter, an
  // interrupted turn is cancelled, and a thread still at work is acknowledged.
  function Applied(x: Execution, reading: ThreadReading, occurredAt: real): Execution {
    var replied :=
      if reading.reply.Some? && reading.reply.value >= x.transcriptEnd.replyChars
      then x.(transcriptEnd := x.transcriptEnd.(replyChars := reading.reply.value)) else x;
    var cancelled := if reading.status.Interrupted? then replied.(cancelled := true) else replied;
    if StillRunning(reading) then
      cancelled.(running := true, awaitingTurnStarted := false, awaitingAttachSettle := false,
                 lastEventAt := occurredAt, degraded := false)
    else cancelled
  }

  predicate StillRunning(reading: ThreadReading) {
    reading.threadActive && reading.status.OtherStatus?
  }

  // What a reading changes, field by field.  Only a thread that is still at work counts
  // as an event and acknowledges the start of the turn.
  ghost predicate ReadingApplied(was: Execution, now: Execution, reading: ThreadReading, occurredAt: real) {
    && now.transcriptEnd.replyChars >= was.transcriptEnd.replyChars
    && (reading.reply.Some? && reading.reply.value >= was.transcriptEnd.replyChars ==>
          now.transcriptEnd.replyChars == reading.reply.value)
    && (reading.reply.None? || reading.reply.value < was.transcriptEnd.replyChars ==>
          now.transcriptEnd.replyChars == was.transcriptEnd.replyChars)
    && now.transcriptEnd.processChars == was.transcriptEnd.processChars
    && now.pages == was.pages && now.turnId == was.turnId && now.promptId == was.promptId && now.kind == was.kind
    && now.startedAt == was.startedAt && now.lastPatchAt == was.lastPatchAt
    && now.patchTimer == was.patchTimer && now.watchdog == was.watchdog
    && (now.cancelled <==> was.cancelled || reading.status.Interrupted?)
    && (reading.threadActive && reading.status.OtherStatus? ==>
          && now.running && !now.awaitingTurnStarted && !now.awaitingAttachSettle
          && now.lastEventAt == occurredAt && !now.degraded)
    && (!reading.threadActive || !reading.status.OtherStatus? ==>
          && now.running == was.running && now.awaitingTurnStarted == was.awaitingTurnStarted
          && now.awaitingAttachSettle == was.awaitingAttachSettle
          && now.lastEventAt == was.lastEventAt && now.degraded == was.degraded)
  }

  lemma AppliedIs(was: Execution, reading: ThreadReading, occurredAt: real)
    ensures ReadingApplied(was, Applied(was, reading, occurredAt), reading, occurredAt)
  {
  }

  // The page to finish is the active one, up to where a pending page begins or to the
  // end of the transcript; there is none exactly without an active page.
  ghost predicate FinishesActivePage(s: Session, threadId: string, turnId: string, terminal: Option<TerminalTarget>) {
    var ps := s.execution.pages.Facts();
    match terminal
    case None => forall p :: p in ps ==> !p.status.Active?
    case Some(t) =>
      && t.threadId == threadId && t.turnId == turnId && ps != []
      && t.end == (if Last(ps).status.Active? then s.execution.transcriptEnd else Last(ps).start)
      && exists p :: p in ps && p.status.Active? && p.messageId == t.cardMessageId && p.start == t.start
  }

  lemma TerminalIs(s: Session, threadId: string, turnId: string)
    requires LedgerOk(s.execution.pages.Facts()) && TerminalOf(s, threadId, turnId).Ok?
    ensures FinishesActivePage(s, threadId, turnId, TerminalOf(s, threadId, turnId).value)
  {
    var ps := s.execution.pages.Facts();
    if s.execution.pages.ActivePage().Some? {
      var i := if LastActive(ps) then |ps| - 1 else |ps| - 2;
      assert ps[i] == s.execution.pages.ActivePage().value.facts && ps[i].WellFormed();
    }
  }

  // With a thread still at work there is nothing to finalize.
  function TransitionTo(s: Session, reading: ThreadReading, p: SnapshotPreparation): Transition
    requires !StillRunning(reading) ==> TerminalOf(s, p.threadId, p.turnId).Ok?
  {
    if StillRunning(reading) then Transition(s, false, None)
    else Transition(s, true, TerminalOf(s, p.threadId, p.turnId).value)
  }

  // `has_active_execution_locked`.
  predicate HasActiveExecution(x: Execution) {
    || x.pages.PendingPage().Some?
    || (x.pages.ActivePage().Some? && (x.running || x.awaitingTurnStarted || x.turnId != ""))
    || (x.running && (x.awaitingTurnStarted || x.turnId != ""))
  }

  // A send is unresolved, or something runs and is known by a page or a turn.
  ghost predicate ActivelyExecutes(x: Execution) {
    var ps := x.pages.Facts();
    || (ps != [] && (Last(ps).status.Opening? || Last(ps).status.SendUnknown?))
    || (ps != [] && Last(ps).status.Active? && (x.running || x.awaitingTurnStarted || x.turnId != ""))
    || (x.running && (x.awaitingTurnStarted || x.turnId != ""))
  }

  class RecoveryRuntime {
    const resident: ResidentSessions

    constructor (resident: ResidentSessions)
      ensures this.resident == resident
    {
      this.resident := resident;
    }

    ghost function Now(): View
      reads resident
    {
      resident.Now()
    }

    // A watchdog is only ever set for a running execution with a thread.
    method PrepareWatchdog(target: WatchdogTarget) returns (r: Option<(Session, Option<WatchdogTicket>)>)
      requires resident.Valid()
      modifies resident
      ensures resident.Valid() && old(Now()).Evolves(Now())
      ensures var s := old(resident.Snapshot(target.execution.handle));
        && (r.Some? <==> s.Some? && target.Matches(s.value))
        && (r.None? ==> Now() == old(Now()))
        && (r.Some? ==> old(Now()).Updated(Now(), s.value.handle.binding, s.value.execution.(watchdog := None)))
        && (r.Some? ==>
              && r.value.0 == resident.sessions[s.value.handle.binding]
              && (r.value.1.Some? <==> s.value.execution.running && s.value.threadId != "")
              && (r.value.1.Some? ==>
                    var t := r.value.1.value;
                    && t.binding == s.value.handle.binding && t.threadId == s.value.threadId
                    && t.turnId == s.value.execution.turnId && t.cardMessageId == s.value.execution.CurrentMessageId()))
    {
      hide Reachable;
      var s := resident.Snapshot(target.execution.handle);
      if s.None? || !target.Matches(s.value) {
        return None;
      }
      resident.Update(s.value.handle.binding, s.value.execution.(watchdog := None));
      var updated := resident.sessions[s.value.handle.binding];
      if !updated.execution.running || updated.threadId == "" {
        return Some((updated, None));
      }
      var ticket := new WatchdogTicket(s.value.handle.binding, updated.threadId, updated.execution.CurrentMessageId(), updated.execution.turnId);
      r := Some((updated, Some(ticket)));
    }

    method InstallWatchdog(target: WatchdogTarget, registration: WatchdogRegistration) returns (r: Option<Session>)
      requires resident.Valid()
      modifies resident
      ensures resident.Valid() && old(Now()).Evolves(Now())
      ensures var s := old(resident.Snapshot(target.execution.handle));
        var t := registration.ticket;
        && (r.Some? <==>
              && s.Some? && target.Matches(s.value) && s.value.execution.watchdog.None?
              && t.binding == s.value.handle.binding && t.threadId == s.value.threadId
              && t.cardMessageId == s.value.execution.CurrentMessageId() && t.turnId == s.value.execution.turnId)
        && (r.None? ==> Now() == old(Now()))
        && (r.Some? ==>
              && old(Now()).Updated(Now(), t.binding, s.value.execution.(watchdog := Some(registration)))
              && r == resident.Snapshot(target.execution.handle))
    {
      hide Reachable;
      var s := resident.Snapshot(target.execution.handle);
      if s.None? || !target.Matches(s.value) {
        return None;
      }
      var t := registration.ticket;
      if s.value.execution.watchdog.Some? || t.binding != s.value.handle.binding || t.threadId != s.value.threadId ||
         t.cardMessageId != s.value.execution.CurrentMessageId() || t.turnId != s.value.execution.turnId {
        return None;
      }
      resident.Update(t.binding, s.value.execution.(watchdog := Some(registration)));
      r := resident.Snapshot(target.execution.handle);
    }

    // A ticket fires only for the registration that holds it, which is spent; it
    // has an effect only while the execution it was set for still runs.
    method ConsumeWatchdog(ticket: WatchdogTicket, occurredAt: real, compactTimeout: real) returns (r: Option<WatchdogEffect>)
      requires resident.Valid()
      modifies resident
      ensures resident.Valid() && old(Now()).Evolves(Now())
      ensures var s := old(Now().At(ticket.binding));
        var registered := s.Some? && s.value.execution.watchdog.Some? && s.value.execution.watchdog.value.ticket == ticket;
        && (!registered ==> r == None && Now() == old(Now()))
        && (registered ==>
              && old(Now()).Updated(Now(), ticket.binding, s.value.execution.(watchdog := None))
              && (r.Some? <==>
                    && s.value.threadId == ticket.threadId && s.value.execution.turnId == ticket.turnId
                    && s.value.execution.CurrentMessageId() == ticket.cardMessageId && s.value.execution.running)
              && (r.Some? ==> r.value.session == resident.sessions[ticket.binding]
                              && r.value.action == ActionOf(s.value.execution, occurredAt, compactTimeout)
                              && ActsOn(s.value.execution, r.value.action, occurredAt, compactTimeout)))
    {
      hide Reachable;
      if ticket.binding !in resident.sessions {
        return None;
      }
      var s := resident.sessions[ticket.binding];
      if s.execution.watchdog.None? || s.execution.watchdog.value.ticket != ticket {
        return None;
      }
      resident.Update(ticket.binding, s.execution.(watchdog := None));
      var session := resident.sessions[ticket.binding];
      if session.threadId != ticket.threadId || session.execution.CurrentMessageId() != ticket.cardMessageId ||
         session.execution.turnId != ticket.turnId || !session.execution.running {
        return None;
      }
      r := Some(WatchdogEffect(session, ActionOf(session.execution, occurredAt, compactTimeout)));
    }

    // What a prepare freezes is what a settle later compares with.
    method PrepareSnapshot(target: ExecutionTarget, threadId: string, turnId: string) returns (r: Option<SnapshotPreparation>)
      ensures var s := resident.Snapshot(target.handle);
        && (r.Some? <==>
              && s.Some? && target.Matches(s.value) && (threadId != "" ==> s.value.threadId == threadId)
              && !(threadId != "" && turnId == "" && s.value.execution.CurrentMessageId() != ""
                   && s.value.execution.awaitingTurnStarted
                   && (s.value.execution.awaitingAttachSettle || s.value.execution.turnId == "")))
        && (r.Some? ==> r.value == SnapshotPreparation(s.value, target, s.value.execution.lastEventAt, threadId, turnId))
        && (r.Some? && threadId != "" ==> AppliesTo(r.value, Now().At(target.handle.binding)))
    {
      var s := resident.Snapshot(target.handle);
      if s.None? || !target.Matches(s.value) {
        return None;
      }
      if threadId != "" && s.value.threadId != threadId {
        return None;
      }
      if threadId != "" && turnId == "" && AwaitsStart(s.value.execution) {
        return None;
      }
      r := Some(SnapshotPreparation(s.value, target, s.value.execution.lastEventAt, threadId, turnId));
    }

    // A reading changes the execution, or asks to finalize it, only if it applies.
    method ApplySnapshot(p: SnapshotPreparation, reading: ThreadReading, occurredAt: real)
      returns (r: Result<Option<Transition>, RecoveryError>)
      requires resident.Valid()
      modifies resident
      ensures resident.Valid() && old(Now()).Evolves(Now())
      ensures r == Ok(None) <==> !AppliesTo(p, old(Now()).At(p.target.handle.binding))
      ensures r == Ok(None) ==> Now() == old(Now())
      ensures r != Ok(None) ==>
        var s := old(Now()).At(p.target.handle.binding).value;
        var t := s.(execution := Applied(s.execution, reading, occurredAt));
        && old(Now()).Updated(Now(), p.target.handle.binding, t.execution)
        && (r.Err? <==> !StillRunning(reading) && TerminalOf(t, p.threadId, p.turnId).Err?)
        && (r.Err? ==> r.error == TranscriptTooShort)
        && (r.Ok? ==> r.value == Some(TransitionTo(t, reading, p)))
      ensures r != Ok(None) ==>
        && p.target.handle.binding in resident.sessions
        && ReadingApplied(old(Now()).At(p.target.handle.binding).value.execution,
                          resident.sessions[p.target.handle.binding].execution, reading, occurredAt)
      ensures r.Ok? && r.value.Some? ==>
        && r.value.value.session == resident.sessions[p.target.handle.binding]
        && (r.value.value.finalize <==> !(reading.threadActive && reading.status.OtherStatus?))
        && (!r.value.value.finalize ==> r.value.value.terminal.None?)
        && (r.value.value.finalize ==>
              FinishesActivePage(r.value.value.session, p.threadId, p.turnId, r.value.value.terminal))
    {
      hide Reachable, Applied, TerminalOf, ReadingApplied, FinishesActivePage, LedgerOk;
      var s := resident.Snapshot(p.target.handle);
      if s.None? || !p.target.Matches(s.value) || s.value.threadId != p.threadId || s.value.execution.lastEventAt != p.observedAt {
        return Ok(None);
      }
      var b := p.target.handle.binding;
      var x := ApplyReading(s.value.execution, reading, occurredAt);
      AppliedIs(s.value.execution, reading, occurredAt);
      resident.Update(b, x);
      var t := resident.sessions[b];
      if reading.threadActive && reading.status.OtherStatus? {
        return Ok(Some(Transition(t, false, None)));
      }
      var terminal := TerminalOf(t, p.threadId, p.turnId);
      ReachableIsOk(t.execution.pages.Facts());
      if terminal.Ok? {
        TerminalIs(t, p.threadId, p.turnId);
      }
      r := if terminal.Err? then Err(TranscriptTooShort) else Ok(Some(Transition(t, true, terminal.value)));
    }

    method ApplyReading(was: Execution, reading: ThreadReading, occurredAt: real) returns (x: Execution)
      ensures x == Applied(was, reading, occurredAt) && x.pages == was.pages
    {
      x := was;
      if reading.reply.Some? && reading.reply.value >= x.transcriptEnd.replyChars {
        x := x.(transcriptEnd := x.transcriptEnd.(replyChars := reading.reply.value));
      }
      if reading.status.Interrupted? {
        x := x.(cancelled := true);
      }
      if reading.threadActive && reading.status.OtherStatus? {
        x := x.(running := true, awaitingTurnStarted := false, awaitingAttachSettle := false,
                lastEventAt := occurredAt, degraded := false);
      }
    }

    // Finish locally what the upstream no longer knows; it changes nothing yet.
    method PrepareTerminalFallback(p: SnapshotPreparation) returns (r: Result<Option<Transition>, RecoveryError>)
      ensures var s := Now().At(p.target.handle.binding);
        && (r == Ok(None) <==> !(AppliesTo(p.(threadId := if s.Some? && p.threadId == "" then s.value.threadId else p.threadId), s)))
        && (r.Err? ==> TerminalOf(s.value, p.threadId, p.turnId).Err?)
        && (r.Ok? && r.value.Some? ==>
              && r.value.value.session == s.value && r.value.value.finalize
              && Ok(r.value.value.terminal) == TerminalOf(s.value, p.threadId, p.turnId))
    {
      var s := resident.Snapshot(p.target.handle);
      if s.None? || !p.target.Matches(s.value) {
        return Ok(None);
      }
      if (p.threadId != "" && s.value.threadId != p.threadId) || s.value.execution.lastEventAt != p.observedAt {
        return Ok(None);
      }
      var terminal := TerminalOf(s.value, p.threadId, p.turnId);
      r := if terminal.Err? then Err(terminal.error) else Ok(Some(Transition(s.value, true, terminal.value)));
    }

    method MarkDegraded(p: SnapshotPreparation) returns (r: Option<Session>)
      requires resident.Valid()
      modifies resident
      ensures resident.Valid() && old(Now()).Evolves(Now())
      ensures var s := old(Now()).At(p.target.handle.binding);
        && (r.Some? <==> s.Some? && p.target.Matches(s.value) && s.value.execution.lastEventAt == p.observedAt
                         && ActivelyExecutes(s.value.execution))
        && (r.None? ==> Now() == old(Now()))
        && (r.Some? ==> old(Now()).Updated(Now(), p.target.handle.binding, s.value.execution.(degraded := true)))
    {
      hide Reachable;
      var s := resident.Snapshot(p.target.handle);
      if s.None? || !p.target.Matches(s.value) || s.value.execution.lastEventAt != p.observedAt ||
         !HasActiveExecution(s.value.execution) {
        return None;
      }
      resident.Update(p.target.handle.binding, s.value.execution.(degraded := true));
      r := resident.Snapshot(p.target.handle);
    }
  }

  // ------------------------------------------------- prepare, read and settle

  // A watchdog's preparation also pins the connection it will read from.
  datatype WatchdogPreparation = WatchdogPreparation(snapshot: SnapshotPreparation, generation: int)

  // A settle goes through: the reading applies, on the pinned connection.
  predicate Settles(p: WatchdogPreparation, s: Option<Session>, gate: GateState) {
    gate.Admits(p.generation) && AppliesTo(p.snapshot, s)
  }

  class WatchdogController {
    const runtime: RecoveryRuntime
    const gate: AdapterIngressGate

    constructor (runtime: RecoveryRuntime, gate: AdapterIngressGate)
      ensures this.runtime == runtime && this.gate == gate
    {
      this.runtime, this.gate := runtime, gate;
    }

    // Err when there is no live connection to pin.
    method Prepare(effect: WatchdogEffect) returns (r: Result<Option<WatchdogPreparation>, RecoveryError>)
      requires effect.session.threadId != ""
      ensures r == Ok(None) ==> !Settlable(runtime.Now(), effect.session)
      ensures r.Err? ==> !gate.Now().Admits(gate.latest)
      ensures r.Ok? && r.value.Some? ==>
        && r.value.value.snapshot.session == effect.session.(execution := r.value.value.snapshot.session.execution)
        && Settles(r.value.value, runtime.Now().At(effect.session.handle.binding), gate.Now())
    {
      var s := effect.session;
      var prepared := runtime.PrepareSnapshot(ExecutionTarget.FromSession(s), s.threadId, s.execution.turnId);
      if prepared.None? {
        return Ok(None);
      }
      var generation := gate.CaptureGeneration();
      r := if generation.None? then Err(GenerationLost) else Ok(Some(WatchdogPreparation(prepared.value, generation.value)));
    }

    // Under the gate's lock: no disconnect can come between the check and the apply.
    method Settle(p: WatchdogPreparation, reading: ThreadReading, occurredAt: real, stopRequested: bool)
      returns (r: Result<Option<Transition>, RecoveryError>)
      requires runtime.resident.Valid() && p.generation > 0
      modifies runtime.resident
      ensures runtime.resident.Valid()
      ensures stopRequested || !Settles(p, old(runtime.Now()).At(p.snapshot.target.handle.binding), gate.Now()) ==>
        runtime.Now() == old(runtime.Now()) && (r == Ok(None) || r == Err(GenerationLost))
      ensures !stopRequested && Settles(p, old(runtime.Now()).At(p.snapshot.target.handle.binding), gate.Now()) ==>
        var s := old(runtime.Now()).At(p.snapshot.target.handle.binding).value;
        && r != Ok(None) && r != Err(GenerationLost)
        && old(runtime.Now()).Updated(runtime.Now(), p.snapshot.target.handle.binding, Applied(s.execution, reading, occurredAt))
        && runtime.resident.Snapshot(p.snapshot.target.handle).Some?
        && ReadingApplied(s.execution, runtime.resident.Snapshot(p.snapshot.target.handle).value.execution, reading, occurredAt)
        && (r.Ok? ==> r.value.value.finalize == !(reading.threadActive && reading.status.OtherStatus?))
    {
      hide Applied, TerminalOf, ReadingApplied, FinishesActivePage;
      if stopRequested {
        return Ok(None);
      }
      var runs := gate.RunIfGeneration(p.generation);
      if !runs {
        return Err(GenerationLost);
      }
      r := runtime.ApplySnapshot(p.snapshot, reading, occurredAt);
    }
  }

  predicate Settlable(v: View, s: Session) {
    var t := v.Snapshot(s.handle);
    && t.Some? && ExecutionTarget.FromSession(s).Matches(t.value)
    && !(s.execution.turnId == "" && AwaitsStart(t.value.execution))
  }

  // One binding and the gate, as the rest of the service moves them.  `ledgers` and
  // `handles` are those that were ever resident.
  datatype Situation = Situation(
    session: Option<Session>, ledgers: set<ExecutionPageLedger>, handles: set<RuntimeHandle>, gate: GateState)
  {
    ghost predicate Valid() {
      && gate.Valid()
      && (session.Some? ==> session.value.handle in handles && session.value.execution.pages in ledgers)
    }
  }

  datatype Move = SessionTo(next: Option<Session>) | GateMove(event: GateEvent)

  // A live event only moves the stamp forward, a page change installs a ledger that
  // was never there, and a rebinding or retirement never brings a handle back.
  ghost predicate Possible(s: Situation, m: Move) {
    match m
    case GateMove(e) => LegalEvent(s.gate, e)
    case SessionTo(None) => true
    case SessionTo(Some(t)) =>
      if s.session.Some? && t.handle == s.session.value.handle then
        && (t.execution.pages == s.session.value.execution.pages || t.execution.pages !in s.ledgers)
        && t.execution.lastEventAt >= s.session.value.execution.lastEventAt
      else
        t.handle !in s.handles
  }

  function After(s: Situation, m: Move): Situation {
    match m
    case GateMove(e) => s.(gate := Step(s.gate, e))
    case SessionTo(None) => s.(session := None)
    case SessionTo(Some(t)) => s.(session := Some(t), ledgers := s.ledgers + {t.execution.pages}, handles := s.handles + {t.handle})
  }

  function Played(s: Situation, ms: seq<Move>): Situation
    decreases |ms|
  {
    if ms == [] then s else Played(After(s, ms[0]), ms[1..])
  }

  ghost predicate AllPossible(s: Situation, ms: seq<Move>)
    decreases |ms|
  {
    ms == [] || (Possible(s, ms[0]) && AllPossible(After(s, ms[0]), ms[1..]))
  }

  // The identities a preparation froze: handle, ledger, stamp and connection.
  predicate Undisturbed(p: WatchdogPreparation, s: Situation) {
    && s.gate.Admits(p.generation) && s.session.Some?
    && s.session.value.handle == p.snapshot.target.handle
    && s.session.value.execution.pages == p.snapshot.target.pages
    && s.session.value.execution.lastEventAt == p.snapshot.observedAt
  }

  // A live event, a page change, a rotation or retirement of the handle, or the end
  // of the connection.
  predicate Disturbs(s: Situation, m: Move, generation: int) {
    match m
    case GateMove(e) => Ends(e, generation)
    case SessionTo(t) =>
      || t.None? || s.session.None? || t.value.handle != s.session.value.handle
      || t.value.execution.pages != s.session.value.execution.pages
      || t.value.execution.lastEventAt != s.session.value.execution.lastEventAt
  }

  predicate DisturbedIn(s: Situation, ms: seq<Move>, generation: int)
    decreases |ms|
  {
    ms != [] && (Disturbs(s, ms[0], generation) || DisturbedIn(After(s, ms[0]), ms[1..], generation))
  }

  // What the fence compares by value only.
  predicate SameTurn(p: WatchdogPreparation, s: Session) {
    var t := p.snapshot.target;
    && s.threadId == t.threadId == p.snapshot.threadId && s.execution.turnId == t.turnId && s.execution.promptId == t.promptId
    && s.execution.kind == t.kind && s.execution.startedAt == t.startedAt
  }

  // The frozen identities can be lost, never regained.
  ghost predicate Known(p: WatchdogPreparation, s: Situation) {
    && s.gate.latest >= p.generation
    && p.snapshot.target.handle in s.handles && p.snapshot.target.pages in s.ledgers
    && (s.session.Some? && s.session.value.handle == p.snapshot.target.handle ==>
          s.session.value.execution.lastEventAt >= p.snapshot.observedAt)
  }

  lemma MoveDisturbs(p: WatchdogPreparation, s: Situation, m: Move)
    requires s.Valid() && Known(p, s) && Possible(s, m)
    ensures After(s, m).Valid() && Known(p, After(s, m))
    ensures !Undisturbed(p, s) ==> !Undisturbed(p, After(s, m))
    ensures Undisturbed(p, s) ==> (Undisturbed(p, After(s, m)) <==> !Disturbs(s, m, p.generation))
  {
    match m
    case GateMove(e) =>
      StepKeepsValid(s.gate, e);
      AdmittedUntilEnded(s.gate, e, p.generation);
    case SessionTo(t) =>
  }

  lemma {:induction false} UndisturbedIff(p: WatchdogPreparation, s: Situation, ms: seq<Move>)
    requires s.Valid() && Known(p, s) && Undisturbed(p, s) && AllPossible(s, ms)
    ensures Undisturbed(p, Played(s, ms)) <==> !DisturbedIn(s, ms, p.generation)
    decreases |ms|
  {
    if ms != [] {
      MoveDisturbs(p, s, ms[0]);
      if Undisturbed(p, After(s, ms[0])) {
        UndisturbedIff(p, After(s, ms[0]), ms[1..]);
      } else {
        DisturbedForever(p, After(s, ms[0]), ms[1..]);
      }
    }
  }

  lemma {:induction false} DisturbedForever(p: WatchdogPreparation, s: Situation, ms: seq<Move>)
    requires s.Valid() && Known(p, s) && !Undisturbed(p, s) && AllPossible(s, ms)
    ensures !Undisturbed(p, Played(s, ms))
    decreases |ms|
  {
    if ms != [] {
      MoveDisturbs(p, s, ms[0]);
      DisturbedForever(p, After(s, ms[0]), ms[1..]);
    }
  }

  // Settlement is linearizable: whatever happens between a prepare and its settle,
  // the settle goes through exactly if there was no live event, page change, handle
  // rotation or end of the connection in between, and the turn's facts now are
  // those prepared.
  lemma SettlesIffUndisturbed(p: WatchdogPreparation, s: Situation, ms: seq<Move>)
    requires s.Valid() && Settles(p, s.session, s.gate) && AllPossible(s, ms)
    ensures var t := Played(s, ms);
      Settles(p, t.session, t.gate) <==>
        !DisturbedIn(s, ms, p.generation) && t.session.Some? && SameTurn(p, t.session.value)
  {
    UndisturbedIff(p, s, ms);
  }

  // The turn's facts are compared by value: a turn that changed and changed back
  // without an event is not noticed.
  lemma TurnMayReturn(p: WatchdogPreparation, s: Situation, other: string)
    requires s.Valid() && Settles(p, s.session, s.gate) && other != p.snapshot.target.turnId
    ensures var away := s.session.value.(execution := s.session.value.execution.(turnId := other));
      var ms := [SessionTo(Some(away)), SessionTo(s.session)];
      && AllPossible(s, ms) && !Settles(p, After(s, ms[0]).session, s.gate)
      && Settles(p, Played(s, ms).session, Played(s, ms).gate)
  {
    var away := s.session.value.(execution := s.session.value.execution.(turnId := other));
    var ms := [SessionTo(Some(away)), SessionTo(s.session)];
    var t := After(s, ms[0]);
    assert ms[1..] == [SessionTo(s.session)] && ms[1..][1..] == [];
    assert Possible(t, ms[1]);
    assert Played(s, ms) == Played(t, ms[1..]) == Played(After(t, ms[1]), []);
  }
}
