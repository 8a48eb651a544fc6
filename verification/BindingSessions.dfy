// The resident sessions the execution-card code works on: immutable snapshots
// taken under the runtime lock, the fence a command carries from one lock to the
// next (bot/binding_runtime_contract.py), and the map of resident bindings.
module BindingSessions {
  import opened Wrappers
  import opened ExecutionPages

  type BindingKey = (string, string)

  // Opaque identity of one resident incarnation; compared as an object.
  class RuntimeHandle {
    const issuer: nat
    const binding: BindingKey
    const incarnation: nat

    constructor (issuer: nat, binding: BindingKey, incarnation: nat)
      ensures this.issuer == issuer && this.binding == binding && this.incarnation == incarnation
    {
      this.issuer, this.binding, this.incarnation := issuer, binding, incarnation;
    }
  }

  // Identity of one delayed patch of an execution card.
  class PatchTicket {
    const binding: BindingKey
    const threadId: string
    const cardMessageId: string
    const turnId: string
    const pageAttemptId: string

    constructor (binding: BindingKey, threadId: string, cardMessageId: string, turnId: string, pageAttemptId: string)
      ensures this.binding == binding && this.threadId == threadId && this.cardMessageId == cardMessageId
      ensures this.turnId == turnId && this.pageAttemptId == pageAttemptId
    {
      this.binding, this.threadId, this.cardMessageId := binding, threadId, cardMessageId;
      this.turnId, this.pageAttemptId := turnId, pageAttemptId;
    }
  }

  // A registered timer: one object, holding the ticket it will present.
  class PatchRegistration {
    const ticket: PatchTicket

    constructor (ticket: PatchTicket)
      ensures this.ticket == ticket
    {
      this.ticket := ticket;
    }
  }

  // Identity of one recovery watchdog, and its registered timer.
  class WatchdogTicket {
    const binding: BindingKey
    const threadId: string
    const cardMessageId: string
    const turnId: string

    constructor (binding: BindingKey, threadId: string, cardMessageId: string, turnId: string)
      ensures this.binding == binding && this.threadId == threadId
      ensures this.cardMessageId == cardMessageId && this.turnId == turnId
    {
      this.binding, this.threadId, this.cardMessageId, this.turnId := binding, threadId, cardMessageId, turnId;
    }
  }

  class WatchdogRegistration {
    const ticket: WatchdogTicket

    constructor (ticket: WatchdogTicket)
      ensures this.ticket == ticket
    {
      this.ticket := ticket;
    }
  }

  datatype Execution = Execution(
    turnId: string,
    promptId: string,
    kind: string,
    startedAt: real,
    pages: ExecutionPageLedger,
    transcriptEnd: Cursor,
    running: bool,
    cancelled: bool,
    awaitingTurnStarted: bool,
    awaitingAttachSettle: bool,
    degraded: bool,
    lastEventAt: real,
    lastPatchAt: real,
    patchTimer: Option<PatchRegistration>,
    watchdog: Option<WatchdogRegistration>)
  {
    // Message id of the active page, empty when there is none.
    function CurrentMessageId(): string {
      var active := pages.ActivePage();
      if active.Some? then active.value.facts.messageId else ""
    }
  }

  datatype Session = Session(handle: RuntimeHandle, threadId: string, execution: Execution)

  // The fence of one execution: the handle and the ledger by identity, the rest
  // of the business facts by value.
  datatype ExecutionTarget = ExecutionTarget(
    handle: RuntimeHandle,
    threadId: string,
    turnId: string,
    pages: ExecutionPageLedger,
    promptId: string,
    kind: string,
    startedAt: real)
  {
    static function FromSession(s: Session): ExecutionTarget {
      var x := s.execution;
      ExecutionTarget(s.handle, s.threadId, x.turnId, x.pages, x.promptId, x.kind, x.startedAt)
    }

    predicate Matches(s: Session) {
      && s.handle == handle
      && s.threadId == threadId
      && s.execution.turnId == turnId
      && s.execution.pages == pages
      && s.execution.promptId == promptId
      && s.execution.kind == kind
      && s.execution.startedAt == startedAt
    }
  }

  datatype OutputTarget = OutputTarget(execution: ExecutionTarget, lastPatchAt: real, patchTimerRegistered: bool) {
    static function FromSession(s: Session): OutputTarget {
      OutputTarget(ExecutionTarget.FromSession(s), s.execution.lastPatchAt, s.execution.patchTimer.Some?)
    }

    predicate Matches(s: Session) {
      && execution.Matches(s)
      && s.execution.lastPatchAt == lastPatchAt
      && s.execution.patchTimer.Some? == patchTimerRegistered
    }
  }

  // A fence taken from one session holds for another exactly if this is the same
  // incarnation with the same ledger object and the same facts of the turn, and for an
  // output command the same patches so far and pending.
  lemma FenceHoldsIff(s: Session, t: Session)
    ensures ExecutionTarget.FromSession(s).Matches(t) <==>
      && t.handle == s.handle && t.execution.pages == s.execution.pages && t.threadId == s.threadId
      && t.execution.turnId == s.execution.turnId && t.execution.promptId == s.execution.promptId
      && t.execution.kind == s.execution.kind && t.execution.startedAt == s.execution.startedAt
    ensures OutputTarget.FromSession(s).Matches(t) <==>
      && ExecutionTarget.FromSession(s).Matches(t)
      && t.execution.lastPatchAt == s.execution.lastPatchAt
      && (t.execution.patchTimer.Some? <==> s.execution.patchTimer.Some?)
  {
  }

  // The resident sessions as a value.  `seen` remembers every ledger object that
  // ever was resident: the code installs newly built ledgers only.
  datatype View = View(sessions: map<BindingKey, Session>, seen: set<ExecutionPageLedger>) {
    ghost predicate Valid() {
      forall b :: b in sessions ==>
        && sessions[b].handle.binding == b
        && sessions[b].execution.pages in seen
        && Reachable(sessions[b].execution.pages.Facts())
    }

    function At(b: BindingKey): Option<Session> {
      if b in sessions then Some(sessions[b]) else None
    }

    predicate Shows(b: BindingKey, ledger: ExecutionPageLedger) {
      b in sessions && sessions[b].execution.pages == ledger
    }

    // No ledger that a binding lost comes back to it.
    ghost predicate Evolves(later: View) {
      && seen <= later.seen
      && forall b, ledger :: ledger in seen && !Shows(b, ledger) ==> !later.Shows(b, ledger)
    }

    // `session_snapshot_locked`: only the current handle object is an authority.
    function Snapshot(handle: RuntimeHandle): Option<Session> {
      if handle.binding in sessions && sessions[handle.binding].handle == handle
      then Some(sessions[handle.binding]) else None
    }

    // A handle reaches the session of its binding only while it is that session's own.
    lemma OnlyCurrentHandles(handle: RuntimeHandle)
      ensures Snapshot(handle).None? <==> forall b :: b in sessions && b == handle.binding ==> sessions[b].handle != handle
      ensures Snapshot(handle).Some? ==> Snapshot(handle).value.handle == handle && Snapshot(handle) == At(handle.binding)
    {
    }

    // The ledger object is still the one shown for this handle.
    predicate Holds(handle: RuntimeHandle, ledger: ExecutionPageLedger) {
      Snapshot(handle).Some? && Snapshot(handle).value.execution.pages == ledger
    }

    ghost predicate TranscriptsKept(later: View) {
      forall b :: b in sessions && b in later.sessions && later.sessions[b].handle == sessions[b].handle ==>
        later.sessions[b].execution.transcriptEnd == sessions[b].execution.transcriptEnd
    }

    // Only this session's execution changed.
    ghost predicate Updated(later: View, binding: BindingKey, execution: Execution) {
      && binding in sessions
      && later.sessions == sessions[binding := sessions[binding].(execution := execution)]
      && later.seen == seen + {execution.pages}
    }
  }

  class ResidentSessions {
    var sessions: map<BindingKey, Session>
    ghost var seen: set<ExecutionPageLedger>

    ghost function Now(): View
      reads this
    {
      View.View(sessions, seen)
    }

    ghost predicate Valid()
      reads this
    {
      Now().Valid()
    }

    function Snapshot(handle: RuntimeHandle): (s: Option<Session>)
      reads this
      ensures s == Now().Snapshot(handle)
    {
      if handle.binding in sessions && sessions[handle.binding].handle == handle
      then Some(sessions[handle.binding]) else None
    }

    // Change one session in place.
    method Update(binding: BindingKey, execution: Execution)
      requires Valid() && binding in sessions
      requires execution.pages == sessions[binding].execution.pages || execution.pages !in seen
      requires Reachable(execution.pages.Facts())
      modifies this
      ensures Valid() && old(Now()).Evolves(Now())
      ensures old(Now()).Updated(Now(), binding, execution)
    {
      sessions := sessions[binding := sessions[binding].(execution := execution)];
      seen := seen + {execution.pages};
      UpdateEvolves(old(Now()), Now(), binding, execution);
    }

    // Whatever happens while the lock is free: events, rebinding, page commits,
    // retirement, all through freshly built ledgers.  The transcript of a session
    // that keeps its handle is taken to stay as it is.
    method Interfere()
      requires Valid()
      modifies this
      ensures Valid() && old(Now()).Evolves(Now())
      ensures old(Now()).TranscriptsKept(Now())
    {
    }
  }

  lemma UpdateEvolves(v: View, w: View, binding: BindingKey, execution: Execution)
    requires v.Valid() && v.Updated(w, binding, execution)
    requires execution.pages == v.sessions[binding].execution.pages || execution.pages !in v.seen
    requires Reachable(execution.pages.Facts())
    ensures w.Valid() && v.Evolves(w)
  {
    forall b, ledger | ledger in v.seen && !v.Shows(b, ledger) ensures !w.Shows(b, ledger) {
      if b == binding {
        assert execution.pages != ledger;
      }
    }
  }

  // A ledger that is gone stays gone, however many steps are taken.
  lemma EvolvesComposes(u: View, v: View, w: View)
    requires u.Evolves(v) && v.Evolves(w)
    ensures u.Evolves(w)
  {
  }
}
