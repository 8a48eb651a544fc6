// Prepare, send and commit of execution pages (bot/execution_output_runtime.py).
//
// Every prepare hands out a receipt naming the exact ledger object it installed
// or saw.  A commit does something only while that object is still resident, and
// doing it replaces the object: a receipt is good for one change.
module ExecutionOutput {
  import opened Wrappers
  import opened ExecutionPages
  import opened BindingSessions

  datatype InitialReceipt = InitialReceipt(handle: RuntimeHandle, ledger: ExecutionPageLedger, page: ExecutionPage) {
    // The receipt names the opening page of its own ledger, as a prepare makes it.
    predicate Exact() { ledger.HoldsInitialOpening(page) }
  }

  datatype RolloverReceipt = RolloverReceipt(
    handle: RuntimeHandle, ledger: ExecutionPageLedger, active: ExecutionPage, opening: ExecutionPage)
  {
    predicate Exact() { ledger.HoldsRolloverOpening(active, opening) }
  }

  datatype ReconciliationReceipt = ReconciliationReceipt(
    handle: RuntimeHandle, ledger: ExecutionPageLedger, page: ExecutionPage)
  {
    predicate Exact() { ledger.HoldsSendUnknown(page) }
  }

  datatype OutputError =
    | LedgerRefuses(error: LedgerError)
    | MessageIdNotAllowed
    | CursorBeyondTranscript

  // The ledger transition each outcome of a send stands for.
  function InitialEvent(outcome: SendOutcome, messageId: string): LedgerEvent {
    match outcome
    case Confirmed => ActivateOpening(messageId)
    case Unknown => MarkSendUnknown
    case Rejected => DiscardOpening
  }

  function RolloverEvent(outcome: SendOutcome, messageId: string): LedgerEvent {
    match outcome
    case Confirmed => ActivateRollover(messageId)
    case Unknown => MarkRolloverSendUnknown
    case Rejected => DiscardRolloverOpening
  }

  function ReconciliationEvent(outcome: SendOutcome, messageId: string): LedgerEvent {
    match outcome
    case Confirmed => ConfirmSendUnknown(messageId)
    case Unknown => RetainSendUnknown
    case Rejected => RejectSendUnknown
  }

  // What the outcome of a send makes of the page that was opening.
  predicate OpeningSettled(ps: seq<PageFacts>, qs: seq<PageFacts>, outcome: SendOutcome, messageId: string) {
    var n := |ps|;
    && n > 0
    && match outcome
       case Confirmed => |qs| == n && BecameActive(ps[n - 1], qs[n - 1], messageId)
       case Unknown => |qs| == n && qs[..n - 1] == ps[..n - 1] && BecameUnknown(ps[n - 1], qs[n - 1], false)
       case Rejected => qs == ps[..n - 1]
  }

  // And of an unknown one that was retried.
  predicate UnknownSettled(ps: seq<PageFacts>, qs: seq<PageFacts>, outcome: SendOutcome, messageId: string) {
    var n := |ps|;
    && n > 0
    && match outcome
       case Confirmed => |qs| == n && BecameActive(ps[n - 1], qs[n - 1], messageId)
       case Unknown => |qs| == n && qs[..n - 1] == ps[..n - 1] && BecameUnknown(ps[n - 1], qs[n - 1], true)
       case Rejected => qs == ps[..n - 1]
  }

  // A page confirmed behind an active one closes that where it begins; the others stay.
  predicate FrontClosed(ps: seq<PageFacts>, qs: seq<PageFacts>) {
    var n := |ps|;
    && |qs| == n > 0
    && (if n > 1 && ps[n - 2].status.Active? then qs[..n - 2] == ps[..n - 2] && Closed(ps[n - 2], qs[n - 2], ps[n - 1].start)
        else qs[..n - 1] == ps[..n - 1])
  }

  lemma InitialSettles(ps: seq<PageFacts>, outcome: SendOutcome, messageId: string)
    requires Reachable(ps) && Transition(ps, InitialEvent(outcome, messageId)).Ok?
    ensures var qs := Transition(ps, InitialEvent(outcome, messageId)).value;
      OpeningSettled(ps, qs, outcome, messageId) && (outcome.Confirmed? ==> |ps| == 1)
  {
    TransitionEffect(ps, InitialEvent(outcome, messageId));
  }

  lemma RolloverSettles(ps: seq<PageFacts>, outcome: SendOutcome, messageId: string)
    requires Reachable(ps) && Transition(ps, RolloverEvent(outcome, messageId)).Ok?
    ensures var qs := Transition(ps, RolloverEvent(outcome, messageId)).value;
      OpeningSettled(ps, qs, outcome, messageId) && (outcome.Confirmed? ==> FrontClosed(ps, qs))
  {
    TransitionEffect(ps, RolloverEvent(outcome, messageId));
  }

  lemma ReconciliationSettles(ps: seq<PageFacts>, outcome: SendOutcome, messageId: string)
    requires Reachable(ps) && Transition(ps, ReconciliationEvent(outcome, messageId)).Ok?
    ensures var qs := Transition(ps, ReconciliationEvent(outcome, messageId)).value;
      UnknownSettled(ps, qs, outcome, messageId) && (outcome.Confirmed? ==> FrontClosed(ps, qs))
  {
    TransitionEffect(ps, ReconciliationEvent(outcome, messageId));
  }

  // Only the ledger of this one session changed, into a new object with these pages.
  ghost predicate Installed(v: View, w: View, handle: RuntimeHandle, session: Session, facts: seq<PageFacts>) {
    && v.Snapshot(handle).Some? && w.Snapshot(handle) == Some(session)
    && session.execution.pages.Facts() == facts
    && session.execution.pages !in v.seen
    && session == v.sessions[handle.binding].(execution := session.execution)
    && session.execution == v.sessions[handle.binding].execution.(pages := session.execution.pages)
    && v.Updated(w, handle.binding, session.execution)
  }

  // What a commit does: nothing once the receipt's ledger is no longer the one
  // shown; otherwise the transition, after which it never is again.
  ghost predicate Committed(v: View, w: View, handle: RuntimeHandle, ledger: ExecutionPageLedger, e: LedgerEvent,
                            r: Result<Option<Session>, OutputError>)
  {
    && (r == Ok(None) <==> !v.Holds(handle, ledger))
    && (!(r.Ok? && r.value.Some?) ==> w == v)
    && (r.Ok? && r.value.Some? ==>
          && Transition(ledger.Facts(), e).Ok?
          && Installed(v, w, handle, r.value.value, Transition(ledger.Facts(), e).value)
          && !w.Holds(handle, ledger))
  }

  // A rollover was prepared: its opening page is in the ledger and on the receipt.
  ghost predicate RolledOver(v: View, w: View, handle: RuntimeHandle, ps: seq<PageFacts>, attemptId: string, cursor: Cursor,
                             session: Session, receipt: RolloverReceipt)
  {
    && Installed(v, w, handle, session, ps + [OpeningPage(|ps| + 1, attemptId, "", cursor)])
    && receipt.handle == handle && receipt.ledger == session.execution.pages && receipt.Exact()
  }

  // The outcomes and message ids a commit of an initial page rejects.
  predicate InitialRuleBroken(page: PageFacts, outcome: SendOutcome, messageId: string) {
    match outcome
    case Confirmed => messageId == ""
    case Unknown => messageId != "" && messageId != page.messageId
    case Rejected => messageId != ""
  }

  method SettleInitial(receipt: InitialReceipt, outcome: SendOutcome, messageId: string)
    returns (r: Result<ExecutionPageLedger, OutputError>)
    requires Reachable(receipt.ledger.Facts())
    ensures r.Ok? ==> fresh(r.value) && Reachable(r.value.Facts())
    ensures r.Ok? ==> Transition(receipt.ledger.Facts(), InitialEvent(outcome, messageId)) == Ok(r.value.Facts())
    ensures r.Ok? ==> OpeningSettled(receipt.ledger.Facts(), r.value.Facts(), outcome, messageId)
    ensures r.Ok? && outcome.Confirmed? ==> |receipt.ledger.pages| == 1
    ensures receipt.Exact() && r.Err? ==> InitialRuleBroken(receipt.page.facts, outcome, messageId)
  {
    hide OpeningSettled, Effect, Transition;
    if !outcome.Confirmed? && InitialRuleBroken(receipt.page.facts, outcome, messageId) {
      return Err(MessageIdNotAllowed);
    }
    TransitionSucceedsIff(receipt.ledger.Facts(), InitialEvent(outcome, messageId));
    var settled: Result<ExecutionPageLedger, LedgerError>;
    match outcome {
      case Confirmed => settled := receipt.ledger.ActivateOpening(receipt.page, messageId);
      case Unknown => settled := receipt.ledger.MarkSendUnknown(receipt.page);
      case Rejected => settled := receipt.ledger.DiscardOpening(receipt.page);
    }
    r := if settled.Ok? then Ok(settled.value) else Err(LedgerRefuses(settled.error));
    if r.Ok? {
      InitialSettles(receipt.ledger.Facts(), outcome, messageId);
    }
  }

  predicate RolloverRuleBroken(ps: seq<PageFacts>, outcome: SendOutcome, messageId: string) {
    if outcome.Confirmed? then messageId == "" || exists p :: p in ps && p.messageId == messageId
    else messageId != ""
  }

  method SettleRollover(receipt: RolloverReceipt, outcome: SendOutcome, messageId: string)
    returns (r: Result<ExecutionPageLedger, OutputError>)
    requires Reachable(receipt.ledger.Facts())
    ensures r.Ok? ==> fresh(r.value) && Reachable(r.value.Facts())
    ensures r.Ok? ==> Transition(receipt.ledger.Facts(), RolloverEvent(outcome, messageId)) == Ok(r.value.Facts())
    ensures r.Ok? ==> OpeningSettled(receipt.ledger.Facts(), r.value.Facts(), outcome, messageId)
    ensures r.Ok? && outcome.Confirmed? ==> FrontClosed(receipt.ledger.Facts(), r.value.Facts())
    ensures receipt.Exact() && r.Err? ==> RolloverRuleBroken(receipt.ledger.Facts(), outcome, messageId)
  {
    hide OpeningSettled, UnknownSettled, FrontClosed, Effect, Transition, LedgerOk, Reachable;
    if !outcome.Confirmed? && messageId != "" {
      return Err(MessageIdNotAllowed);
    }
    TransitionSucceedsIff(receipt.ledger.Facts(), RolloverEvent(outcome, messageId));
    var settled: Result<ExecutionPageLedger, LedgerError>;
    match outcome {
      case Confirmed => settled := receipt.ledger.ActivateRollover(receipt.active, receipt.opening, messageId);
      case Unknown => settled := receipt.ledger.MarkRolloverSendUnknown(receipt.active, receipt.opening);
      case Rejected => settled := receipt.ledger.DiscardRolloverOpening(receipt.active, receipt.opening);
    }
    r := if settled.Ok? then Ok(settled.value) else Err(LedgerRefuses(settled.error));
    if r.Ok? {
      RolloverSettles(receipt.ledger.Facts(), outcome, messageId);
    }
  }

  // The pending send may still be retried with its own identity.
  predicate Reconcilable(ps: seq<PageFacts>) {
    LastUnknown(ps) && !Last(ps).reconciliationAttempted
  }

  predicate ReconciliationRuleBroken(ps: seq<PageFacts>, outcome: SendOutcome, messageId: string) {
    match outcome
    case Confirmed =>
      || messageId == ""
      || (LastPending(ps) && Last(ps).messageId != "" && Last(ps).messageId != messageId)
      || exists i :: 0 <= i < |ps| - 1 && ps[i].messageId == messageId
    case Rejected => messageId != ""
    case Unknown => messageId != "" || (LastPending(ps) && Last(ps).reconciliationAttempted)
  }

  method SettleReconciliation(receipt: ReconciliationReceipt, outcome: SendOutcome, messageId: string)
    returns (r: Result<ExecutionPageLedger, OutputError>)
    requires Reachable(receipt.ledger.Facts())
    ensures r.Ok? ==> fresh(r.value) && Reachable(r.value.Facts())
    ensures r.Ok? ==> Transition(receipt.ledger.Facts(), ReconciliationEvent(outcome, messageId)) == Ok(r.value.Facts())
    ensures r.Ok? ==> UnknownSettled(receipt.ledger.Facts(), r.value.Facts(), outcome, messageId)
    ensures r.Ok? && outcome.Confirmed? ==> FrontClosed(receipt.ledger.Facts(), r.value.Facts())
    ensures receipt.Exact() && r.Err? ==> ReconciliationRuleBroken(receipt.ledger.Facts(), outcome, messageId)
  {
    hide OpeningSettled, UnknownSettled, FrontClosed, Effect, Transition, LedgerOk, Reachable;
    ReachableIsOk(receipt.ledger.Facts());
    if !outcome.Confirmed? && messageId != "" {
      return Err(MessageIdNotAllowed);
    }
    TransitionSucceedsIff(receipt.ledger.Facts(), ReconciliationEvent(outcome, messageId));
    var settled: Result<ExecutionPageLedger, LedgerError>;
    match outcome {
      case Confirmed => settled := receipt.ledger.ConfirmSendUnknown(receipt.page, messageId);
      case Rejected => settled := receipt.ledger.RejectSendUnknown(receipt.page);
      case Unknown => settled := receipt.ledger.RetainSendUnknown(receipt.page);
    }
    r := if settled.Ok? then Ok(settled.value) else Err(LedgerRefuses(settled.error));
    if r.Ok? {
      ReconciliationSettles(receipt.ledger.Facts(), outcome, messageId);
    }
  }

  method OpenRollover(ledger: ExecutionPageLedger, attemptId: string, cursor: Cursor)
    returns (r: Result<ExecutionPageLedger, LedgerError>)
    requires Reachable(ledger.Facts()) && LastActive(ledger.Facts())
    ensures r.Ok? ==> fresh(r.value) && Reachable(r.value.Facts())
    ensures r.Ok? ==> r.value.Facts() == ledger.Facts() + [OpeningPage(|ledger.pages| + 1, attemptId, "", cursor)]
    ensures r.Ok? ==> RolloverOpening(r.value.Facts())
    ensures r.Err? ==> !cursor.StrictlyFollows(Last(ledger.Facts()).start) || !FreshAttempt(ledger.Facts(), attemptId)
  {
    r := ledger.PrepareRollover(attemptId, cursor);
    RolloverOpens(ledger.Facts(), attemptId, cursor);
  }

  // What makes the prepare of a rollover raise.
  ghost predicate RolloverRefused(ps: seq<PageFacts>, transcriptEnd: Cursor, attemptId: string, cursor: Cursor) {
    || attemptId == ""
    || !transcriptEnd.Follows(cursor)
    || (LastActive(ps) && (!cursor.StrictlyFollows(Last(ps).start) || !FreshAttempt(ps, attemptId)))
  }

  // The rollover of a ledger whose transcript ends at `transcriptEnd`.
  method OpenWithin(ledger: ExecutionPageLedger, transcriptEnd: Cursor, attemptId: string, cursor: Cursor)
    returns (r: Result<Option<ExecutionPageLedger>, OutputError>)
    requires Reachable(ledger.Facts())
    ensures r == Ok(None) <==> transcriptEnd.Follows(cursor) && !LastActive(ledger.Facts())
    ensures r.Err? ==> RolloverRefused(ledger.Facts(), transcriptEnd, attemptId, cursor)
    ensures r.Ok? && r.value.Some? ==>
      var grown := r.value.value;
      && fresh(grown) && Reachable(grown.Facts()) && LastActive(ledger.Facts())
      && grown.Facts() == ledger.Facts() + [OpeningPage(|ledger.pages| + 1, attemptId, "", cursor)]
  {
    if !transcriptEnd.Follows(cursor) {
      return Err(CursorBeyondTranscript);
    }
    var active := ledger.FindActivePage();
    if active.None? || ledger.PendingPage().Some? {
      return Ok(None);
    }
    var prepared := OpenRollover(ledger, attemptId, cursor);
    if prepared.Err? {
      return Err(LedgerRefuses(prepared.error));
    }
    r := Ok(Some(prepared.value));
  }

  lemma RolloverOpens(ps: seq<PageFacts>, attemptId: string, cursor: Cursor)
    requires Reachable(ps) && LastActive(ps)
    ensures Admissible(ps, LedgerEvent.PrepareRollover(attemptId, cursor)) <==> Transition(ps, LedgerEvent.PrepareRollover(attemptId, cursor)).Ok?
    ensures Admissible(ps, LedgerEvent.PrepareRollover(attemptId, cursor)) ==>
      var qs := ps + [OpeningPage(|ps| + 1, attemptId, "", cursor)];
      Transition(ps, LedgerEvent.PrepareRollover(attemptId, cursor)) == Ok(qs) && Reachable(qs) && RolloverOpening(qs)
  {
    if cursor.StrictlyFollows(Last(ps).start) {
      RolloverAppended(ps, attemptId, cursor);
      assert Init(ps + [OpeningPage(|ps| + 1, attemptId, "", cursor)]) == ps;
    }
  }

  method OpenInitial(ledger: ExecutionPageLedger, attemptId: string, knownMessageId: string)
    returns (r: Result<ExecutionPageLedger, LedgerError>)
    requires Reachable(ledger.Facts()) && attemptId != ""
    ensures r.Ok? ==> fresh(r.value) && Reachable(r.value.Facts())
    ensures r.Ok? ==> r.value.Facts() == [OpeningPage(1, attemptId, knownMessageId, ORIGIN)]
    ensures r.Ok? ==> r.value.HoldsInitialOpening(r.value.pages[0])
    ensures r.Err? <==> ledger.pages != []
  {
    r := ledger.PrepareInitial(attemptId, knownMessageId);
    TransitionSucceedsIff(ledger.Facts(), LedgerEvent.PrepareInitial(attemptId, knownMessageId));
    assert |ledger.Facts()| == |ledger.pages|;
  }

  // The card a delayed patch was meant for is still the one to patch: same thread
  // and turn, and the same message or the same pending page.
  predicate TicketMatches(s: Session, ticket: PatchTicket) {
    var x := s.execution;
    && ticket.binding == s.handle.binding && ticket.threadId == s.threadId && ticket.turnId == x.turnId
    && if ticket.pageAttemptId != "" then
         && LastUnknown(x.pages.Facts()) && Last(x.pages.Facts()).attemptId == ticket.pageAttemptId
         && ticket.cardMessageId in {x.CurrentMessageId(), Last(x.pages.Facts()).messageId}
       else
         ticket.cardMessageId != "" && ticket.cardMessageId == x.CurrentMessageId()
  }

  // The card to patch: the active page's message, or the pending page of that attempt.
  predicate CardStillMeant(s: Session, ticket: PatchTicket) {
    var ps := s.execution.pages.Facts();
    && s.threadId == ticket.threadId && s.execution.turnId == ticket.turnId && ps != []
    && if ticket.pageAttemptId == "" then
         exists p :: p in ps && p.status.Active? && p.messageId == ticket.cardMessageId != ""
       else
         Last(ps).status.SendUnknown? && Last(ps).attemptId == ticket.pageAttemptId
  }

  lemma MatchingIsMeant(s: Session, ticket: PatchTicket)
    requires TicketMatches(s, ticket)
    ensures CardStillMeant(s, ticket)
  {
    var ps := s.execution.pages.Facts();
    if ticket.pageAttemptId == "" {
      assert s.execution.pages.ActivePage().Some?;
      var p := s.execution.pages.ActivePage().value.facts;
      assert p in ps by {
        assert p == ps[|ps| - 1] || p == ps[|ps| - 2];
      }
    }
  }

  // Some session has exactly this timer registered.
  predicate Registered(v: View, registration: PatchRegistration) {
    var b := registration.ticket.binding;
    b in v.sessions && v.sessions[b].execution.patchTimer == Some(registration)
  }

  // What firing a ticket does to its binding: its timer is spent, and the card is
  // to be patched now exactly if the ticket still matches.
  function Fired(s: Session, ticket: PatchTicket, occurredAt: real): Execution {
    var spent := s.execution.(patchTimer := None);
    if TicketMatches(s, ticket) then spent.(lastPatchAt := occurredAt) else spent
  }

  class ExecutionOutputRuntime {
    const resident: ResidentSessions

    constructor (resident: ResidentSessions)
      ensures this.resident == resident
    {
      this.resident := resident;
    }

    ghost function Now(): View
      reads resident
    {
      resident.Now()
    }

    predicate Holds(handle: RuntimeHandle, ledger: ExecutionPageLedger)
      reads resident
    {
      resident.Snapshot(handle).Some? && resident.Snapshot(handle).value.execution.pages == ledger
    }

    predicate TargetCurrent(target: OutputTarget)
      reads resident
    {
      var s := resident.Snapshot(target.execution.handle);
      s.Some? && target.Matches(s.value)
    }

    method Install(handle: RuntimeHandle, ledger: ExecutionPageLedger) returns (session: Session)
      requires resident.Valid() && resident.Snapshot(handle).Some?
      requires ledger !in resident.seen && Reachable(ledger.Facts())
      modifies resident
      ensures resident.Valid() && old(Now()).Evolves(Now())
      ensures Installed(old(Now()), Now(), handle, session, ledger.Facts()) && session.execution.pages == ledger
    {
      session := resident.sessions[handle.binding];
      session := session.(execution := session.execution.(pages := ledger));
      resident.Update(handle.binding, session.execution);
    }

    method PrepareInitialPage(target: OutputTarget, attemptId: string, knownMessageId: string)
      returns (r: Result<Option<(Session, InitialReceipt)>, OutputError>)
      requires resident.Valid()
      modifies resident
      ensures resident.Valid() && old(Now()).Evolves(Now())
      ensures !(r.Ok? && r.value.Some?) ==> Now() == old(Now())
      ensures r.Err? <==> attemptId == "" || (old(TargetCurrent(target)) && target.execution.pages.pages != [])
      ensures r.Ok? ==> (r.value.Some? <==> old(TargetCurrent(target)))
      ensures r.Ok? && r.value.Some? ==>
        var (session, receipt) := r.value.value;
        && receipt.handle == target.execution.handle
        && Installed(old(Now()), Now(), receipt.handle, session, [OpeningPage(1, attemptId, knownMessageId, ORIGIN)])
        && receipt.ledger == session.execution.pages && receipt.Exact()
    {
      if attemptId == "" {
        return Err(LedgerRefuses(EmptyText));
      }
      if !TargetCurrent(target) {
        return Ok(None);
      }
      var ledger := OpenInitial(target.execution.pages, attemptId, knownMessageId);
      if ledger.Err? {
        return Err(LedgerRefuses(ledger.error));
      }
      var session := Install(target.execution.handle, ledger.value);
      r := Ok(Some((session, InitialReceipt(target.execution.handle, ledger.value, ledger.value.pages[0]))));
    }

    method CommitInitialPage(receipt: InitialReceipt, outcome: SendOutcome, messageId: string)
      returns (r: Result<Option<Session>, OutputError>)
      requires resident.Valid()
      modifies resident
      ensures resident.Valid() && old(Now()).Evolves(Now())
      ensures Committed(old(Now()), Now(), receipt.handle, receipt.ledger, InitialEvent(outcome, messageId), r)
      ensures r.Ok? && r.value.Some? ==>
        var ps, qs := receipt.ledger.Facts(), r.value.value.execution.pages.Facts();
        OpeningSettled(ps, qs, outcome, messageId) && (outcome.Confirmed? ==> |ps| == 1)
      ensures receipt.Exact() && r.Err? ==> InitialRuleBroken(receipt.page.facts, outcome, messageId)
    {
      hide OpeningSettled, UnknownSettled, FrontClosed, Transition, Reachable, LedgerOk, InitialEvent, RolloverEvent,
           ReconciliationEvent;
      if !Holds(receipt.handle, receipt.ledger) {
        return Ok(None);
      }
      var settled := SettleInitial(receipt, outcome, messageId);
      if settled.Err? {
        return Err(settled.error);
      }
      var session := Install(receipt.handle, settled.value);
      r := Ok(Some(session));
    }

    method InstallRollover(handle: RuntimeHandle, ghost ps: seq<PageFacts>, ledger: ExecutionPageLedger,
                           ghost attemptId: string, ghost cursor: Cursor)
      returns (session: Session, receipt: RolloverReceipt)
      requires resident.Valid() && resident.Snapshot(handle).Some?
      requires ledger !in resident.seen && Reachable(ledger.Facts())
      requires LastActive(ps) && ledger.Facts() == ps + [OpeningPage(|ps| + 1, attemptId, "", cursor)]
      modifies resident
      ensures resident.Valid() && old(Now()).Evolves(Now())
      ensures RolledOver(old(Now()), Now(), handle, ps, attemptId, cursor, session, receipt)
    {
      assert Init(ps + [OpeningPage(|ps| + 1, attemptId, "", cursor)]) == ps;
      var n := |ledger.pages|;
      session := Install(handle, ledger);
      receipt := RolloverReceipt(handle, ledger, ledger.pages[n - 2], ledger.pages[n - 1]);
    }

    // No prepare, no error: the target is stale, or its last page is not active.
    predicate NothingToRollOver(target: OutputTarget, cursor: Cursor)
      reads resident
    {
      || !TargetCurrent(target)
      || (resident.Snapshot(target.execution.handle).value.execution.transcriptEnd.Follows(cursor)
          && !LastActive(target.execution.pages.Facts()))
    }

    method PrepareRollover(target: OutputTarget, attemptId: string, cursor: Cursor)
      returns (r: Result<Option<(Session, RolloverReceipt)>, OutputError>)
      requires resident.Valid()
      modifies resident
      ensures resident.Valid() && old(Now()).Evolves(Now())
      ensures !(r.Ok? && r.value.Some?) ==> Now() == old(Now())
      ensures r == Ok(None) <==> attemptId != "" && old(NothingToRollOver(target, cursor))
      ensures r.Err? && attemptId != "" ==> old(TargetCurrent(target))
      ensures r.Err? && attemptId != "" ==> RolloverRefused(
        target.execution.pages.Facts(), old(resident.sessions)[target.execution.handle.binding].execution.transcriptEnd, attemptId, cursor)
      ensures r.Ok? && r.value.Some? ==>
        && old(TargetCurrent(target)) && LastActive(target.execution.pages.Facts())
        && RolledOver(old(Now()), Now(), target.execution.handle, target.execution.pages.Facts(), attemptId, cursor,
                      r.value.value.0, r.value.value.1)
    {
      if attemptId == "" {
        return Err(LedgerRefuses(EmptyText));
      }
      if !TargetCurrent(target) {
        return Ok(None);
      }
      var transcriptEnd := resident.Snapshot(target.execution.handle).value.execution.transcriptEnd;
      var grown := OpenWithin(target.execution.pages, transcriptEnd, attemptId, cursor);
      if grown.Err? {
        return Err(grown.error);
      }
      if grown.value.None? {
        return Ok(None);
      }
      var ledger := grown.value.value;
      var session, receipt := InstallRollover(target.execution.handle, target.execution.pages.Facts(), ledger, attemptId, cursor);
      r := Ok(Some((session, receipt)));
    }

    method CommitRollover(receipt: RolloverReceipt, outcome: SendOutcome, messageId: string)
      returns (r: Result<Option<Session>, OutputError>)
      requires resident.Valid()
      modifies resident
      ensures resident.Valid() && old(Now()).Evolves(Now())
      ensures Committed(old(Now()), Now(), receipt.handle, receipt.ledger, RolloverEvent(outcome, messageId), r)
      ensures r.Ok? && r.value.Some? ==>
        var ps, qs := receipt.ledger.Facts(), r.value.value.execution.pages.Facts();
        OpeningSettled(ps, qs, outcome, messageId) && (outcome.Confirmed? ==> FrontClosed(ps, qs))
      ensures receipt.Exact() && r.Err? ==> RolloverRuleBroken(receipt.ledger.Facts(), outcome, messageId)
    {
      hide OpeningSettled, UnknownSettled, FrontClosed, Transition, Reachable, LedgerOk, InitialEvent, RolloverEvent,
           ReconciliationEvent;
      if !Holds(receipt.handle, receipt.ledger) {
        return Ok(None);
      }
      var settled := SettleRollover(receipt, outcome, messageId);
      if settled.Err? {
        return Err(settled.error);
      }
      var session := Install(receipt.handle, settled.value);
      r := Ok(Some(session));
    }

    // A send whose outcome is unknown may be retried once: after it was retained
    // there is nothing left to prepare.
    method PrepareReconciliation(target: OutputTarget) returns (r: Option<(Session, ReconciliationReceipt)>)
      requires resident.Valid()
      ensures r.Some? <==> TargetCurrent(target) && Reconcilable(target.execution.pages.Facts())
      ensures r.Some? ==>
        && resident.Snapshot(target.execution.handle) == Some(r.value.0)
        && r.value.1 == ReconciliationReceipt(target.execution.handle, target.execution.pages,
                                              target.execution.pages.pages[|target.execution.pages.pages| - 1])
        && r.value.1.Exact()
    {
      if !TargetCurrent(target) {
        return None;
      }
      var pending := target.execution.pages.PendingPage();
      if pending.None? || !pending.value.facts.status.SendUnknown? || pending.value.facts.reconciliationAttempted {
        return None;
      }
      var session := resident.Snapshot(target.execution.handle).value;
      r := Some((session, ReconciliationReceipt(target.execution.handle, target.execution.pages, pending.value)));
    }

    method CommitReconciliation(receipt: ReconciliationReceipt, outcome: SendOutcome, messageId: string)
      returns (r: Result<Option<Session>, OutputError>)
      requires resident.Valid()
      modifies resident
      ensures resident.Valid() && old(Now()).Evolves(Now())
      ensures Committed(old(Now()), Now(), receipt.handle, receipt.ledger, ReconciliationEvent(outcome, messageId), r)
      ensures r.Ok? && r.value.Some? ==>
        var ps, qs := receipt.ledger.Facts(), r.value.value.execution.pages.Facts();
        UnknownSettled(ps, qs, outcome, messageId) && (outcome.Confirmed? ==> FrontClosed(ps, qs))
      ensures receipt.Exact() && r.Err? ==> ReconciliationRuleBroken(receipt.ledger.Facts(), outcome, messageId)
    {
      hide OpeningSettled, UnknownSettled, FrontClosed, Transition, Reachable, LedgerOk, InitialEvent, RolloverEvent,
           ReconciliationEvent;
      if !Holds(receipt.handle, receipt.ledger) {
        return Ok(None);
      }
      var settled := SettleReconciliation(receipt, outcome, messageId);
      if settled.Err? {
        return Err(settled.error);
      }
      var session := Install(receipt.handle, settled.value);
      r := Ok(Some(session));
    }

    // One timer a binding, and only for the card shown now.
    predicate MayInstall(target: OutputTarget, ticket: PatchTicket)
      reads resident
    {
      && TargetCurrent(target) && !target.patchTimerRegistered
      && TicketMatches(resident.Snapshot(target.execution.handle).value, ticket)
    }

    method InstallPatchTimer(target: OutputTarget, registration: PatchRegistration) returns (r: Option<Session>)
      requires resident.Valid()
      modifies resident
      ensures resident.Valid() && old(Now()).Evolves(Now())
      ensures r.Some? <==> old(MayInstall(target, registration.ticket))
      ensures r.None? ==> Now() == old(Now())
      ensures r.Some? ==>
        && Registered(Now(), registration) && Now().Snapshot(target.execution.handle) == r
        && old(Now()).Updated(Now(), registration.ticket.binding, r.value.execution)
        && r.value.execution == old(resident.sessions)[registration.ticket.binding].execution.(patchTimer := Some(registration))
    {
      if !TargetCurrent(target) {
        return None;
      }
      var session := resident.Snapshot(target.execution.handle).value;
      if session.execution.patchTimer.Some? || !TicketMatches(session, registration.ticket) {
        return None;
      }
      resident.Update(session.handle.binding, session.execution.(patchTimer := Some(registration)));
      r := resident.Snapshot(target.execution.handle);
    }

    // A timer that could not be started is withdrawn, unless another took its place.
    method RollbackPatchTimer(handle: RuntimeHandle, registration: PatchRegistration) returns (withdrawn: bool)
      requires resident.Valid()
      modifies resident
      ensures resident.Valid() && old(Now()).Evolves(Now())
      ensures withdrawn <==> old(resident.Snapshot(handle).Some? &&
        resident.Snapshot(handle).value.execution.patchTimer == Some(registration))
      ensures !withdrawn ==> Now() == old(Now())
      ensures withdrawn ==>
        old(Now()).Updated(Now(), handle.binding, old(resident.sessions)[handle.binding].execution.(patchTimer := None))
    {
      withdrawn := false;
      var session := resident.Snapshot(handle);
      if session.Some? && session.value.execution.patchTimer == Some(registration) {
        resident.Update(handle.binding, session.value.execution.(patchTimer := None));
        withdrawn := true;
      }
    }

    // A ticket fires only for the registration that holds this very ticket, and
    // asks for a patch only while the card it was meant for is still the one.
    method ConsumePatchTimer(ticket: PatchTicket, occurredAt: real) returns (effect: Option<Session>)
      requires resident.Valid()
      modifies resident
      ensures resident.Valid() && old(Now()).Evolves(Now())
      ensures var registered := old(ticket.binding in resident.sessions &&
          resident.sessions[ticket.binding].execution.patchTimer.Some? &&
          resident.sessions[ticket.binding].execution.patchTimer.value.ticket == ticket);
        && (!registered ==> effect == None && Now() == old(Now()))
        && (registered ==>
              && (effect.Some? <==> TicketMatches(old(resident.sessions)[ticket.binding], ticket))
              && (effect.Some? ==> effect.value.execution.lastPatchAt == occurredAt && CardStillMeant(effect.value, ticket))
              && ticket.binding in resident.sessions && resident.sessions[ticket.binding].execution.patchTimer == None
              && old(Now()).Updated(Now(), ticket.binding, Fired(old(resident.sessions)[ticket.binding], ticket, occurredAt))
              && (effect.Some? ==> effect.value == resident.sessions[ticket.binding]))
    {
      hide Reachable, CardStillMeant;
      if ticket.binding !in resident.sessions {
        return None;
      }
      var session := resident.sessions[ticket.binding];
      if session.execution.patchTimer.None? || session.execution.patchTimer.value.ticket != ticket {
        return None;
      }
      var spent := session.execution.(patchTimer := None);
      if !TicketMatches(session.(execution := spent), ticket) {
        resident.Update(ticket.binding, spent);
        return None;
      }
      MatchingIsMeant(session.(execution := spent.(lastPatchAt := occurredAt)), ticket);
      resident.Update(ticket.binding, spent.(lastPatchAt := occurredAt));
      effect := CardEffect(resident.sessions[ticket.binding]);
    }

    // A card effect needs a message to patch or a pending send to retry.
    function CardEffect(s: Session): Option<Session> {
      if s.execution.CurrentMessageId() == "" && !LastUnknown(s.execution.pages.Facts()) then None else Some(s)
    }
  }

  // A receipt changes its binding's ledger at most once, whatever happens between
  // the first commit and the second.
  lemma ReceiptIsSpent(v: View, w: View, x: View, y: View, handle: RuntimeHandle, ledger: ExecutionPageLedger,
                       e1: LedgerEvent, e2: LedgerEvent,
                       r1: Result<Option<Session>, OutputError>, r2: Result<Option<Session>, OutputError>)
    requires v.Valid() && v.Evolves(w)
    requires Committed(v, w, handle, ledger, e1, r1) && r1.Ok? && r1.value.Some?
    requires w.Evolves(x)
    requires Committed(x, y, handle, ledger, e2, r2)
    ensures r2 == Ok(None) && y == x
  {
    assert ledger in v.seen;
    assert !w.Shows(handle.binding, ledger);
  }

  // After a retained unknown, no run without a resolution of that send makes a
  // second reconciliation possible.
  lemma {:induction false} RetainedStaysRetained(ps: seq<PageFacts>, es: seq<LedgerEvent>)
    requires Reachable(ps) && LastUnknown(ps) && Last(ps).reconciliationAttempted
    requires forall e :: e in es ==> !e.ConfirmSendUnknown? && !e.RejectSendUnknown? && !e.RetireForTurnCompletion?
    ensures Run(ps, es) == ps && !Reconcilable(Run(ps, es))
    decreases |es|
  {
    if es != [] {
      assert Refusal(ps, es[0]).Some?;
      RetainedStaysRetained(ps, es[1..]);
    }
  }
}
