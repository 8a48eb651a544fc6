// Presenting a running turn: patch the active page, or roll over to as many new
// pages as the transcript needs (bot/execution_output_controller.py).
//
// Every effect leaves the lock, and anything may happen to the binding meanwhile
// (`ResidentSessions.Interfere`).  Whether a range fits a page, how a send ends
// and which attempt id a page gets are parameters, one for each round.
module LiveRollover {
  import opened Wrappers
  import opened ExecutionPages
  import opened PageReceipts
  import opened TerminalPagination
  import opened BindingSessions
  import opened ExecutionOutput

  // How the send of a new page ends; an exception leaves its outcome unknown.
  datatype Send = SendRaised | NotSent | MaybeSent | SendOk(messageId: string) {
    function Outcome(): SendOutcome {
      match this
      case SendOk(_) => Confirmed
      case NotSent => Rejected
      case _ => Unknown
    }

    function MessageId(): string {
      if SendOk? then messageId else ""
    }
  }

  datatype LivePorts = LivePorts(
    fits: (nat, Cursor, Cursor) -> bool,
    sends: nat -> Send,
    attempts: nat -> string,
    reconciliation: Send)
  {
    function FitsIn(round: nat): (Cursor, Cursor) -> bool {
      (start, end) => fits(round, start, end)
    }
  }

  datatype LiveError =
    | Output(error: OutputError)
    | PrecedesPage
    | PageTooSmall(fit: FitError)
    | RolloverDidNotAdvance

  // The pages of a first page, after its send; one with a reserved message is
  // patched into that message instead.
  function FirstPage(attemptId: string, reserved: string, send: Send): seq<PageFacts> {
    var opening := OpeningPage(1, attemptId, reserved, ORIGIN);
    match send.Outcome()
    case Confirmed => [opening.(messageId := FirstMessageId(reserved, send), status := Active)]
    case Rejected => []
    case Unknown => [opening.(status := SendUnknown)]
  }

  function FirstMessageId(reserved: string, send: Send): string {
    match send.Outcome()
    case Confirmed => if reserved != "" then reserved else send.MessageId()
    case Rejected => ""
    case Unknown => reserved
  }

  lemma FirstPageSettled(attemptId: string, reserved: string, send: Send)
    ensures var opening := OpeningPage(1, attemptId, reserved, ORIGIN);
      var e := InitialEvent(send.Outcome(), FirstMessageId(reserved, send));
      && (Transition([opening], e).Ok? ==> Transition([opening], e).value == FirstPage(attemptId, reserved, send))
      && (InitialRuleBroken(opening, send.Outcome(), FirstMessageId(reserved, send)) ==>
            send.SendOk? && reserved == "" && send.messageId == "")
  {
  }

  // The pages of one rollover, after its send.
  function Advanced(ps: seq<PageFacts>, attemptId: string, cursor: Cursor, send: Send): seq<PageFacts>
    requires ps != []
  {
    var opening := OpeningPage(|ps| + 1, attemptId, "", cursor);
    match send.Outcome()
    case Confirmed =>
      Init(ps) + [SealedAt(Last(ps), cursor), opening.(messageId := send.MessageId(), status := Active)]
    case Rejected => ps
    case Unknown => ps + [opening.(status := SendUnknown)]
  }

  // A commit of what a prepare has opened leads there.
  lemma OpenedThenSettled(ps: seq<PageFacts>, attemptId: string, cursor: Cursor, send: Send)
    requires LastActive(ps)
    ensures var qs := ps + [OpeningPage(|ps| + 1, attemptId, "", cursor)];
      var e := RolloverEvent(send.Outcome(), send.MessageId());
      Transition(qs, e).Ok? ==> Transition(qs, e).value == Advanced(ps, attemptId, cursor, send)
  {
    var qs := ps + [OpeningPage(|ps| + 1, attemptId, "", cursor)];
    assert Init(qs) == ps;
  }

  // The id rules a send may break; nothing else makes a rollover raise.
  ghost predicate IdReused(ps: seq<PageFacts>, attemptId: string, send: Send) {
    !FreshAttempt(ps, attemptId) || (send.SendOk? && !FreshMessage(ps, send.messageId))
  }

  lemma BrokenRuleIsReuse(ps: seq<PageFacts>, attemptId: string, cursor: Cursor, send: Send)
    requires RolloverRuleBroken(ps + [OpeningPage(|ps| + 1, attemptId, "", cursor)], send.Outcome(), send.MessageId())
    ensures IdReused(ps, attemptId, send)
  {
    assert send.SendOk?;
    if send.messageId != "" {
      var p :| p in ps + [OpeningPage(|ps| + 1, attemptId, "", cursor)] && p.messageId == send.messageId;
      assert p in ps;
    }
  }

  // A pending page answers under its own message id when it knows one.
  function RetriedId(page: PageFacts, send: Send): string {
    if !send.SendOk? then "" else if page.messageId != "" then page.messageId else send.messageId
  }

  // The pages after the one retry of a pending send.
  function Reconciled(ps: seq<PageFacts>, send: Send): seq<PageFacts>
    requires LastPending(ps)
  {
    match send.Outcome()
    case Confirmed => Promoted(ps, RetriedId(Last(ps), send))
    case Rejected => Init(ps)
    case Unknown => Init(ps) + [Last(ps).(reconciliationAttempted := true)]
  }

  // The retry found a message that is empty or belongs to another page.
  ghost predicate RetryReused(ps: seq<PageFacts>, send: Send) {
    send.SendOk? && LastUnknown(ps) && Last(ps).messageId == "" && !FreshMessage(ps, send.messageId)
  }

  lemma RetrySettled(ps: seq<PageFacts>, send: Send)
    requires LastPending(ps)
    ensures var e := ReconciliationEvent(send.Outcome(), RetriedId(Last(ps), send));
      Transition(ps, e).Ok? ==> Transition(ps, e).value == Reconciled(ps, send)
  {
  }

  lemma RetryRuleBroken(ps: seq<PageFacts>, send: Send)
    requires LedgerOk(ps) && Reconcilable(ps)
    requires ReconciliationRuleBroken(ps, send.Outcome(), RetriedId(Last(ps), send))
    ensures RetryReused(ps, send)
  {
    assert send.SendOk?;
    if Last(ps).messageId == "" && send.messageId != "" {
      var i :| 0 <= i < |ps| - 1 && ps[i].messageId == send.messageId;
      assert ps[i] in ps;
    }
  }

  // What a first page comes to, field by field.
  predicate FirstPageEnds(qs: seq<PageFacts>, attemptId: string, reserved: string, send: Send) {
    match send
    case NotSent => qs == []
    case SendOk(id) =>
      && |qs| == 1 && qs[0].status.Active? && qs[0].messageId == (if reserved != "" then reserved else id)
      && qs[0].attemptId == attemptId && qs[0].start == Cursor(0, 0)
    case _ =>
      && |qs| == 1 && qs[0].status.SendUnknown? && qs[0].messageId == reserved && !qs[0].reconciliationAttempted
      && qs[0].attemptId == attemptId && qs[0].start == Cursor(0, 0)
  }

  // What a rollover comes to: a confirmed send closes the active page where the new one
  // begins, an unknown or raised one leaves it active in front of a pending page, one
  // that was not made leaves everything.
  predicate RolloverEnds(ps: seq<PageFacts>, qs: seq<PageFacts>, attemptId: string, cursor: Cursor, send: Send) {
    var n := |ps|;
    match send
    case NotSent => qs == ps
    case SendOk(id) =>
      && |qs| == n + 1 > 1 && qs[..n - 1] == ps[..n - 1] && Closed(ps[n - 1], qs[n - 1], cursor)
      && qs[n].status.Active? && qs[n].messageId == id && qs[n].attemptId == attemptId && qs[n].start == cursor
    case _ =>
      && |qs| == n + 1 && qs[..n] == ps && qs[n].status.SendUnknown? && qs[n].messageId == ""
      && qs[n].attemptId == attemptId && qs[n].start == cursor && !qs[n].reconciliationAttempted
  }

  // What the retry of the pending send comes to.
  predicate RetryEnds(ps: seq<PageFacts>, qs: seq<PageFacts>, send: Send) {
    var n := |ps|;
    && n > 0
    && match send
       case NotSent => qs == ps[..n - 1]
       case SendOk(id) =>
         && |qs| == n && BecameActive(ps[n - 1], qs[n - 1], if ps[n - 1].messageId != "" then ps[n - 1].messageId else id)
         && FrontClosed(ps, qs)
       case _ => |qs| == n && qs[..n - 1] == ps[..n - 1] && BecameUnknown(ps[n - 1], qs[n - 1], true)
  }

  lemma FirstPageIs(attemptId: string, reserved: string, send: Send)
    ensures FirstPageEnds(FirstPage(attemptId, reserved, send), attemptId, reserved, send)
  {
  }

  lemma AdvancedIs(ps: seq<PageFacts>, attemptId: string, cursor: Cursor, send: Send)
    requires Reachable(ps) && LastActive(ps)
    ensures RolloverEnds(ps, Advanced(ps, attemptId, cursor, send), attemptId, cursor, send)
  {
  }

  lemma ReconciledIs(ps: seq<PageFacts>, send: Send)
    requires Reachable(ps) && LastUnknown(ps)
    ensures RetryEnds(ps, Reconciled(ps, send), send)
  {
    PromotedEffect(ps, RetriedId(Last(ps), send));
  }

  // -------------------------------------------------- what the chat shows

  // What one presentation may patch as the active page: from where that begins to
  // the end of the transcript, or to where a page is or was about to begin.
  ghost predicate Bounded(ps: seq<PageFacts>, transcriptEnd: Cursor, patch: Receipt) {
    && patch.WellFormed()
    && if RolloverPending(ps) then
         patch == Receipt(Last(Init(ps)).messageId, Last(Init(ps)).start, Last(ps).start)
       else
         && LastActive(ps) && transcriptEnd.Follows(patch.end)
         && patch.messageId == Last(ps).messageId && patch.start == Last(ps).start
  }

  // What the active page projects to is bounded; a page raises only when the
  // transcript is shorter than it is.
  lemma ProjectionBounded(ledger: ExecutionPageLedger, transcriptEnd: Cursor)
    requires ledger.Valid() && ledger.ActivePage().Some?
    ensures var ps, p := ledger.Facts(), ledger.ActivePage().value.facts;
      match ledger.ActiveProjectionEnd(transcriptEnd).value
      case Ok(end) =>
        && Bounded(ps, transcriptEnd, Receipt(p.messageId, p.start, end))
        && (ledger.PendingPage().None? ==> LastActive(ps) && Last(ps) == p && end == transcriptEnd)
      case Err(_) => LastActive(ps) && !transcriptEnd.Follows(Last(ps).start)
  {
  }

  // Everything shown after a presentation: the sealed pages and the last patch.
  // The ranges tile the transcript from the origin, each under its own message.
  lemma ShownTiles(ps: seq<PageFacts>, transcriptEnd: Cursor, patch: Receipt)
    requires LedgerOk(ps) && Bounded(ps, transcriptEnd, patch)
    ensures TilesTo(SealedReceipts(ps) + [patch], patch.end)
  {
    var n := LiveFrom(ps);
    SealedReceiptsTile(ps, n);
    assert SealedReceipts(ps)[..n] == SealedReceipts(ps);
    LiveIdIsNew(ps, n);
    TileOneMore(SealedReceipts(ps), patch);
  }

  // The patch of the active page that ends a presentation.  Unless it was frozen
  // already by a pending page, it fits, and stops short only if the rest does not.
  ghost predicate ActiveShown(ps: seq<PageFacts>, transcriptEnd: Cursor, patch: Receipt, round: nat, ports: LivePorts) {
    && Bounded(ps, transcriptEnd, patch)
    && (|| RolloverPending(ps)
        || (ports.fits(round, patch.start, patch.end)
            && (patch.end == transcriptEnd || !ports.fits(round, patch.start, transcriptEnd))))
  }

  // Every page closed by a rollover fits, and could not hold the rest.
  ghost predicate Filled(patches: seq<Receipt>, base: nat, transcriptEnd: Cursor, ports: LivePorts) {
    forall i :: base <= i < |patches| ==>
      && ports.fits(i - base, patches[i].start, patches[i].end)
      && !ports.fits(i - base, patches[i].start, transcriptEnd)
      && (patches[i].end.replyChars > patches[i].start.replyChars ==> patches[i].end.processChars == transcriptEnd.processChars)
  }

  // Why a presentation may raise: the transcript is shorter than the page, a page
  // cannot hold a single character, or an id was used twice.
  ghost predicate MayRaise(error: LiveError, ps: seq<PageFacts>, transcriptEnd: Cursor, round: nat, ports: LivePorts) {
    match error
    case PrecedesPage => LastActive(ps) && !transcriptEnd.Follows(Last(ps).start)
    case PageTooSmall(fit) =>
      && LastActive(ps) && !fit.RangeNotOrdered? && !ports.fits(round, Last(ps).start, transcriptEnd)
      && TooSmall(fit, Last(ps).start, transcriptEnd, ports.FitsIn(round))
    case Output(_) => IdReused(ps, ports.attempts(round), ports.sends(round))
    case RolloverDidNotAdvance => false
  }

  ghost predicate SameSealed(ps: seq<PageFacts>, qs: seq<PageFacts>) {
    LiveFrom(qs) == LiveFrom(ps) && SealedReceipts(qs) == SealedReceipts(ps)
  }

  // One more page is sealed, this one, and a new one is active.
  ghost predicate OneMoreSealed(ps: seq<PageFacts>, qs: seq<PageFacts>, patch: Receipt) {
    && LastActive(ps) && LastActive(qs)
    && patch.messageId == Last(ps).messageId && patch.start == Last(ps).start && patch.end == Last(qs).start
    && LiveFrom(qs) == LiveFrom(ps) + 1
    && SealedReceipts(qs) == SealedReceipts(ps) + [patch]
  }

  lemma AdvancedShows(ps: seq<PageFacts>, attemptId: string, cursor: Cursor, send: Send, transcriptEnd: Cursor)
    requires Reachable(ps) && LastActive(ps) && cursor.StrictlyFollows(Last(ps).start) && transcriptEnd.Follows(cursor)
    ensures var qs := Advanced(ps, attemptId, cursor, send);
      && (send.SendOk? ==>
            && |qs| == |ps| + 1 && qs[|ps| - 1] == SealedAt(Last(ps), cursor) && Last(qs).start == cursor
            && OneMoreSealed(ps, qs, ReceiptOf(SealedAt(Last(ps), cursor))))
      && (!send.SendOk? ==>
            && SameSealed(ps, qs)
            && Bounded(qs, transcriptEnd, Receipt(Last(ps).messageId, Last(ps).start, cursor)))
  {
    var qs := Advanced(ps, attemptId, cursor, send);
    if send.SendOk? {
      assert SealedReceipts(qs) == SealedReceipts(ps) + [ReceiptOf(SealedAt(Last(ps), cursor))];
    } else if !send.NotSent? {
      assert Init(qs) == ps;
    }
  }

  // The retry seals the page in front of a pending one it confirms, and no other.
  lemma ReconciledShows(ps: seq<PageFacts>, send: Send)
    requires Reachable(ps) && LastUnknown(ps)
    ensures var qs := Reconciled(ps, send);
      if send.SendOk? && RolloverPending(ps) then
        && |qs| == |ps| && qs[|ps| - 2] == SealedAt(Last(Init(ps)), Last(ps).start)
        && SealedReceipts(qs) == SealedReceipts(ps) + [ReceiptOf(qs[|ps| - 2])]
      else
        SameSealed(ps, qs)
  {
    var qs := Reconciled(ps, send);
    if send.SendOk? && RolloverPending(ps) {
      RolloverClosed(ps);
      assert SealedReceipts(qs) == SealedReceipts(ps) + [ReceiptOf(qs[|ps| - 2])];
    }
  }

  // The patches so far are the pages sealed since ps, all but the first `base` of
  // them by rollovers.
  ghost predicate Sealing(ps: seq<PageFacts>, qs: seq<PageFacts>, transcriptEnd: Cursor, patches: seq<Receipt>, base: nat,
                          ports: LivePorts)
  {
    && Reachable(qs)
    && SealedReceipts(qs) == SealedReceipts(ps) + patches
    && base <= |patches| && Filled(patches, base, transcriptEnd, ports)
  }

  lemma SealingStarts(ps: seq<PageFacts>, qs: seq<PageFacts>, transcriptEnd: Cursor, patches: seq<Receipt>, ports: LivePorts)
    requires Reachable(qs) && SealedReceipts(qs) == SealedReceipts(ps) + patches
    ensures Sealing(ps, qs, transcriptEnd, patches, |patches|, ports)
  {
  }

  lemma NothingPresented(ps: seq<PageFacts>, transcriptEnd: Cursor, ports: LivePorts)
    requires Reachable(ps)
    ensures Presented(ps, ps, transcriptEnd, [], 0, None, ports)
  {
    assert SealedReceipts(ps) + [] == SealedReceipts(ps);
  }

  lemma SealingOneMore(ps: seq<PageFacts>, qs: seq<PageFacts>, next: seq<PageFacts>, transcriptEnd: Cursor,
                       patches: seq<Receipt>, base: nat, patch: Receipt, ports: LivePorts)
    requires Sealing(ps, qs, transcriptEnd, patches, base, ports)
    requires Reachable(next) && OneMoreSealed(qs, next, patch)
    requires ports.fits(|patches| - base, patch.start, patch.end) && !ports.fits(|patches| - base, patch.start, transcriptEnd)
    requires patch.end.replyChars > patch.start.replyChars ==> patch.end.processChars == transcriptEnd.processChars
    ensures Sealing(ps, next, transcriptEnd, patches + [patch], base, ports)
  {
    ConcatAssociates(SealedReceipts(ps), patches, [patch]);
  }

  // What a presentation leaves behind, whatever the outside did.
  ghost predicate Presented(ps: seq<PageFacts>, qs: seq<PageFacts>, transcriptEnd: Cursor, patches: seq<Receipt>, base: nat,
                            active: Option<Receipt>, ports: LivePorts)
  {
    && Sealing(ps, qs, transcriptEnd, patches, base, ports)
    && (active.Some? ==>
          && ActiveShown(qs, transcriptEnd, active.value, |patches| - base, ports)
          && TilesTo(SealedReceipts(ps) + patches + [active.value], active.value.end))
  }

  lemma SealingPresented(ps: seq<PageFacts>, qs: seq<PageFacts>, next: seq<PageFacts>, transcriptEnd: Cursor,
                         patches: seq<Receipt>, base: nat, active: Option<Receipt>, ports: LivePorts)
    requires Sealing(ps, qs, transcriptEnd, patches, base, ports)
    requires Reachable(next) && SameSealed(qs, next)
    requires active.Some? ==> ActiveShown(next, transcriptEnd, active.value, |patches| - base, ports)
    ensures Presented(ps, next, transcriptEnd, patches, base, active, ports)
  {
    if active.Some? {
      ShownTiles(next, transcriptEnd, active.value);
    }
  }

  // The pages before the loop: a pending send was retried, once.
  function AfterRetry(ps: seq<PageFacts>, send: Send): seq<PageFacts> {
    if LastUnknown(ps) then Reconciled(ps, send) else ps
  }

  // The page that a confirmed retry seals.
  function ClosedByRetry(ps: seq<PageFacts>, send: Send): seq<Receipt> {
    if LastUnknown(ps) && RolloverPending(ps) && send.SendOk?
    then [ReceiptOf(SealedAt(Last(Init(ps)), Last(ps).start))] else []
  }

  // The pages after rollovers at the ends of these patches, one for each round.
  function Rolled(ps: seq<PageFacts>, patches: seq<Receipt>, ports: LivePorts): seq<PageFacts>
    decreases |patches|
  {
    if patches == [] then ps
    else
      var n := |patches| - 1;
      var qs := Rolled(ps, patches[..n], ports);
      if qs == [] then [] else Advanced(qs, ports.attempts(n), patches[n].end, ports.sends(n))
  }

  // The last round: nothing was patched, the page frozen by a pending one was, or all
  // that was left, or the part in front of a page whose send was not confirmed.
  ghost predicate LastRound(ps: seq<PageFacts>, qs: seq<PageFacts>, transcriptEnd: Cursor, active: Option<Receipt>, round: nat,
                            ports: LivePorts)
  {
    match active
    case None => qs == ps
    case Some(patch) =>
      if LastPending(ps) then qs == ps
      else
        && (patch.end.replyChars > patch.start.replyChars ==> patch.end.processChars == transcriptEnd.processChars)
        && (|| (qs == ps && patch.end == transcriptEnd && ports.fits(round, patch.start, patch.end))
            || (ps != [] && !ports.sends(round).SendOk?
                && qs == Advanced(ps, ports.attempts(round), patch.end, ports.sends(round))))
  }

  // From the pages at hand, the retry of a pending send and then one rollover for
  // each further patch lead to the pages left.
  ghost predicate RoundsPlayed(ps: seq<PageFacts>, qs: seq<PageFacts>, transcriptEnd: Cursor, patches: seq<Receipt>, base: nat,
                               active: Option<Receipt>, ports: LivePorts)
  {
    && base <= |patches| && patches[..base] == ClosedByRetry(ps, ports.reconciliation)
    && PagesPlayed(AfterRetry(ps, ports.reconciliation), qs, transcriptEnd, patches, base, active, ports)
  }

  ghost predicate PagesPlayed(from: seq<PageFacts>, qs: seq<PageFacts>, transcriptEnd: Cursor, patches: seq<Receipt>, base: nat,
                              active: Option<Receipt>, ports: LivePorts)
  {
    && base <= |patches|
    && LastRound(Rolled(from, patches[base..], ports), qs, transcriptEnd, active, |patches| - base, ports)
  }

  lemma RetriedThenPlayed(ps: seq<PageFacts>, qs: seq<PageFacts>, transcriptEnd: Cursor, closed: seq<Receipt>,
                          patches: seq<Receipt>, active: Option<Receipt>, ports: LivePorts)
    requires closed == ClosedByRetry(ps, ports.reconciliation) && closed <= patches
    requires PagesPlayed(AfterRetry(ps, ports.reconciliation), qs, transcriptEnd, patches, |closed|, active, ports)
    ensures RoundsPlayed(ps, qs, transcriptEnd, patches, |closed|, active, ports)
  {
  }

  // What the loop keeps after `round` rollovers.
  ghost predicate Playing(ps: seq<PageFacts>, from: seq<PageFacts>, qs: seq<PageFacts>, transcriptEnd: Cursor,
                          patches: seq<Receipt>, closed: seq<Receipt>, round: nat, ports: LivePorts)
  {
    && closed <= patches && |patches| == |closed| + round
    && Sealing(ps, qs, transcriptEnd, patches, |closed|, ports)
    && (if round > 0 then LastActive(qs) else qs == from)
    && qs == Rolled(from, patches[|closed|..], ports)
  }

  lemma PlayingStarts(ps: seq<PageFacts>, from: seq<PageFacts>, transcriptEnd: Cursor, closed: seq<Receipt>, ports: LivePorts)
    requires Sealing(ps, from, transcriptEnd, closed, |closed|, ports)
    ensures Playing(ps, from, from, transcriptEnd, closed, closed, 0, ports)
  {
    assert closed[|closed|..] == [];
  }

  lemma PlayingOneMore(ps: seq<PageFacts>, from: seq<PageFacts>, qs: seq<PageFacts>, next: seq<PageFacts>, transcriptEnd: Cursor,
                       patches: seq<Receipt>, closed: seq<Receipt>, round: nat, patch: Receipt, ports: LivePorts)
    requires Playing(ps, from, qs, transcriptEnd, patches, closed, round, ports)
    requires Reachable(next) && OneMoreSealed(qs, next, patch)
    requires ports.fits(round, patch.start, patch.end) && !ports.fits(round, patch.start, transcriptEnd)
    requires patch.end.replyChars > patch.start.replyChars ==> patch.end.processChars == transcriptEnd.processChars
    requires qs != [] && next == Advanced(qs, ports.attempts(round), patch.end, ports.sends(round))
    ensures Playing(ps, from, next, transcriptEnd, patches + [patch], closed, round + 1, ports)
  {
    hide Sealing, Reachable, Advanced, Rolled, SealedReceipts, LiveFrom;
    SealingOneMore(ps, qs, next, transcriptEnd, patches, |closed|, patch, ports);
    assert (patches + [patch])[|closed|..] == patches[|closed|..] + [patch];
    RolledOneMore(from, patches[|closed|..], patch, ports);
  }

  lemma PlayingEnds(ps: seq<PageFacts>, from: seq<PageFacts>, qs: seq<PageFacts>, next: seq<PageFacts>, transcriptEnd: Cursor,
                    patches: seq<Receipt>, closed: seq<Receipt>, round: nat, active: Option<Receipt>, ports: LivePorts)
    requires Playing(ps, from, qs, transcriptEnd, patches, closed, round, ports)
    requires Reachable(next) && SameSealed(qs, next)
    requires LastRound(qs, next, transcriptEnd, active, round, ports)
    requires active.Some? ==> ActiveShown(next, transcriptEnd, active.value, round, ports)
    ensures Presented(ps, next, transcriptEnd, patches, |closed|, active, ports)
    ensures PagesPlayed(from, next, transcriptEnd, patches, |closed|, active, ports)
    ensures closed <= patches && |patches| == |closed| + round
    ensures forall i :: |closed| <= i < |patches| ==> ProcessFirst(patches[i], transcriptEnd)
    ensures active.Some? && (round > 0 || !LastPending(from)) ==> ProcessFirst(active.value, transcriptEnd)
  {
    hide Sealing, Reachable, SameSealed, LastRound, ActiveShown, Rolled, ProcessFirst;
    SealingPresented(ps, qs, next, transcriptEnd, patches, |closed|, active, ports);
    SealedProcessFirst(ps, qs, transcriptEnd, patches, |closed|, ports);
    if active.Some? && (round > 0 || !LastPending(from)) {
      LastProcessFirst(qs, next, transcriptEnd, active.value, round, ports);
    }
  }

  // Reply text is shown only behind all of the process text.
  predicate ProcessFirst(patch: Receipt, transcriptEnd: Cursor) {
    patch.end.replyChars > patch.start.replyChars ==> patch.end.processChars == transcriptEnd.processChars
  }

  lemma SealedProcessFirst(ps: seq<PageFacts>, qs: seq<PageFacts>, transcriptEnd: Cursor, patches: seq<Receipt>, base: nat,
                           ports: LivePorts)
    requires Sealing(ps, qs, transcriptEnd, patches, base, ports)
    ensures forall i :: base <= i < |patches| ==> ProcessFirst(patches[i], transcriptEnd)
  {
  }

  lemma LastProcessFirst(ps: seq<PageFacts>, qs: seq<PageFacts>, transcriptEnd: Cursor, patch: Receipt, round: nat,
                         ports: LivePorts)
    requires LastRound(ps, qs, transcriptEnd, Some(patch), round, ports) && !LastPending(ps)
    ensures ProcessFirst(patch, transcriptEnd)
  {
  }

  // A page is pending when the loop begins: its send is still open, or was retried to
  // no effect.
  predicate StillPending(ps: seq<PageFacts>, send: Send) {
    && ps != []
    && (Last(ps).status.Opening? || (Last(ps).status.SendUnknown? && (send.MaybeSent? || send.SendRaised?)))
  }

  lemma RetryLeavesPending(ps: seq<PageFacts>, send: Send)
    requires Reachable(ps)
    ensures LastPending(AfterRetry(ps, send)) <==> StillPending(ps, send)
  {
  }

  lemma SameIsSealed(qs: seq<PageFacts>, transcriptEnd: Cursor, round: nat, ports: LivePorts)
    ensures SameSealed(qs, qs) && LastRound(qs, qs, transcriptEnd, None, round, ports)
  {
  }

  lemma RolledOneMore(ps: seq<PageFacts>, patches: seq<Receipt>, patch: Receipt, ports: LivePorts)
    requires Rolled(ps, patches, ports) != []
    ensures Rolled(ps, patches + [patch], ports)
            == Advanced(Rolled(ps, patches, ports), ports.attempts(|patches|), patch.end, ports.sends(|patches|))
  {
    assert (patches + [patch])[..|patches|] == patches;
  }

  // How far the transcript reaches beyond the active page: what rollovers use up.
  function Remaining(ps: seq<PageFacts>, transcriptEnd: Cursor): nat {
    if LastActive(ps) && transcriptEnd.Follows(Last(ps).start) then transcriptEnd.Weight() - Last(ps).start.Weight() else 0
  }

  datatype Round = Shown(active: Option<Receipt>) | RolledOver(patch: Receipt) | Failed(error: LiveError)

  // The session is the one shown for its handle.
  ghost predicate Resident(v: View, s: Session) {
    v.Snapshot(s.handle) == Some(s) && Reachable(s.execution.pages.Facts())
  }

  lemma ResidentIsReachable(v: View, s: Session)
    requires Resident(v, s)
    ensures Reachable(s.execution.pages.Facts())
  {
  }

  // A later session of the same incarnation, with the same transcript.
  predicate Follows(s: Session, later: Session) {
    later.handle == s.handle && later.execution.transcriptEnd == s.execution.transcriptEnd
  }

  lemma InstalledFollows(u: View, v: View, w: View, s: Session, handle: RuntimeHandle, later: Session, facts: seq<PageFacts>)
    requires u.Snapshot(handle) == Some(s) && s.handle == handle && u.TranscriptsKept(v)
    requires Installed(v, w, handle, later, facts)
    requires w.Valid()
    ensures Follows(s, later) && Resident(w, later)
  {
  }

  // Once another ledger was installed in its place, a session is never current again.
  lemma ReplacedStaysReplaced(u: View, v: View, w: View, x: View, s: Session, later: Session, facts: seq<PageFacts>)
    requires u.Valid() && u.Snapshot(s.handle) == Some(s) && u.Evolves(v)
    requires Installed(v, w, s.handle, later, facts) && w.Evolves(x)
    ensures !x.Holds(s.handle, s.execution.pages)
  {
    var b := s.handle.binding;
    assert s.execution.pages in v.seen && s.execution.pages in w.seen;
    assert !w.Shows(b, s.execution.pages);
  }

  class LiveController {
    const runtime: ExecutionOutputRuntime

    constructor (runtime: ExecutionOutputRuntime)
      ensures this.runtime == runtime
    {
      this.runtime := runtime;
    }

    // A command prepared from this session would still apply.
    predicate Current(session: Session)
      reads runtime.resident
    {
      runtime.TargetCurrent(OutputTarget.FromSession(session))
    }

    // There is no active page, or the session is stale.
    predicate NothingToShow(session: Session)
      reads runtime.resident
    {
      session.execution.pages.ActivePage().None? || !Current(session)
    }

    // Open the first page of a turn: prepare, send or patch, commit.  None when the
    // execution went stale on the way.
    method OpenInitialPage(session: Session, attemptId: string, reserved: string, send: Send)
      returns (r: Result<Option<Session>, OutputError>)
      requires runtime.resident.Valid() && Resident(runtime.Now(), session)
      modifies runtime.resident
      ensures runtime.resident.Valid()
      ensures r.Err? ==>
        || attemptId == "" || session.execution.pages.pages != []
        || (send.SendOk? && reserved == "" && send.messageId == "")
      ensures r == Ok(None) ==> !Current(session)
      ensures r.Ok? && r.value.Some? ==>
        && Follows(session, r.value.value) && Resident(runtime.Now(), r.value.value)
        && r.value.value.execution.pages.Facts() == FirstPage(attemptId, reserved, send)
        && FirstPageEnds(r.value.value.execution.pages.Facts(), attemptId, reserved, send)
    {
      hide Reachable, LedgerOk, Transition, OpeningSettled;
      ghost var captured := runtime.Now();
      runtime.resident.Interfere();
      ghost var v := runtime.Now();
      var prepared := runtime.PrepareInitialPage(OutputTarget.FromSession(session), attemptId, reserved);
      if prepared.Err? {
        return Err(prepared.error);
      }
      if prepared.value.None? {
        return Ok(None);
      }
      var (opening, receipt) := prepared.value.value;
      ghost var w := runtime.Now();
      InstalledFollows(captured, v, w, session, session.handle, opening, [OpeningPage(1, attemptId, reserved, ORIGIN)]);
      runtime.resident.Interfere();
      ghost var x := runtime.Now();
      ReplacedStaysReplaced(captured, v, w, x, session, opening, [OpeningPage(1, attemptId, reserved, ORIGIN)]);
      var committed := runtime.CommitInitialPage(receipt, send.Outcome(), FirstMessageId(reserved, send));
      FirstPageSettled(attemptId, reserved, send);
      FirstPageIs(attemptId, reserved, send);
      if committed.Err? {
        return Err(committed.error);
      }
      if committed.value.Some? {
        InstalledFollows(w, x, runtime.Now(), opening, session.handle, committed.value.value, FirstPage(attemptId, reserved, send));
      }
      r := Ok(committed.value);
    }

    // One rollover: prepare, send, commit, with the world moving in between.
    // None when the execution went stale on the way.
    method RollOver(session: Session, cursor: Cursor, attemptId: string, send: Send)
      returns (r: Result<Option<Session>, OutputError>)
      requires runtime.resident.Valid() && Resident(runtime.Now(), session)
      requires LastActive(session.execution.pages.Facts()) && session.execution.transcriptEnd.Follows(cursor)
      requires cursor.StrictlyFollows(Last(session.execution.pages.Facts()).start)
      modifies runtime.resident
      ensures runtime.resident.Valid()
      ensures r.Err? ==> IdReused(session.execution.pages.Facts(), attemptId, send)
      ensures r == Ok(None) ==> !Current(session)
      ensures r.Ok? && r.value.Some? ==>
        && Follows(session, r.value.value) && Resident(runtime.Now(), r.value.value)
        && r.value.value.execution.pages.Facts() == Advanced(session.execution.pages.Facts(), attemptId, cursor, send)
        && RolloverEnds(session.execution.pages.Facts(), r.value.value.execution.pages.Facts(), attemptId, cursor, send)
    {
      hide Reachable, LedgerOk, Transition, RolloverEnds, OpeningSettled, FrontClosed;
      ghost var ps := session.execution.pages.Facts();
      AdvancedIs(ps, attemptId, cursor, send);
      ghost var captured := runtime.Now();
      runtime.resident.Interfere();
      ghost var v := runtime.Now();
      var prepared := runtime.PrepareRollover(OutputTarget.FromSession(session), attemptId, cursor);
      if prepared.Err? {
        return Err(prepared.error);
      }
      if prepared.value.None? {
        return Ok(None);
      }
      var (opening, receipt) := prepared.value.value;
      InstalledFollows(captured, v, runtime.Now(), session, session.handle, opening,
        ps + [OpeningPage(|ps| + 1, attemptId, "", cursor)]);
      ghost var w := runtime.Now();
      runtime.resident.Interfere();
      ghost var x := runtime.Now();
      ReplacedStaysReplaced(captured, v, w, x, session, opening, ps + [OpeningPage(|ps| + 1, attemptId, "", cursor)]);
      var committed := runtime.CommitRollover(receipt, send.Outcome(), send.MessageId());
      if committed.Err? {
        BrokenRuleIsReuse(ps, attemptId, cursor, send);
        return Err(committed.error);
      }
      if committed.value.Some? {
        OpenedThenSettled(ps, attemptId, cursor, send);
        InstalledFollows(w, x, runtime.Now(), opening, session.handle, committed.value.value,
          Advanced(ps, attemptId, cursor, send));
      }
      r := Ok(committed.value);
    }

    // Retry a pending send once, with the world moving in between.
    method Reconcile(session: Session, send: Send) returns (r: Result<Option<Session>, OutputError>)
      requires runtime.resident.Valid() && Resident(runtime.Now(), session)
      requires LastUnknown(session.execution.pages.Facts())
      modifies runtime.resident
      ensures runtime.resident.Valid()
      ensures r.Err? ==> RetryReused(session.execution.pages.Facts(), send)
      ensures r == Ok(None) ==> !Current(session) || Last(session.execution.pages.Facts()).reconciliationAttempted
      ensures r.Ok? && r.value.Some? ==>
        && Follows(session, r.value.value) && Resident(runtime.Now(), r.value.value)
        && r.value.value.execution.pages.Facts() == Reconciled(session.execution.pages.Facts(), send)
        && RetryEnds(session.execution.pages.Facts(), r.value.value.execution.pages.Facts(), send)
        && !Last(session.execution.pages.Facts()).reconciliationAttempted
    {
      hide Reachable, LedgerOk, Transition, RetryReused, Reconciled, RetryEnds, UnknownSettled, FrontClosed, Promoted, RetriedId,
           ReconciliationRuleBroken;
      ghost var ps := session.execution.pages.Facts();
      ghost var captured := runtime.Now();
      runtime.resident.Interfere();
      var prepared := runtime.PrepareReconciliation(OutputTarget.FromSession(session));
      if prepared.None? {
        return Ok(None);
      }
      var (current, receipt) := prepared.value;
      ghost var w := runtime.Now();
      assert Follows(session, current);
      runtime.resident.Interfere();
      ghost var x := runtime.Now();
      var committed := runtime.CommitReconciliation(receipt, send.Outcome(), RetriedId(receipt.page.facts, send));
      if committed.Err? {
        ReachableIsOk(ps);
        RetryRuleBroken(ps, send);
        return Err(committed.error);
      }
      if committed.value.Some? {
        RetrySettled(ps, send);
        ReconciledIs(ps, send);
        InstalledFollows(w, x, runtime.Now(), current, session.handle, committed.value.value, Reconciled(ps, send));
      }
      r := Ok(committed.value);
    }

    // The end of the page that begins at `start`, when the rest does not fit it.
    method RolloverCursor(start: Cursor, end: Cursor, round: nat, ports: LivePorts) returns (r: Result<Cursor, LiveError>)
      requires end.Follows(start) && !ports.fits(round, start, end)
      ensures r.Ok? ==> end.Follows(r.value) && r.value.StrictlyFollows(start) && ports.fits(round, start, r.value)
      ensures r.Ok? && r.value.replyChars > start.replyChars ==> r.value.processChars == end.processChars
      ensures r.Err? ==>
        r.error.PageTooSmall? && !r.error.fit.RangeNotOrdered? && TooSmall(r.error.fit, start, end, ports.FitsIn(round))
    {
      var fitted := FitPageEnd(start, end, ports.FitsIn(round));
      if fitted.Err? {
        return Err(LiveError.PageTooSmall(fitted.error));
      }
      r := if fitted.value.StrictlyFollows(start) then Ok(fitted.value) else Err(RolloverDidNotAdvance);
    }

    // Roll over at `cursor`, and patch the page that was active.
    method ShowRollover(session: Session, cursor: Cursor, round: nat, ports: LivePorts) returns (step: Round, later: Session)
      requires runtime.resident.Valid() && Resident(runtime.Now(), session)
      requires LastActive(session.execution.pages.Facts()) && session.execution.transcriptEnd.Follows(cursor)
      requires cursor.StrictlyFollows(Last(session.execution.pages.Facts()).start)
      modifies runtime.resident
      ensures runtime.resident.Valid() && Follows(session, later) && Reachable(later.execution.pages.Facts())
      ensures step.Failed? ==> step.error.Output? && later == session
      ensures step.Failed? ==> IdReused(session.execution.pages.Facts(), ports.attempts(round), ports.sends(round))
      ensures step == Shown(None) ==> later == session && !Current(session)
      ensures step.RolledOver? || (step.Shown? && step.active.Some?) ==>
        && later.execution.pages.Facts() == Advanced(session.execution.pages.Facts(), ports.attempts(round), cursor, ports.sends(round))
        && (step.RolledOver? <==> ports.sends(round).SendOk?)
      ensures step.Shown? ==> SameSealed(session.execution.pages.Facts(), later.execution.pages.Facts())
      ensures step.Shown? && step.active.Some? ==>
        var p := Last(session.execution.pages.Facts());
        && step.active.value == Receipt(p.messageId, p.start, cursor)
        && Bounded(later.execution.pages.Facts(), session.execution.transcriptEnd, step.active.value)
      ensures step.RolledOver? ==>
        && Resident(runtime.Now(), later)
        && OneMoreSealed(session.execution.pages.Facts(), later.execution.pages.Facts(), step.patch)
        && step.patch.end == cursor == Last(later.execution.pages.Facts()).start
    {
      hide Reachable, LedgerOk, IdReused;
      ghost var ps := session.execution.pages.Facts();
      var active := session.execution.pages.pages[|session.execution.pages.pages| - 1].facts;
      later := session;
      var rolled := RollOver(session, cursor, ports.attempts(round), ports.sends(round));
      if rolled.Err? {
        return Failed(Output(rolled.error)), later;
      }
      if rolled.value.None? {
        return Shown(None), later;
      }
      later := rolled.value.value;
      AdvancedShows(ps, ports.attempts(round), cursor, ports.sends(round), session.execution.transcriptEnd);
      if ports.sends(round).SendOk? {
        var page := SealedBehindActive(later.execution.pages, ps, cursor);
        step := RolledOver(Receipt(page.messageId, page.start, page.end.value));
      } else {
        step := Shown(Some(Receipt(active.messageId, active.start, cursor)));
      }
    }

    // `pages[-2]`, which exists and is closed.
    method SealedBehindActive(ledger: ExecutionPageLedger, ghost ps: seq<PageFacts>, ghost cursor: Cursor)
      returns (page: PageFacts)
      requires ps != [] && |ledger.pages| == |ps| + 1
      requires ledger.Facts()[|ps| - 1] == SealedAt(Last(ps), cursor)
      ensures page == SealedAt(Last(ps), cursor)
    {
      page := ledger.pages[|ledger.pages| - 2].facts;
    }

    // One turn of the loop.
    method ShowRound(session: Session, round: nat, ports: LivePorts) returns (step: Round, later: Session)
      requires runtime.resident.Valid() && Resident(runtime.Now(), session)
      modifies runtime.resident
      ensures runtime.resident.Valid() && Follows(session, later) && Reachable(later.execution.pages.Facts())
      ensures step.Failed? ==>
        later == session && MayRaise(step.error, session.execution.pages.Facts(), session.execution.transcriptEnd, round, ports)
      ensures step.Shown? ==> SameSealed(session.execution.pages.Facts(), later.execution.pages.Facts())
      ensures step.Shown? ==>
        LastRound(session.execution.pages.Facts(), later.execution.pages.Facts(), session.execution.transcriptEnd, step.active, round, ports)
      ensures step == Shown(None) ==> later == session && NothingToShow(session)
      ensures step.RolledOver? ==>
        && session.execution.pages.Facts() != []
        && later.execution.pages.Facts() ==
             Advanced(session.execution.pages.Facts(), ports.attempts(round), step.patch.end, ports.sends(round))
      ensures step.Shown? && step.active.Some? ==>
        ActiveShown(later.execution.pages.Facts(), session.execution.transcriptEnd, step.active.value, round, ports)
      ensures step.RolledOver? ==>
        && Resident(runtime.Now(), later)
        && OneMoreSealed(session.execution.pages.Facts(), later.execution.pages.Facts(), step.patch)
        && ports.fits(round, step.patch.start, step.patch.end)
        && !ports.fits(round, step.patch.start, session.execution.transcriptEnd)
        && (step.patch.end.replyChars > step.patch.start.replyChars ==>
              step.patch.end.processChars == session.execution.transcriptEnd.processChars)
        && Remaining(later.execution.pages.Facts(), session.execution.transcriptEnd)
             < Remaining(session.execution.pages.Facts(), session.execution.transcriptEnd)
    {
      hide Reachable, LedgerOk, IdReused;
      later := session;
      var ledger, transcriptEnd := session.execution.pages, session.execution.transcriptEnd;
      var projection := ledger.ActiveProjectionEnd(transcriptEnd);
      if projection.None? {
        return Shown(None), later;
      }
      ReachableIsOk(ledger.Facts());
      ProjectionBounded(ledger, transcriptEnd);
      if projection.value.Err? {
        return Failed(PrecedesPage), later;
      }
      var active, end := ledger.ActivePage().value.facts, projection.value.value;
      if ledger.PendingPage().Some? || ports.fits(round, active.start, end) {
        return Shown(Some(Receipt(active.messageId, active.start, end))), later;
      }
      var cursor := RolloverCursor(active.start, end, round, ports);
      if cursor.Err? {
        return Failed(cursor.error), later;
      }
      step, later := ShowRollover(session, cursor.value, round, ports);
    }

    // The pending send was retried before, or the session is stale.
    predicate NotRetried(session: Session)
      reads runtime.resident
    {
      var ps := session.execution.pages.Facts();
      LastUnknown(ps) && (Last(ps).reconciliationAttempted || !Current(session))
    }

    // The retry of a pending send that comes before the loop.
    method PresentPending(session: Session, ports: LivePorts)
      returns (r: Result<Option<Session>, OutputError>, patches: seq<Receipt>)
      requires runtime.resident.Valid() && Resident(runtime.Now(), session)
      modifies runtime.resident
      ensures runtime.resident.Valid()
      ensures |patches| <= 1
      ensures r.Err? || r.value.None? ==> patches == []
      ensures r.Err? ==> RetryReused(session.execution.pages.Facts(), ports.reconciliation)
      ensures r == Ok(None) ==> NotRetried(session)
      ensures r.Ok? && r.value.Some? ==>
        && r.value.value.execution.pages.Facts() == AfterRetry(session.execution.pages.Facts(), ports.reconciliation)
        && patches == ClosedByRetry(session.execution.pages.Facts(), ports.reconciliation)
      ensures r.Ok? && r.value.Some? ==>
        && Follows(session, r.value.value) && Resident(runtime.Now(), r.value.value)
        && SealedReceipts(r.value.value.execution.pages.Facts()) == SealedReceipts(session.execution.pages.Facts()) + patches
    {
      hide Reachable, LedgerOk, RetryReused;
      patches := [];
      var ledger := session.execution.pages;
      if ledger.PendingPage().None? || !ledger.PendingPage().value.facts.status.SendUnknown? {
        return Ok(Some(session)), patches;
      }
      var unknownActive := ledger.ActivePage();
      r := Reconcile(session, ports.reconciliation);
      if r.Err? || r.value.None? {
        return;
      }
      ReconciledShows(ledger.Facts(), ports.reconciliation);
      if ports.reconciliation.SendOk? && unknownActive.Some? {
        var page := SealedInFront(r.value.value.execution.pages, ledger.Facts());
        patches := [Receipt(page.messageId, page.start, page.end.value)];
      }
    }

    method SealedInFront(ledger: ExecutionPageLedger, ghost ps: seq<PageFacts>) returns (page: PageFacts)
      requires RolloverPending(ps) && |ledger.pages| == |ps|
      requires ledger.Facts()[|ps| - 2] == SealedAt(Last(Init(ps)), Last(ps).start)
      ensures page == ledger.Facts()[|ps| - 2]
    {
      page := ledger.pages[|ledger.pages| - 2].facts;
    }

    // The loop, after `closed` was patched.
    method PresentPages(ghost ps: seq<PageFacts>, session: Session, closed: seq<Receipt>, ports: LivePorts)
      returns (later: Session, patches: seq<Receipt>, active: Option<Receipt>, error: Option<LiveError>)
      requires runtime.resident.Valid() && Resident(runtime.Now(), session)
      requires Sealing(ps, session.execution.pages.Facts(), session.execution.transcriptEnd, closed, |closed|, ports)
      modifies runtime.resident
      ensures runtime.resident.Valid() && Follows(session, later)
      ensures Presented(ps, later.execution.pages.Facts(), session.execution.transcriptEnd, patches, |closed|, active, ports)
      ensures closed <= patches
      ensures forall i :: |closed| <= i < |patches| ==> ProcessFirst(patches[i], session.execution.transcriptEnd)
      ensures active.Some? && (|patches| > |closed| || !LastPending(session.execution.pages.Facts())) ==>
        ProcessFirst(active.value, session.execution.transcriptEnd)
      ensures PagesPlayed(session.execution.pages.Facts(), later.execution.pages.Facts(), session.execution.transcriptEnd,
                          patches, |closed|, active, ports)
      ensures error.Some? ==> active.None?
      ensures active.None? && error.None? ==> NothingToShow(later)
      ensures error.Some? ==>
        MayRaise(error.value, later.execution.pages.Facts(), session.execution.transcriptEnd, |patches| - |closed|, ports)
    {
      hide Reachable, Sealing, MayRaise, ActiveShown, SameSealed, LastRound, Advanced, Presented, Playing, OneMoreSealed,
           PagesPlayed, ProcessFirst, LastPending;
      ghost var from, transcriptEnd := session.execution.pages.Facts(), session.execution.transcriptEnd;
      later, patches, active, error := session, closed, None, None;
      var round := 0;
      PlayingStarts(ps, from, transcriptEnd, closed, ports);
      while true
        invariant runtime.resident.Valid() && Resident(runtime.Now(), later) && Follows(session, later)
        invariant Playing(ps, from, later.execution.pages.Facts(), transcriptEnd, patches, closed, round, ports)
        decreases Remaining(later.execution.pages.Facts(), transcriptEnd)
      {
        var step, next := ShowRound(later, round, ports);
        ghost var qs := later.execution.pages.Facts();
        if step.Failed? {
          error := Some(step.error);
          SameIsSealed(qs, transcriptEnd, round, ports);
          PlayingEnds(ps, from, qs, qs, transcriptEnd, patches, closed, round, None, ports);
          return;
        }
        later := next;
        if step.Shown? {
          PlayingEnds(ps, from, qs, next.execution.pages.Facts(), transcriptEnd, patches, closed, round, step.active, ports);
          active := step.active;
          return;
        }
        PlayingOneMore(ps, from, qs, next.execution.pages.Facts(), transcriptEnd, patches, closed, round, step.patch, ports);
        patches, round := patches + [step.patch], round + 1;
      }
    }

    // Patch the active page, or roll over for as long as the rest does not fit.
    // It ends; what it patches are exactly the pages it sealed, in order, and the
    // one active at the end; and together with the pages sealed before they show
    // every position of the transcript once, each page under its own message.
    method Present(session: Session, ports: LivePorts)
      returns (later: Session, patches: seq<Receipt>, active: Option<Receipt>, error: Option<LiveError>, ghost base: nat)
      requires runtime.resident.Valid() && Resident(runtime.Now(), session)
      modifies runtime.resident
      ensures runtime.resident.Valid() && Follows(session, later) && base <= 1
      ensures Presented(session.execution.pages.Facts(), later.execution.pages.Facts(), session.execution.transcriptEnd,
                        patches, base, active, ports)
      ensures forall i :: base <= i < |patches| && patches[i].end.replyChars > patches[i].start.replyChars ==>
        patches[i].end.processChars == session.execution.transcriptEnd.processChars
      ensures active.Some? && (|patches| > base || !StillPending(session.execution.pages.Facts(), ports.reconciliation)) ==>
        ProcessFirst(active.value, session.execution.transcriptEnd)
      ensures error.Some? ==> active.None?
      ensures active.None? && error.None? ==> NothingToShow(later) || (later == session && NotRetried(session))
      ensures
        || RoundsPlayed(session.execution.pages.Facts(), later.execution.pages.Facts(), session.execution.transcriptEnd,
                        patches, base, active, ports)
        || (patches == [] && active.None? && later == session && (error.Some? || NotRetried(session)))
      ensures error.Some? ==>
        || MayRaise(error.value, later.execution.pages.Facts(), session.execution.transcriptEnd, |patches| - base, ports)
        || (error.value.Output? && RetryReused(session.execution.pages.Facts(), ports.reconciliation))
    {
      hide Reachable, LedgerOk, Sealing, MayRaise, RetryReused, AfterRetry, ClosedByRetry, Presented, PagesPlayed, RoundsPlayed,
           NothingToShow, NotRetried, Resident, LastPending, StillPending;
      ghost var ps, transcriptEnd := session.execution.pages.Facts(), session.execution.transcriptEnd;
      later, active, error := session, None, None;
      ResidentIsReachable(runtime.Now(), session);
      NothingPresented(ps, transcriptEnd, ports);
      RetryLeavesPending(ps, ports.reconciliation);
      var settled, closed := PresentPending(session, ports);
      patches, base := closed, |closed|;
      if settled.Err? {
        error := Some(Output(settled.error));
      } else if settled.value.Some? {
        ResidentIsReachable(runtime.Now(), settled.value.value);
        SealingStarts(ps, settled.value.value.execution.pages.Facts(), transcriptEnd, closed, ports);
        later, patches, active, error := PresentPages(ps, settled.value.value, closed, ports);
        RetriedThenPlayed(ps, later.execution.pages.Facts(), transcriptEnd, closed, patches, active, ports);
      }
    }
  }
}
