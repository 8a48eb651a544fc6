// The ledger of execution presentation pages (bot/execution_pages.py).
//
// A ledger is a tuple of page records.  Both are frozen, but the code compares
// them with `is`, so a page and a ledger are objects here too (classes whose
// fields are all constants), and what they hold is a value: `PageFacts`, and a
// sequence of those for a whole ledger.  Everything the code promises about the
// contents of a ledger is proved about these sequences.
module ExecutionPages {
  import opened Wrappers

  // ------------------------------------------------------------- cursors

  datatype Cursor = Cursor(processChars: nat, replyChars: nat) {
    predicate Follows(other: Cursor) {
      processChars >= other.processChars && replyChars >= other.replyChars
    }

    predicate StrictlyFollows(other: Cursor) {
      Follows(other) && this != other
    }

    // Distance to a later cursor: what every pagination loop uses up.
    function Weight(): nat {
      processChars + replyChars
    }
  }

  const ORIGIN := Cursor(0, 0)

  // --------------------------------------------------------------- pages

  datatype PageStatus = Opening | Active | Sealed | SendUnknown

  datatype SendOutcome = Confirmed | Rejected | Unknown

  datatype PageFacts = PageFacts(
    generation: nat,
    attemptId: string,
    messageId: string,
    start: Cursor,
    end: Option<Cursor>,
    status: PageStatus,
    reconciliationAttempted: bool)
  {
    // What the page constructor insists on.
    predicate WellFormed() {
      && generation >= 1
      && attemptId != ""
      && (reconciliationAttempted ==> status.SendUnknown?)
      && (status.Sealed? <==> end.Some?)
      && (status.Sealed? ==> messageId != "" && end.value.Follows(start))
      && (status.Active? ==> messageId != "")
    }

    predicate Pending() {
      status.Opening? || status.SendUnknown?
    }

    // Where the next page has to begin.
    function Close(): Cursor {
      if end.Some? then end.value else start
    }
  }

  class ExecutionPage {
    const facts: PageFacts

    constructor (facts: PageFacts)
      ensures this.facts == facts
    {
      this.facts := facts;
    }
  }

  function FactsOf(pages: seq<ExecutionPage>): (ps: seq<PageFacts>)
    ensures |ps| == |pages|
    ensures forall i :: 0 <= i < |pages| ==> ps[i] == pages[i].facts
  {
    seq(|pages|, i requires 0 <= i < |pages| => pages[i].facts)
  }

  // ------------------------------------------------- what a ledger must be

  // Index of the first page that is not sealed; at most two pages are live.
  function LiveFrom(ps: seq<PageFacts>): (n: nat)
    ensures n <= |ps| <= n + 2
  {
    if |ps| >= 1 && !ps[|ps| - 1].status.Sealed? then
      if |ps| >= 2 && !ps[|ps| - 2].status.Sealed? then |ps| - 2 else |ps| - 1
    else
      |ps|
  }

  // Where page n has to begin: at the origin, or where page n - 1 was closed.
  function TileEnd(ps: seq<PageFacts>, n: nat): Cursor
    requires n <= |ps|
  {
    if n == 0 then ORIGIN else ps[n - 1].Close()
  }

  ghost predicate Numbered(ps: seq<PageFacts>, n: nat)
    requires n <= |ps|
  {
    forall i :: 0 <= i < n ==> ps[i].WellFormed() && ps[i].generation == i + 1
  }

  ghost predicate AttemptsUnique(ps: seq<PageFacts>, n: nat)
    requires n <= |ps|
  {
    forall i, j {:trigger ps[i].attemptId, ps[j].attemptId} :: 0 <= i < j < n ==> ps[i].attemptId != ps[j].attemptId
  }

  ghost predicate MessagesUnique(ps: seq<PageFacts>, n: nat)
    requires n <= |ps|
  {
    forall i, j {:trigger ps[i].messageId, ps[j].messageId} :: 0 <= i < j < n && ps[i].messageId != "" ==> ps[i].messageId != ps[j].messageId
  }

  // The first n pages are sealed and tile the transcript from the origin.
  ghost predicate Tiled(ps: seq<PageFacts>, n: nat)
    requires n <= |ps|
  {
    && (forall i :: 0 <= i < n ==> ps[i].status.Sealed?)
    && (n > 0 ==> ps[0].start == ORIGIN)
    && (forall i, j :: 0 <= i < j < n && j == i + 1 ==> ps[j].start == ps[i].Close())
  }

  ghost predicate LiveSuffix(ps: seq<PageFacts>, n: nat)
    requires n <= |ps|
  {
    && (forall i :: n <= i < |ps| ==> !ps[i].status.Sealed?)
    && (n < |ps| ==> ps[n].start == TileEnd(ps, n))
    && |ps| <= n + 2
    && (|ps| == n + 2 ==>
          && ps[n].status.Active?
          && ps[n + 1].Pending()
          && ps[n + 1].start.StrictlyFollows(ps[n].start))
  }

  // What the ledger constructor insists on.
  ghost predicate LedgerOk(ps: seq<PageFacts>) {
    && Numbered(ps, |ps|)
    && AttemptsUnique(ps, |ps|)
    && MessagesUnique(ps, |ps|)
    && Tiled(ps, LiveFrom(ps))
    && LiveSuffix(ps, LiveFrom(ps))
  }

  // What a ledger that grew out of the empty one also satisfies: a page that is
  // still opening, or whose send is unknown, stands alone only as page one, and
  // behind an active page it has no message id.
  ghost predicate Reachable(ps: seq<PageFacts>) {
    && LedgerOk(ps)
    && (0 < LiveFrom(ps) && |ps| == LiveFrom(ps) + 1 ==> ps[LiveFrom(ps)].status.Active?)
    && (|ps| == LiveFrom(ps) + 2 ==> ps[|ps| - 1].messageId == "")
  }

  datatype LedgerError =
    | EmptyText
    | LedgerNotEmpty
    | StaleCapability
    | BlockedRollover
    | CursorDoesNotAdvance
    | CursorPrecedesPage
    | KnownMessageReplaced
    | AlreadyReconciled
    | UnresolvedPage
    | ConstructorRejects

  // What the constructor's loop remembers of the pages it has passed.
  datatype Scan = Scan(expected: Cursor, live: seq<PageFacts>, attempts: set<string>, messages: set<string>) {
    // The constructor's test of the next page, number i + 1.
    predicate Fits(page: PageFacts, i: nat) {
      && page.WellFormed()
      && page.generation == i + 1
      && page.attemptId !in attempts
      && (page.messageId != "" ==> page.messageId !in messages)
      && (page.status.Sealed? ==> live == [] && page.start == expected)
    }

    function Past(page: PageFacts): Scan {
      Scan(
        if page.status.Sealed? then page.Close() else expected,
        if page.status.Sealed? then live else live + [page],
        attempts + {page.attemptId},
        if page.messageId != "" then messages + {page.messageId} else messages)
    }

    // Its test of the live pages that end the ledger.
    predicate LiveOk() {
      && |live| <= 2
      && (|live| == 2 ==> live[0].status.Active? && live[1].Pending())
      && (|live| >= 1 ==> live[0].start == expected)
      && (|live| == 2 ==> live[1].start.StrictlyFollows(live[0].start))
    }
  }

  // The checks of the page and ledger constructors, page by page.
  method CheckLedger(ps: seq<PageFacts>) returns (ok: bool)
    ensures ok <==> LedgerOk(ps)
  {
    var scan := Scan(ORIGIN, [], {}, {});
    var i := 0;
    while i < |ps|
      invariant 0 <= i <= |ps|
      invariant Scanned(ps, i, scan)
    {
      if !scan.Fits(ps[i], i) {
        MisfitBreaksLedger(ps, i, scan);
        return false;
      }
      FitIsScanned(ps, i, scan);
      scan := scan.Past(ps[i]);
      i := i + 1;
    }
    ok := scan.LiveOk();
    LiveOkIsLiveSuffix(ps, scan);
  }

  // The loop has passed the first i pages, and they are fine so far.
  ghost predicate Scanned(ps: seq<PageFacts>, i: nat, scan: Scan)
    requires i <= |ps|
  {
    && |scan.live| <= i
    && PrefixOk(ps, i, i - |scan.live|)
    && scan.attempts == AttemptIds(ps, i)
    && scan.messages == MessageIds(ps, i)
    && scan.live == ps[i - |scan.live|..i]
    && scan.expected == TileEnd(ps, i - |scan.live|)
  }

  ghost predicate PrefixOk(ps: seq<PageFacts>, i: nat, m: nat)
    requires m <= i <= |ps|
  {
    && Numbered(ps, i)
    && AttemptsUnique(ps, i)
    && MessagesUnique(ps, i)
    && Tiled(ps, m)
    && forall k :: m <= k < i ==> !ps[k].status.Sealed?
  }

  function AttemptIds(ps: seq<PageFacts>, n: nat): set<string>
    requires n <= |ps|
  {
    if n == 0 then {} else AttemptIds(ps, n - 1) + {ps[n - 1].attemptId}
  }

  function MessageIds(ps: seq<PageFacts>, n: nat): (ids: set<string>)
    requires n <= |ps|
    ensures "" !in ids
  {
    if n == 0 then {}
    else if ps[n - 1].messageId == "" then MessageIds(ps, n - 1)
    else MessageIds(ps, n - 1) + {ps[n - 1].messageId}
  }

  lemma {:induction false} InAttemptIds(ps: seq<PageFacts>, n: nat, id: string)
    requires n <= |ps|
    ensures id in AttemptIds(ps, n) <==> exists k :: 0 <= k < n && ps[k].attemptId == id
  {
    if n > 0 {
      InAttemptIds(ps, n - 1, id);
      if ps[n - 1].attemptId == id {
        assert exists k :: 0 <= k < n && ps[k].attemptId == id;
      }
    }
  }

  lemma {:induction false} InMessageIds(ps: seq<PageFacts>, n: nat, id: string)
    requires n <= |ps| && id != ""
    ensures id in MessageIds(ps, n) <==> exists k :: 0 <= k < n && ps[k].messageId == id
  {
    if n > 0 {
      InMessageIds(ps, n - 1, id);
      if ps[n - 1].messageId == id {
        assert exists k :: 0 <= k < n && ps[k].messageId == id;
      }
    }
  }

  lemma FitExtendsUnique(ps: seq<PageFacts>, i: nat)
    requires i < |ps| && AttemptsUnique(ps, i) && MessagesUnique(ps, i)
    requires ps[i].attemptId !in AttemptIds(ps, i) && ps[i].messageId !in MessageIds(ps, i)
    ensures AttemptsUnique(ps, i + 1) && MessagesUnique(ps, i + 1)
  {
    InAttemptIds(ps, i, ps[i].attemptId);
    if ps[i].messageId != "" {
      InMessageIds(ps, i, ps[i].messageId);
    }
  }

  lemma PrefixGrows(ps: seq<PageFacts>, i: nat, n: nat)
    requires n <= i < |ps| && PrefixOk(ps, i, n)
    requires ps[i].WellFormed() && ps[i].generation == i + 1
    requires ps[i].attemptId !in AttemptIds(ps, i) && ps[i].messageId !in MessageIds(ps, i)
    requires ps[i].status.Sealed? ==> n == i && ps[i].start == TileEnd(ps, i)
    ensures PrefixOk(ps, i + 1, if ps[i].status.Sealed? then i + 1 else n)
  {
    FitExtendsUnique(ps, i);
    hide AttemptsUnique, MessagesUnique, AttemptIds, MessageIds;
  }

  lemma FitIsScanned(ps: seq<PageFacts>, i: nat, scan: Scan)
    requires i < |ps| && Scanned(ps, i, scan) && scan.Fits(ps[i], i)
    ensures Scanned(ps, i + 1, scan.Past(ps[i]))
  {
    hide PrefixOk;
    var n := i - |scan.live|;
    assert scan.live + [ps[i]] == ps[n..i + 1];
    PrefixGrows(ps, i, n);
  }

  lemma MisfitBreaksLedger(ps: seq<PageFacts>, i: nat, scan: Scan)
    requires i < |ps| && Scanned(ps, i, scan) && !scan.Fits(ps[i], i)
    ensures !LedgerOk(ps)
  {
    if ps[i].attemptId in scan.attempts {
      InAttemptIds(ps, i, ps[i].attemptId);
      assert !AttemptsUnique(ps, |ps|);
    } else if ps[i].messageId != "" && ps[i].messageId in scan.messages {
      InMessageIds(ps, i, ps[i].messageId);
      assert !MessagesUnique(ps, |ps|);
    } else if ps[i].status.Sealed? && scan.live != [] {
      SealedAfterLive(ps, i);
    } else if ps[i].status.Sealed? {
      assert i < LiveFrom(ps) || !LiveSuffix(ps, LiveFrom(ps));
    }
  }

  // A sealed page cannot follow a live one.
  lemma SealedAfterLive(ps: seq<PageFacts>, i: nat)
    requires 0 < i < |ps| && ps[i].status.Sealed? && !ps[i - 1].status.Sealed?
    ensures !LedgerOk(ps)
  {
    if i < LiveFrom(ps) {
      assert !Tiled(ps, LiveFrom(ps)) by { assert !ps[i - 1].status.Sealed?; }
    }
  }

  lemma LiveOkIsLiveSuffix(ps: seq<PageFacts>, scan: Scan)
    requires Scanned(ps, |ps|, scan)
    ensures scan.LiveOk() <==> LedgerOk(ps)
  {
    var n := |ps| - |scan.live|;
    if |scan.live| > 2 {
      assert !ps[|ps| - 3].status.Sealed?;
      assert LiveFrom(ps) == |ps| - 2;
    } else {
      assert n > 0 ==> ps[n - 1].status.Sealed?;
      assert |scan.live| >= 1 ==> scan.live[0] == ps[n];
      assert |scan.live| == 2 ==> scan.live[1] == ps[n + 1];
      assert LiveFrom(ps) == n;
    }
  }

  // --------------------------------------------------------- transitions

  datatype LedgerEvent =
    | PrepareInitial(attemptId: string, knownMessageId: string)
    | ActivateOpening(messageId: string)
    | MarkSendUnknown
    | DiscardOpening
    | PrepareRollover(attemptId: string, cursor: Cursor)
    | ActivateRollover(messageId: string)
    | MarkRolloverSendUnknown
    | DiscardRolloverOpening
    | ConfirmSendUnknown(messageId: string)
    | RejectSendUnknown
    | RetainSendUnknown
    | SealActive(cursorEnd: Cursor)
    | RetireForTurnCompletion(cursorEnd: Cursor)
    | ClearKnownPages

  function OpeningPage(generation: nat, attemptId: string, messageId: string, start: Cursor): PageFacts {
    PageFacts(generation, attemptId, messageId, start, None, Opening, false)
  }

  function SealedAt(p: PageFacts, end: Cursor): PageFacts {
    p.(end := Some(end), status := Sealed)
  }

  function Last(ps: seq<PageFacts>): PageFacts
    requires ps != []
  {
    ps[|ps| - 1]
  }

  function Init(ps: seq<PageFacts>): seq<PageFacts>
    requires ps != []
  {
    ps[..|ps| - 1]
  }

  predicate LastActive(ps: seq<PageFacts>) {
    ps != [] && Last(ps).status.Active?
  }

  // The pending page, when there is one, is the last one.
  predicate LastPending(ps: seq<PageFacts>) {
    ps != [] && Last(ps).Pending()
  }

  // An active page waits in front of the pending one.
  predicate RolloverPending(ps: seq<PageFacts>) {
    LastPending(ps) && LastActive(Init(ps))
  }

  predicate InitialOpening(ps: seq<PageFacts>) {
    LastPending(ps) && Last(ps).status.Opening? && !RolloverPending(ps)
  }

  predicate RolloverOpening(ps: seq<PageFacts>) {
    RolloverPending(ps) && Last(ps).status.Opening?
  }

  predicate LastUnknown(ps: seq<PageFacts>) {
    LastPending(ps) && Last(ps).status.SendUnknown?
  }

  // The pending page becomes the active one; a page active before it is closed
  // where the new one begins.
  function Promoted(ps: seq<PageFacts>, messageId: string): seq<PageFacts>
    requires LastPending(ps)
  {
    var active := Last(ps).(messageId := messageId, status := Active, reconciliationAttempted := false);
    if RolloverPending(ps) then
      Init(Init(ps)) + [SealedAt(Last(Init(ps)), active.start), active]
    else
      Init(ps) + [active]
  }

  // Turn completion: the pending page goes, the active one is closed.
  function WithoutPending(ps: seq<PageFacts>): seq<PageFacts> {
    if LastPending(ps) then Init(ps) else ps
  }

  // The exception a transition raises before it rebuilds the ledger, if any.
  function Refusal(ps: seq<PageFacts>, e: LedgerEvent): Option<LedgerError> {
    match e
    case PrepareInitial(_, _) => if ps != [] then Some(LedgerNotEmpty) else None
    case ActivateOpening(messageId) =>
      if !InitialOpening(ps) then Some(StaleCapability) else if messageId == "" then Some(EmptyText) else None
    case MarkSendUnknown => if !InitialOpening(ps) then Some(StaleCapability) else None
    case DiscardOpening => if !InitialOpening(ps) then Some(StaleCapability) else None
    case PrepareRollover(_, cursor) =>
      if !LastActive(ps) then Some(BlockedRollover)
      else if !cursor.StrictlyFollows(Last(ps).start) then Some(CursorDoesNotAdvance) else None
    case ActivateRollover(messageId) =>
      if !RolloverOpening(ps) then Some(StaleCapability) else if messageId == "" then Some(EmptyText) else None
    case MarkRolloverSendUnknown => if !RolloverOpening(ps) then Some(StaleCapability) else None
    case DiscardRolloverOpening => if !RolloverOpening(ps) then Some(StaleCapability) else None
    case ConfirmSendUnknown(messageId) =>
      if !LastUnknown(ps) then Some(StaleCapability)
      else if messageId == "" then Some(EmptyText)
      else if Last(ps).messageId != "" && Last(ps).messageId != messageId then Some(KnownMessageReplaced) else None
    case RejectSendUnknown => if !LastUnknown(ps) then Some(StaleCapability) else None
    case RetainSendUnknown =>
      if !LastUnknown(ps) then Some(StaleCapability)
      else if Last(ps).reconciliationAttempted then Some(AlreadyReconciled) else None
    case SealActive(_) => if LastPending(ps) then Some(UnresolvedPage) else None
    case RetireForTurnCompletion(cursorEnd) =>
      var known := WithoutPending(ps);
      if LastActive(known) && !cursorEnd.Follows(Last(known).start) then Some(CursorPrecedesPage) else None
    case ClearKnownPages => if LastPending(ps) then Some(UnresolvedPage) else None
  }

  // The pages a transition hands to the constructor.
  function Rebuilt(ps: seq<PageFacts>, e: LedgerEvent): seq<PageFacts>
    requires Refusal(ps, e).None?
  {
    match e
    case PrepareInitial(attemptId, known) => [OpeningPage(1, attemptId, known, ORIGIN)]
    case ActivateOpening(messageId) => Promoted(ps, messageId)
    case ActivateRollover(messageId) => Promoted(ps, messageId)
    case ConfirmSendUnknown(messageId) => Promoted(ps, messageId)
    case MarkSendUnknown => Init(ps) + [Last(ps).(status := SendUnknown)]
    case MarkRolloverSendUnknown => Init(ps) + [Last(ps).(status := SendUnknown)]
    case RetainSendUnknown => Init(ps) + [Last(ps).(reconciliationAttempted := true)]
    case DiscardOpening => Init(ps)
    case DiscardRolloverOpening => Init(ps)
    case RejectSendUnknown => Init(ps)
    case PrepareRollover(attemptId, cursor) => ps + [OpeningPage(|ps| + 1, attemptId, "", cursor)]
    case SealActive(cursorEnd) => WithActiveSealed(ps, cursorEnd)
    case RetireForTurnCompletion(cursorEnd) => WithActiveSealed(WithoutPending(ps), cursorEnd)
    case ClearKnownPages => []
  }

  function WithActiveSealed(ps: seq<PageFacts>, end: Cursor): seq<PageFacts> {
    if LastActive(ps) then Init(ps) + [SealedAt(Last(ps), end)] else ps
  }

  // The pages a transition leads to, or the exception it raises.
  ghost function Transition(ps: seq<PageFacts>, e: LedgerEvent): Result<seq<PageFacts>, LedgerError> {
    if Refusal(ps, e).Some? then Err(Refusal(ps, e).value)
    else if LedgerOk(Rebuilt(ps, e)) then Ok(Rebuilt(ps, e))
    else Err(ConstructorRejects)
  }

  // ------------------------------------------ what the transitions promise

  // The page is opening: nothing of it is known but where it begins.
  predicate Opened(q: PageFacts, generation: nat, attemptId: string, messageId: string, start: Cursor) {
    && q.status.Opening? && q.generation == generation && q.attemptId == attemptId && q.messageId == messageId
    && q.start == start && q.end.None? && !q.reconciliationAttempted
  }

  predicate SamePage(p: PageFacts, q: PageFacts) {
    q.generation == p.generation && q.attemptId == p.attemptId && q.start == p.start
  }

  predicate BecameActive(p: PageFacts, q: PageFacts, messageId: string) {
    SamePage(p, q) && q.status.Active? && q.messageId == messageId && q.end.None? && !q.reconciliationAttempted
  }

  predicate BecameUnknown(p: PageFacts, q: PageFacts, attempted: bool) {
    SamePage(p, q) && q.status.SendUnknown? && q.messageId == p.messageId && q.end.None? && q.reconciliationAttempted == attempted
  }

  predicate Closed(p: PageFacts, q: PageFacts, end: Cursor) {
    SamePage(p, q) && q.status.Sealed? && q.messageId == p.messageId && q.end == Some(end) && !q.reconciliationAttempted
  }

  // What a transition does to the pages, page by page and field by field; all pages
  // it does not name stay as they are.
  predicate Effect(ps: seq<PageFacts>, e: LedgerEvent, qs: seq<PageFacts>) {
    var n := |ps|;
    match e
    case PrepareInitial(attemptId, known) => n == 0 && |qs| == 1 && Opened(qs[0], 1, attemptId, known, Cursor(0, 0))
    case PrepareRollover(attemptId, cursor) => |qs| == n + 1 && qs[..n] == ps && Opened(qs[n], n + 1, attemptId, "", cursor)
    case ActivateOpening(id) => |qs| == n > 0 && qs[..n - 1] == ps[..n - 1] && BecameActive(ps[n - 1], qs[n - 1], id)
    case ActivateRollover(id) =>
      && |qs| == n > 1 && qs[..n - 2] == ps[..n - 2]
      && Closed(ps[n - 2], qs[n - 2], ps[n - 1].start) && BecameActive(ps[n - 1], qs[n - 1], id)
    case ConfirmSendUnknown(id) =>
      && |qs| == n > 0 && BecameActive(ps[n - 1], qs[n - 1], id)
      && (if n > 1 && ps[n - 2].status.Active? then qs[..n - 2] == ps[..n - 2] && Closed(ps[n - 2], qs[n - 2], ps[n - 1].start)
          else qs[..n - 1] == ps[..n - 1])
    case MarkSendUnknown => |qs| == n > 0 && qs[..n - 1] == ps[..n - 1] && BecameUnknown(ps[n - 1], qs[n - 1], false)
    case MarkRolloverSendUnknown => |qs| == n > 0 && qs[..n - 1] == ps[..n - 1] && BecameUnknown(ps[n - 1], qs[n - 1], false)
    case RetainSendUnknown => |qs| == n > 0 && qs[..n - 1] == ps[..n - 1] && BecameUnknown(ps[n - 1], qs[n - 1], true)
    case DiscardOpening => n > 0 && qs == ps[..n - 1]
    case DiscardRolloverOpening => n > 0 && qs == ps[..n - 1]
    case RejectSendUnknown => n > 0 && qs == ps[..n - 1]
    case SealActive(cursorEnd) => LeftSealed(ps, n, qs, cursorEnd)
    case RetireForTurnCompletion(cursorEnd) =>
      LeftSealed(ps, if n > 0 && (ps[n - 1].status.Opening? || ps[n - 1].status.SendUnknown?) then n - 1 else n, qs, cursorEnd)
    case ClearKnownPages => qs == []
  }

  // The first n pages are left, the last of them closed if it was active.
  predicate LeftSealed(ps: seq<PageFacts>, n: nat, qs: seq<PageFacts>, cursorEnd: Cursor)
    requires n <= |ps|
  {
    if n > 0 && ps[n - 1].status.Active? then |qs| == n && qs[..n - 1] == ps[..n - 1] && Closed(ps[n - 1], qs[n - 1], cursorEnd)
    else qs == ps[..n]
  }

  lemma PromotedEffect(ps: seq<PageFacts>, id: string)
    requires Numbered(ps, |ps|) && LastPending(ps)
    ensures var qs, n := Promoted(ps, id), |ps|;
      && |qs| == n && BecameActive(ps[n - 1], qs[n - 1], id)
      && (if n > 1 && ps[n - 2].status.Active? then qs[..n - 2] == ps[..n - 2] && Closed(ps[n - 2], qs[n - 2], ps[n - 1].start)
          else qs[..n - 1] == ps[..n - 1])
  {
  }

  lemma RelabelledEffect(ps: seq<PageFacts>, q: PageFacts)
    requires ps != []
    ensures var qs, n := Init(ps) + [q], |ps|; |qs| == n && qs[..n - 1] == ps[..n - 1] && qs[n - 1] == q
  {
  }

  lemma SealedEffect(ps: seq<PageFacts>, n: nat, end: Cursor)
    requires n <= |ps| && Numbered(ps, |ps|)
    ensures LeftSealed(ps, n, WithActiveSealed(ps[..n], end), end)
  {
  }

  lemma TransitionEffect(ps: seq<PageFacts>, e: LedgerEvent)
    requires Numbered(ps, |ps|) && Transition(ps, e).Ok?
    ensures Effect(ps, e, Transition(ps, e).value)
  {
    hide LedgerOk, Promoted, WithActiveSealed, LeftSealed, BecameActive, Closed, Numbered;
    assert Numbered(ps, |ps|);
    match e
    case ActivateOpening(id) => PromotedEffect(ps, id);
    case ActivateRollover(id) => PromotedEffect(ps, id);
    case ConfirmSendUnknown(id) => PromotedEffect(ps, id);
    case MarkSendUnknown => UnknownEffect(ps);
    case MarkRolloverSendUnknown => UnknownEffect(ps);
    case RetainSendUnknown => UnknownEffect(ps);
    case SealActive(end) =>
      SealedEffect(ps, |ps|, end);
      assert ps[..|ps|] == ps;
    case RetireForTurnCompletion(end) =>
      SealedEffect(ps, |WithoutPending(ps)|, end);
      assert ps[..|WithoutPending(ps)|] == WithoutPending(ps);
    case _ =>
  }

  lemma UnknownEffect(ps: seq<PageFacts>)
    requires Numbered(ps, |ps|) && LastPending(ps)
    ensures var unknown := Last(ps).(status := SendUnknown);
      && BecameUnknown(Last(ps), unknown, unknown.reconciliationAttempted)
      && (Last(ps).status.Opening? ==> !unknown.reconciliationAttempted)
    ensures Last(ps).status.SendUnknown? ==> BecameUnknown(Last(ps), Last(ps).(reconciliationAttempted := true), true)
  {
  }

  ghost predicate FreshAttempt(ps: seq<PageFacts>, id: string) {
    id != "" && forall p :: p in ps ==> p.attemptId != id
  }

  ghost predicate FreshMessage(ps: seq<PageFacts>, id: string) {
    id != "" && forall p :: p in ps ==> p.messageId != id
  }

  // What a caller has to check for a transition of a reachable ledger to
  // succeed.  Apart from ids used twice, the constructor never objects.
  ghost predicate Admissible(ps: seq<PageFacts>, e: LedgerEvent) {
    match e
    case PrepareInitial(attemptId, _) => ps == [] && attemptId != ""
    case ActivateOpening(messageId) =>
      InitialOpening(ps) && (messageId == Last(ps).messageId != "" || FreshMessage(ps, messageId))
    case MarkSendUnknown => InitialOpening(ps)
    case DiscardOpening => InitialOpening(ps)
    case PrepareRollover(attemptId, cursor) =>
      LastActive(ps) && cursor.StrictlyFollows(Last(ps).start) && FreshAttempt(ps, attemptId)
    case ActivateRollover(messageId) => RolloverOpening(ps) && FreshMessage(ps, messageId)
    case MarkRolloverSendUnknown => RolloverOpening(ps)
    case DiscardRolloverOpening => RolloverOpening(ps)
    case ConfirmSendUnknown(messageId) =>
      LastUnknown(ps) && (if Last(ps).messageId != "" then messageId == Last(ps).messageId else FreshMessage(ps, messageId))
    case RejectSendUnknown => LastUnknown(ps)
    case RetainSendUnknown => LastUnknown(ps) && !Last(ps).reconciliationAttempted
    case SealActive(cursorEnd) => !LastPending(ps) && (LastActive(ps) ==> cursorEnd.Follows(Last(ps).start))
    case RetireForTurnCompletion(cursorEnd) =>
      LastActive(WithoutPending(ps)) ==> cursorEnd.Follows(Last(WithoutPending(ps)).start)
    case ClearKnownPages => !LastPending(ps)
  }

  // Dropping the pending page of a reachable ledger.
  lemma PendingDropped(ps: seq<PageFacts>)
    requires Reachable(ps) && LastPending(ps)
    ensures Reachable(Init(ps)) && !LastPending(Init(ps))
    ensures RolloverPending(ps) || Init(ps) == []
  {
  }

  // Ids and numbers may be compared page by page.
  lemma IdsCarry(ps: seq<PageFacts>, qs: seq<PageFacts>)
    requires |qs| == |ps| && Numbered(ps, |ps|) && AttemptsUnique(ps, |ps|)
    requires forall i :: 0 <= i < |ps| ==>
      qs[i].WellFormed() && qs[i].attemptId == ps[i].attemptId && qs[i].generation == ps[i].generation
    ensures Numbered(qs, |qs|) && AttemptsUnique(qs, |qs|)
  {
  }

  // Replacing the pending page by one that differs in its send state only.
  lemma PendingRelabelled(ps: seq<PageFacts>, q: PageFacts)
    requires Reachable(ps) && LastPending(ps)
    requires q.Pending() && q.WellFormed()
    requires q == Last(ps).(status := q.status, reconciliationAttempted := q.reconciliationAttempted)
    ensures Reachable(Init(ps) + [q])
  {
    var qs := Init(ps) + [q];
    IdsCarry(ps, qs);
    assert MessagesUnique(qs, |qs|) by {
      assert forall i :: 0 <= i < |ps| ==> qs[i].messageId == ps[i].messageId;
    }
    assert LiveFrom(qs) == LiveFrom(ps);
    assert Tiled(qs, LiveFrom(qs));
  }

  lemma PromotedMessages(ps: seq<PageFacts>, messageId: string)
    requires MessagesUnique(ps, |ps|) && LastPending(ps) && messageId != ""
    ensures var qs := Promoted(ps, messageId);
      MessagesUnique(qs, |qs|) <==> forall p :: p in Init(ps) ==> p.messageId != messageId
  {
    var qs, n := Promoted(ps, messageId), |ps| - 1;
    assert |qs| == n + 1 && qs[n].messageId == messageId;
    assert forall i :: 0 <= i < n ==> qs[i].messageId == ps[i].messageId;
    if p :| p in Init(ps) && p.messageId == messageId {
      var i :| 0 <= i < n && ps[i] == p;
      assert qs[i].messageId == qs[n].messageId;
    } else {
      assert forall i :: 0 <= i < n ==> ps[i] in Init(ps);
    }
  }

  lemma PromotedIds(ps: seq<PageFacts>, messageId: string)
    requires LedgerOk(ps) && LastPending(ps) && messageId != ""
    ensures var qs := Promoted(ps, messageId); Numbered(qs, |qs|) && AttemptsUnique(qs, |qs|)
  {
    IdsCarry(ps, Promoted(ps, messageId));
  }

  lemma PendingPromoted(ps: seq<PageFacts>, messageId: string)
    requires LedgerOk(ps) && LastPending(ps) && messageId != ""
    ensures LedgerOk(Promoted(ps, messageId)) <==> forall p :: p in Init(ps) ==> p.messageId != messageId
    ensures LedgerOk(Promoted(ps, messageId)) ==> Reachable(Promoted(ps, messageId))
  {
    PromotedMessages(ps, messageId);
    PromotedIds(ps, messageId);
    PromotedTiles(ps, messageId);
  }

  lemma PromotedTiles(ps: seq<PageFacts>, messageId: string)
    requires LedgerOk(ps) && LastPending(ps) && messageId != ""
    ensures var qs := Promoted(ps, messageId);
      Tiled(qs, LiveFrom(qs)) && LiveSuffix(qs, LiveFrom(qs)) && LiveFrom(qs) == |qs| - 1 && LastActive(qs)
  {
    if RolloverPending(ps) {
      RolloverTiles(ps, messageId);
    } else {
      InitialTiles(ps, messageId);
    }
  }

  lemma InitialTiles(ps: seq<PageFacts>, messageId: string)
    requires Tiled(ps, LiveFrom(ps)) && LiveSuffix(ps, LiveFrom(ps)) && LastPending(ps) && !RolloverPending(ps)
    ensures var qs := Promoted(ps, messageId);
      Tiled(qs, LiveFrom(qs)) && LiveSuffix(qs, LiveFrom(qs)) && LiveFrom(qs) == |qs| - 1 && LastActive(qs)
  {
    var qs := Promoted(ps, messageId);
    assert |qs| == |ps| && LastActive(qs) && LiveFrom(ps) == |ps| - 1;
    assert forall i :: 0 <= i < |ps| - 1 ==> qs[i] == ps[i];
  }

  lemma RolloverTiles(ps: seq<PageFacts>, messageId: string)
    requires Tiled(ps, LiveFrom(ps)) && LiveSuffix(ps, LiveFrom(ps)) && RolloverPending(ps)
    ensures var qs := Promoted(ps, messageId);
      Tiled(qs, LiveFrom(qs)) && LiveSuffix(qs, LiveFrom(qs)) && LiveFrom(qs) == |qs| - 1 && LastActive(qs)
  {
    var qs := Promoted(ps, messageId);
    assert |qs| == |ps| && LastActive(qs) && LiveFrom(ps) == |ps| - 2;
    assert forall i :: 0 <= i < |ps| - 2 ==> qs[i] == ps[i];
    assert qs[|ps| - 2] == SealedAt(ps[|ps| - 2], Last(ps).start);
  }

  lemma RolloverAppended(ps: seq<PageFacts>, attemptId: string, cursor: Cursor)
    requires Reachable(ps) && LastActive(ps) && cursor.StrictlyFollows(Last(ps).start)
    ensures LedgerOk(ps + [OpeningPage(|ps| + 1, attemptId, "", cursor)]) <==> FreshAttempt(ps, attemptId)
    ensures FreshAttempt(ps, attemptId) ==> Reachable(ps + [OpeningPage(|ps| + 1, attemptId, "", cursor)])
  {
    var qs := ps + [OpeningPage(|ps| + 1, attemptId, "", cursor)];
    assert forall i :: 0 <= i < |ps| ==> qs[i] == ps[i];
    AppendedAttempt(ps, qs[|ps|]);
    assert MessagesUnique(qs, |qs|);
    assert LiveFrom(qs) == |ps| - 1;
  }

  lemma AppendedAttempt(ps: seq<PageFacts>, p: PageFacts)
    requires AttemptsUnique(ps, |ps|)
    ensures AttemptsUnique(ps + [p], |ps| + 1) <==> forall q :: q in ps ==> q.attemptId != p.attemptId
  {
    var qs := ps + [p];
    assert qs[|ps|] == p && forall i :: 0 <= i < |ps| ==> qs[i] == ps[i];
    if q :| q in ps && q.attemptId == p.attemptId {
      var i :| 0 <= i < |ps| && ps[i] == q;
      assert qs[i].attemptId == qs[|ps|].attemptId;
    } else {
      assert forall i :: 0 <= i < |ps| ==> ps[i] in ps;
    }
  }

  lemma ActiveSealed(ps: seq<PageFacts>, end: Cursor)
    requires Reachable(ps) && LastActive(ps)
    ensures LedgerOk(Init(ps) + [SealedAt(Last(ps), end)]) <==> end.Follows(Last(ps).start)
    ensures end.Follows(Last(ps).start) ==> Reachable(Init(ps) + [SealedAt(Last(ps), end)])
  {
    var qs := Init(ps) + [SealedAt(Last(ps), end)];
    assert qs[|ps| - 1] == SealedAt(Last(ps), end);
  }

  // A transition of a reachable ledger succeeds exactly when it is admissible,
  // and then it leads to a reachable ledger again.
  lemma TransitionSucceedsIff(ps: seq<PageFacts>, e: LedgerEvent)
    requires Reachable(ps)
    ensures Transition(ps, e).Ok? <==> Admissible(ps, e)
    ensures Transition(ps, e).Ok? ==> Reachable(Transition(ps, e).value)
  {
    hide LedgerOk, Reachable;
    match e
    case PrepareInitial(attemptId, known) => InitialOpened(attemptId, known);
    case ActivateOpening(messageId) => PromotionSucceedsIff(ps, e, messageId);
    case ActivateRollover(messageId) => PromotionSucceedsIff(ps, e, messageId);
    case ConfirmSendUnknown(messageId) => PromotionSucceedsIff(ps, e, messageId);
    case PrepareRollover(attemptId, cursor) =>
      if LastActive(ps) && cursor.StrictlyFollows(Last(ps).start) { RolloverAppended(ps, attemptId, cursor); }
    case SealActive(cursorEnd) => if !LastPending(ps) { SealingSucceedsIff(ps, cursorEnd); }
    case RetireForTurnCompletion(cursorEnd) =>
      if LastPending(ps) { PendingDropped(ps); }
      SealingSucceedsIff(WithoutPending(ps), cursorEnd);
    case ClearKnownPages => EmptyIsReachable();
    case _ => if LastPending(ps) { PendingSettledIff(ps, e); }
  }

  lemma EmptyIsReachable()
    ensures Reachable([]) && LedgerOk([])
  {
  }

  lemma InitialOpened(attemptId: string, known: string)
    ensures LedgerOk([OpeningPage(1, attemptId, known, ORIGIN)]) <==> attemptId != ""
    ensures attemptId != "" ==> Reachable([OpeningPage(1, attemptId, known, ORIGIN)])
  {
  }

  lemma SealingSucceedsIff(ps: seq<PageFacts>, end: Cursor)
    requires Reachable(ps) && !LastPending(ps)
    ensures LedgerOk(WithActiveSealed(ps, end)) <==> (LastActive(ps) ==> end.Follows(Last(ps).start))
    ensures LedgerOk(WithActiveSealed(ps, end)) ==> Reachable(WithActiveSealed(ps, end))
  {
    if LastActive(ps) {
      hide LedgerOk, Reachable;
      ActiveSealed(ps, end);
    }
  }

  lemma PromotionSucceedsIff(ps: seq<PageFacts>, e: LedgerEvent, messageId: string)
    requires Reachable(ps)
    requires e == ActivateOpening(messageId) || e == ActivateRollover(messageId) || e == ConfirmSendUnknown(messageId)
    ensures Transition(ps, e).Ok? <==> Admissible(ps, e)
    ensures Transition(ps, e).Ok? ==> Reachable(Transition(ps, e).value)
  {
    ReachableIsOk(ps);
    hide LedgerOk, Reachable, Promoted, FreshMessage;
    if Refusal(ps, e).None? {
      PendingPromoted(ps, messageId);
      PendingMessage(ps);
      MessageFreshBefore(ps, messageId);
    }
  }

  lemma ReachableIsOk(ps: seq<PageFacts>)
    requires Reachable(ps)
    ensures LedgerOk(ps)
  {
  }

  lemma MessageFreshBefore(ps: seq<PageFacts>, messageId: string)
    requires LastPending(ps)
    ensures FreshMessage(ps, messageId) <==>
      messageId != "" && Last(ps).messageId != messageId && forall p :: p in Init(ps) ==> p.messageId != messageId
  {
    assert ps == Init(ps) + [Last(ps)];
  }

  // Only an initial page can carry a message id before it is confirmed.
  lemma PendingMessage(ps: seq<PageFacts>)
    requires Reachable(ps) && LastPending(ps)
    ensures if RolloverPending(ps) then Last(ps).messageId == "" else Init(ps) == []
  {
  }

  lemma PendingSettledIff(ps: seq<PageFacts>, e: LedgerEvent)
    requires Reachable(ps) && LastPending(ps)
    requires e in {MarkSendUnknown, DiscardOpening, MarkRolloverSendUnknown, DiscardRolloverOpening,
                   RejectSendUnknown, RetainSendUnknown}
    ensures Transition(ps, e).Ok? <==> Admissible(ps, e)
    ensures Transition(ps, e).Ok? ==> Reachable(Transition(ps, e).value)
  {
    hide LedgerOk, Reachable;
    PendingDropped(ps);
    ReachableIsOk(Init(ps));
    if Last(ps).status.Opening? {
      PendingWellFormed(ps, Last(ps).(status := SendUnknown));
    } else {
      PendingWellFormed(ps, Last(ps).(reconciliationAttempted := true));
    }
  }

  lemma PendingWellFormed(ps: seq<PageFacts>, q: PageFacts)
    requires Reachable(ps) && LastPending(ps) && q.Pending()
    requires q == Last(ps).(status := q.status, reconciliationAttempted := q.reconciliationAttempted)
    requires q.reconciliationAttempted ==> q.status.SendUnknown?
    ensures LedgerOk(Init(ps) + [q]) && Reachable(Init(ps) + [q])
  {
    PendingRelabelled(ps, q);
  }

  // ------------------------------------------------------- runs of a ledger

  // A transition that raises leaves the ledger as it was.
  ghost function After(ps: seq<PageFacts>, e: LedgerEvent): seq<PageFacts> {
    if Transition(ps, e).Ok? then Transition(ps, e).value else ps
  }

  ghost function Run(ps: seq<PageFacts>, es: seq<LedgerEvent>): seq<PageFacts>
    decreases |es|
  {
    if es == [] then ps else Run(After(ps, es[0]), es[1..])
  }

  lemma {:induction false} EveryRunIsReachable(ps: seq<PageFacts>, es: seq<LedgerEvent>)
    requires Reachable(ps)
    ensures Reachable(Run(ps, es))
    decreases |es|
  {
    if es != [] {
      TransitionSucceedsIff(ps, es[0]);
      EveryRunIsReachable(After(ps, es[0]), es[1..]);
    }
  }

  lemma EveryRunFromEmptyIsReachable(es: seq<LedgerEvent>)
    ensures Reachable(Run([], es))
  {
    EveryRunIsReachable([], es);
  }

  // The sealed pages of ps are still there, untouched, in qs.
  ghost predicate SealedKept(ps: seq<PageFacts>, qs: seq<PageFacts>) {
    LiveFrom(ps) <= LiveFrom(qs) && forall i :: 0 <= i < LiveFrom(ps) ==> qs[i] == ps[i]
  }

  lemma RebuiltKeepsSealed(ps: seq<PageFacts>, e: LedgerEvent)
    requires !e.ClearKnownPages? && Refusal(ps, e).None?
    ensures LiveFrom(ps) <= |Rebuilt(ps, e)|
    ensures forall i :: 0 <= i < LiveFrom(ps) ==> Rebuilt(ps, e)[i] == ps[i]
  {
  }

  lemma SealedStaySealed(ps: seq<PageFacts>, qs: seq<PageFacts>)
    requires LedgerOk(ps) && LedgerOk(qs) && LiveFrom(ps) <= |qs|
    requires forall i :: 0 <= i < LiveFrom(ps) ==> qs[i] == ps[i]
    ensures SealedKept(ps, qs)
  {
    if 0 < LiveFrom(ps) {
      assert qs[LiveFrom(ps) - 1].status.Sealed?;
    }
  }

  lemma OneStepKeepsSealed(ps: seq<PageFacts>, e: LedgerEvent)
    requires LedgerOk(ps) && !e.ClearKnownPages?
    ensures SealedKept(ps, After(ps, e))
  {
    if Transition(ps, e).Ok? {
      RebuiltKeepsSealed(ps, e);
      SealedStaySealed(ps, Rebuilt(ps, e));
    }
  }

  // Until the ledger is cleared, a sealed page is never touched again.
  lemma {:induction false} SealedPagesSurvive(ps: seq<PageFacts>, es: seq<LedgerEvent>)
    requires Reachable(ps) && ClearKnownPages !in es
    ensures SealedKept(ps, Run(ps, es))
    decreases |es|
  {
    if es != [] {
      OneStepKeepsSealed(ps, es[0]);
      TransitionSucceedsIff(ps, es[0]);
      SealedPagesSurvive(After(ps, es[0]), es[1..]);
    }
  }

  // Turn completion leaves sealed pages only; an active page is closed at the cursor.
  lemma RetiredLedgerIsSealed(ps: seq<PageFacts>, cursorEnd: Cursor)
    requires Reachable(ps) && Transition(ps, RetireForTurnCompletion(cursorEnd)).Ok?
    ensures var qs := Transition(ps, RetireForTurnCompletion(cursorEnd)).value;
      && (forall i :: 0 <= i < |qs| ==> qs[i].status.Sealed?)
      && |qs| == LiveFrom(ps) + (if LastActive(WithoutPending(ps)) then 1 else 0)
      && (LastActive(WithoutPending(ps)) ==> TileEnd(qs, |qs|) == cursorEnd)
  {
    if LastPending(ps) {
      PendingDropped(ps);
    }
    KnownLedgerSealed(WithoutPending(ps), cursorEnd);
  }

  lemma KnownLedgerSealed(ps: seq<PageFacts>, cursorEnd: Cursor)
    requires Reachable(ps) && !LastPending(ps)
    ensures var qs := WithActiveSealed(ps, cursorEnd);
      && (forall i :: 0 <= i < |qs| ==> qs[i].status.Sealed?)
      && |qs| == LiveFrom(ps) + (if LastActive(ps) then 1 else 0)
      && (LastActive(ps) ==> TileEnd(qs, |qs|) == cursorEnd)
  {
  }

  // -------------------------------------------------- the ledger as an object

  lemma FactsOfConcat(a: seq<ExecutionPage>, b: seq<ExecutionPage>)
    ensures FactsOf(a + b) == FactsOf(a) + FactsOf(b)
  {
  }

  class ExecutionPageLedger {
    const pages: seq<ExecutionPage>

    function Facts(): (ps: seq<PageFacts>)
      ensures |ps| == |pages|
    {
      FactsOf(pages)
    }

    ghost predicate Valid() {
      LedgerOk(Facts())
    }

    constructor (pages: seq<ExecutionPage>)
      ensures this.pages == pages
    {
      this.pages := pages;
    }

    // The dataclass constructor with its checks.
    static method Make(pages: seq<ExecutionPage>) returns (r: Result<ExecutionPageLedger, LedgerError>)
      ensures r.Ok? <==> LedgerOk(FactsOf(pages))
      ensures r.Ok? ==> fresh(r.value) && r.value.pages == pages
      ensures r.Err? ==> r.error == ConstructorRejects
    {
      var ok := CheckLedger(FactsOf(pages));
      if !ok {
        return Err(ConstructorRejects);
      }
      var ledger := new ExecutionPageLedger(pages);
      r := Ok(ledger);
    }

    function ActivePage(): Option<ExecutionPage> {
      if LastActive(Facts()) then Some(pages[|pages| - 1])
      else if RolloverPending(Facts()) then Some(pages[|pages| - 2])
      else None
    }

    function PendingPage(): Option<ExecutionPage> {
      if LastPending(Facts()) then Some(pages[|pages| - 1]) else None
    }

    // The search of the `active_page` property, from the last page backwards.
    method FindActivePage() returns (page: Option<ExecutionPage>)
      requires Valid()
      ensures page == ActivePage()
    {
      var i := |pages|;
      while i > 0
        invariant 0 <= i <= |pages|
        invariant forall k :: i <= k < |pages| ==> pages[k].facts.Pending()
        invariant |pages| - 1 <= i
      {
        i := i - 1;
        if pages[i].facts.status.Active? {
          return Some(pages[i]);
        }
        if pages[i].facts.status.Sealed? {
          return None;
        }
      }
      page := None;
    }

    // What the active page may show: up to the transcript's end, or up to where
    // a pending page begins.  Err when the transcript is shorter than the page.
    function ActiveProjectionEnd(transcriptEnd: Cursor): Option<Result<Cursor, LedgerError>> {
      match ActivePage()
      case None => None
      case Some(active) =>
        var endpoint := if PendingPage().Some? then PendingPage().value.facts.start else transcriptEnd;
        if endpoint.Follows(active.facts.start) then Some(Ok(endpoint)) else Some(Err(CursorPrecedesPage))
    }

    // While a page is pending, the active one is frozen where it begins.
    lemma ProjectionFrozen(t1: Cursor, t2: Cursor)
      requires Valid() && PendingPage().Some? && ActivePage().Some?
      ensures ActiveProjectionEnd(t1) == ActiveProjectionEnd(t2) == Some(Ok(PendingPage().value.facts.start))
    {
    }

    // What a transition that was not refused returns.
    ghost predicate Rebuilds(e: LedgerEvent, r: Result<ExecutionPageLedger, LedgerError>) {
      match r
      case Ok(ledger) =>
        && ledger.Valid() && Transition(Facts(), e) == Ok(ledger.Facts())
        && (Valid() ==> Effect(Facts(), e, ledger.Facts()))
      case Err(error) => Transition(Facts(), e) == Err(error)
    }

    // How a method settles: with a stale capability it raises and nothing else
    // happens, otherwise it does what the transition says.
    ghost predicate Settles(current: bool, e: LedgerEvent, r: Result<ExecutionPageLedger, LedgerError>) {
      if current then Rebuilds(e, r) else r == Err(StaleCapability)
    }

    // The first `keep` pages stay the same objects; the rest are made anew.
    method Rebuild(ghost e: LedgerEvent, keep: nat, tail: seq<PageFacts>)
      returns (r: Result<ExecutionPageLedger, LedgerError>)
      requires keep <= |pages|
      requires Refusal(Facts(), e).None? && Rebuilt(Facts(), e) == Facts()[..keep] + tail
      ensures Rebuilds(e, r)
      ensures r.Ok? ==> fresh(r.value) && keep <= |r.value.pages| && r.value.pages[..keep] == pages[..keep]
      ensures r.Ok? ==> forall i :: keep <= i < |r.value.pages| ==> fresh(r.value.pages[i])
    {
      hide LedgerOk, Refusal, Rebuilt, Effect;
      var made := Remade(tail);
      RebuiltFacts(keep, made);
      r := Make(pages[..keep] + made);
      if Valid() && Transition(Facts(), e).Ok? {
        ValidEffect(e);
      }
    }

    lemma ValidEffect(e: LedgerEvent)
      requires Valid() && Transition(Facts(), e).Ok?
      ensures Effect(Facts(), e, Transition(Facts(), e).value)
    {
      hide Effect;
      TransitionEffect(Facts(), e);
    }

    static method Remade(tail: seq<PageFacts>) returns (made: seq<ExecutionPage>)
      ensures FactsOf(made) == tail
      ensures forall i :: 0 <= i < |made| ==> fresh(made[i])
    {
      made := [];
      for k := 0 to |tail|
        invariant |made| == k && FactsOf(made) == tail[..k]
        invariant forall i :: 0 <= i < k ==> fresh(made[i])
      {
        var page := new ExecutionPage(tail[k]);
        FactsOfConcat(made, [page]);
        made := made + [page];
      }
    }

    lemma RebuiltFacts(keep: nat, made: seq<ExecutionPage>)
      requires keep <= |pages|
      ensures FactsOf(pages[..keep] + made) == Facts()[..keep] + FactsOf(made)
    {
    }

    // `_require_initial_opening`: exactly this page object is opening, alone.
    predicate HoldsInitialOpening(expected: ExecutionPage) {
      InitialOpening(Facts()) && pages[|pages| - 1] == expected
    }

    predicate HoldsRolloverOpening(active: ExecutionPage, opening: ExecutionPage) {
      RolloverOpening(Facts()) && pages[|pages| - 2] == active && pages[|pages| - 1] == opening
    }

    predicate HoldsSendUnknown(expected: ExecutionPage) {
      LastUnknown(Facts()) && pages[|pages| - 1] == expected
    }

    method PrepareInitial(attemptId: string, knownMessageId: string) returns (r: Result<ExecutionPageLedger, LedgerError>)
      ensures Rebuilds(LedgerEvent.PrepareInitial(attemptId, knownMessageId), r)
      ensures r.Ok? ==> fresh(r.value)
    {
      if pages != [] {
        assert Facts() != [];
        return Err(LedgerNotEmpty);
      }
      r := Rebuild(LedgerEvent.PrepareInitial(attemptId, knownMessageId), 0,
        [OpeningPage(1, attemptId, knownMessageId, ORIGIN)]);
    }

    method ActivateOpening(expected: ExecutionPage, messageId: string) returns (r: Result<ExecutionPageLedger, LedgerError>)
      ensures Settles(HoldsInitialOpening(expected), LedgerEvent.ActivateOpening(messageId), r)
      ensures r.Ok? ==> fresh(r.value)
    {
      if !HoldsInitialOpening(expected) {
        return Err(StaleCapability);
      }
      if messageId == "" {
        return Err(EmptyText);
      }
      r := Rebuild(LedgerEvent.ActivateOpening(messageId), |pages| - 1,
        [expected.facts.(messageId := messageId, status := Active, reconciliationAttempted := false)]);
    }

    method MarkSendUnknown(expected: ExecutionPage) returns (r: Result<ExecutionPageLedger, LedgerError>)
      ensures Settles(HoldsInitialOpening(expected), LedgerEvent.MarkSendUnknown, r)
      ensures r.Ok? ==> fresh(r.value)
    {
      if !HoldsInitialOpening(expected) {
        return Err(StaleCapability);
      }
      r := Rebuild(LedgerEvent.MarkSendUnknown, |pages| - 1, [expected.facts.(status := SendUnknown)]);
    }

    method DiscardOpening(expected: ExecutionPage) returns (r: Result<ExecutionPageLedger, LedgerError>)
      ensures Settles(HoldsInitialOpening(expected), LedgerEvent.DiscardOpening, r)
      ensures r.Ok? ==> fresh(r.value)
    {
      if !HoldsInitialOpening(expected) {
        return Err(StaleCapability);
      }
      r := Rebuild(LedgerEvent.DiscardOpening, |pages| - 1, []);
    }

    method PrepareRollover(attemptId: string, cursor: Cursor) returns (r: Result<ExecutionPageLedger, LedgerError>)
      requires Valid()
      ensures Rebuilds(LedgerEvent.PrepareRollover(attemptId, cursor), r)
      ensures r.Ok? ==> fresh(r.value) && r.value.pages[..|pages|] == pages
    {
      var active := FindActivePage();
      if active.None? || PendingPage().Some? {
        return Err(BlockedRollover);
      }
      if !cursor.StrictlyFollows(active.value.facts.start) {
        return Err(CursorDoesNotAdvance);
      }
      assert Facts()[..|pages|] == Facts();
      r := Rebuild(LedgerEvent.PrepareRollover(attemptId, cursor), |pages|,
        [OpeningPage(|pages| + 1, attemptId, "", cursor)]);
    }

    method ActivateRollover(active: ExecutionPage, opening: ExecutionPage, messageId: string)
      returns (r: Result<ExecutionPageLedger, LedgerError>)
      ensures Settles(HoldsRolloverOpening(active, opening), LedgerEvent.ActivateRollover(messageId), r)
      ensures r.Ok? ==> fresh(r.value)
    {
      if !HoldsRolloverOpening(active, opening) {
        return Err(StaleCapability);
      }
      if messageId == "" {
        return Err(EmptyText);
      }
      assert Facts()[..|pages| - 2] == Init(Init(Facts()));
      r := Rebuild(LedgerEvent.ActivateRollover(messageId), |pages| - 2, [
        SealedAt(active.facts, opening.facts.start),
        opening.facts.(messageId := messageId, status := Active, reconciliationAttempted := false)]);
    }

    method MarkRolloverSendUnknown(active: ExecutionPage, opening: ExecutionPage)
      returns (r: Result<ExecutionPageLedger, LedgerError>)
      ensures Settles(HoldsRolloverOpening(active, opening), LedgerEvent.MarkRolloverSendUnknown, r)
      ensures r.Ok? ==> fresh(r.value)
    {
      if !HoldsRolloverOpening(active, opening) {
        return Err(StaleCapability);
      }
      r := Rebuild(LedgerEvent.MarkRolloverSendUnknown, |pages| - 1, [opening.facts.(status := SendUnknown)]);
    }

    method DiscardRolloverOpening(active: ExecutionPage, opening: ExecutionPage)
      returns (r: Result<ExecutionPageLedger, LedgerError>)
      ensures Settles(HoldsRolloverOpening(active, opening), LedgerEvent.DiscardRolloverOpening, r)
      ensures r.Ok? ==> fresh(r.value)
    {
      if !HoldsRolloverOpening(active, opening) {
        return Err(StaleCapability);
      }
      r := Rebuild(LedgerEvent.DiscardRolloverOpening, |pages| - 1, []);
    }

    method ConfirmSendUnknown(expected: ExecutionPage, messageId: string)
      returns (r: Result<ExecutionPageLedger, LedgerError>)
      requires Valid()
      ensures Settles(HoldsSendUnknown(expected), LedgerEvent.ConfirmSendUnknown(messageId), r)
      ensures r.Ok? ==> fresh(r.value)
    {
      if !HoldsSendUnknown(expected) {
        return Err(StaleCapability);
      }
      if messageId == "" {
        return Err(EmptyText);
      }
      if expected.facts.messageId != "" && expected.facts.messageId != messageId {
        return Err(KnownMessageReplaced);
      }
      var resolved := expected.facts.(messageId := messageId, status := Active, reconciliationAttempted := false);
      var active := FindActivePage();
      if active.None? {
        r := Rebuild(LedgerEvent.ConfirmSendUnknown(messageId), |pages| - 1, [resolved]);
      } else {
        assert Facts()[..|pages| - 2] == Init(Init(Facts()));
        r := Rebuild(LedgerEvent.ConfirmSendUnknown(messageId), |pages| - 2,
          [SealedAt(active.value.facts, expected.facts.start), resolved]);
      }
    }

    method RejectSendUnknown(expected: ExecutionPage) returns (r: Result<ExecutionPageLedger, LedgerError>)
      ensures Settles(HoldsSendUnknown(expected), LedgerEvent.RejectSendUnknown, r)
      ensures r.Ok? ==> fresh(r.value)
    {
      if !HoldsSendUnknown(expected) {
        return Err(StaleCapability);
      }
      r := Rebuild(LedgerEvent.RejectSendUnknown, |pages| - 1, []);
    }

    method RetainSendUnknown(expected: ExecutionPage) returns (r: Result<ExecutionPageLedger, LedgerError>)
      ensures Settles(HoldsSendUnknown(expected), LedgerEvent.RetainSendUnknown, r)
      ensures r.Ok? ==> fresh(r.value)
    {
      if !HoldsSendUnknown(expected) {
        return Err(StaleCapability);
      }
      if expected.facts.reconciliationAttempted {
        return Err(AlreadyReconciled);
      }
      r := Rebuild(LedgerEvent.RetainSendUnknown, |pages| - 1, [expected.facts.(reconciliationAttempted := true)]);
    }

    method SealActive(cursorEnd: Cursor) returns (r: Result<ExecutionPageLedger, LedgerError>)
      requires Valid()
      ensures Rebuilds(LedgerEvent.SealActive(cursorEnd), r)
    {
      var active := FindActivePage();
      if PendingPage().Some? {
        return Err(UnresolvedPage);
      }
      if active.None? {
        ValidEffect(LedgerEvent.SealActive(cursorEnd));
        return Ok(this);
      }
      r := Rebuild(LedgerEvent.SealActive(cursorEnd), |pages| - 1, [SealedAt(active.value.facts, cursorEnd)]);
    }

    // Turn completion drops a pending page and closes the active one.
    method RetireForTurnCompletion(cursorEnd: Cursor) returns (r: Result<ExecutionPageLedger, LedgerError>)
      ensures Rebuilds(LedgerEvent.RetireForTurnCompletion(cursorEnd), r)
      ensures r.Ok? ==> fresh(r.value)
    {
      var keep := |pages|;
      if keep > 0 && pages[keep - 1].facts.Pending() {
        keep := keep - 1;
      }
      assert Facts()[..keep] == WithoutPending(Facts());
      if keep > 0 && pages[keep - 1].facts.status.Active? {
        var active := pages[keep - 1];
        if !cursorEnd.Follows(active.facts.start) {
          return Err(CursorPrecedesPage);
        }
        assert Facts()[..keep - 1] == Init(WithoutPending(Facts()));
        r := Rebuild(LedgerEvent.RetireForTurnCompletion(cursorEnd), keep - 1, [SealedAt(active.facts, cursorEnd)]);
      } else {
        r := Rebuild(LedgerEvent.RetireForTurnCompletion(cursorEnd), keep, []);
      }
    }

    method ClearKnownPages() returns (r: Result<ExecutionPageLedger, LedgerError>)
      ensures Rebuilds(LedgerEvent.ClearKnownPages, r)
      ensures r.Ok? ==> fresh(r.value)
    {
      if PendingPage().Some? {
        return Err(UnresolvedPage);
      }
      r := Rebuild(LedgerEvent.ClearKnownPages, 0, []);
    }
  }
}
