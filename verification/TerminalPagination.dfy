// Cutting a finished transcript into pages: the binary search for the largest
// prefix that fits one page (bot/runtime_card_publisher.py) and the delivery of
// the terminal pages (bot/execution_output_controller.py).
//
// What the outside decides is a parameter: whether a rendered range fits a page,
// and how every send and every reconciliation ends.
module TerminalPagination {
  import opened Wrappers
  import opened ExecutionPages
  import opened PageReceipts

  // ------------------------------------------------- one page's endpoint

  datatype FitError = RangeNotOrdered | ShellTooLarge | NoCharacterFits

  // The cursor `progress` characters after start: process text first, reply next.
  function CursorAt(start: Cursor, end: Cursor, progress: nat): (c: Cursor)
    requires end.Follows(start) && progress <= end.Weight() - start.Weight()
    ensures end.Follows(c) && c.Follows(start) && c.Weight() == start.Weight() + progress
  {
    var process := end.processChars - start.processChars;
    if progress <= process then Cursor(start.processChars + progress, start.replyChars)
    else Cursor(end.processChars, start.replyChars + (progress - process))
  }

  // A prefix of the range: reply text only behind all of its process text.
  predicate Prefix(start: Cursor, end: Cursor, c: Cursor) {
    && c.Follows(start) && end.Follows(c)
    && (c.replyChars > start.replyChars ==> c.processChars == end.processChars)
  }

  // A longer prefix never fits where a shorter one does not.
  ghost predicate FitsShrink(start: Cursor, end: Cursor, fits: (Cursor, Cursor) -> bool) {
    forall c, d :: Prefix(start, end, c) && Prefix(start, end, d) && d.Follows(c) && fits(start, d) ==> fits(start, c)
  }

  // The binary search runs through the prefixes, in order, and through all of them.
  lemma CursorsArePrefixes(start: Cursor, end: Cursor, j: nat, k: nat)
    requires end.Follows(start) && j <= k <= end.Weight() - start.Weight()
    ensures Prefix(start, end, CursorAt(start, end, j)) && Prefix(start, end, CursorAt(start, end, k))
    ensures CursorAt(start, end, k).Follows(CursorAt(start, end, j))
  {
  }

  lemma PrefixesAreCursors(start: Cursor, end: Cursor, c: Cursor)
    requires end.Follows(start) && Prefix(start, end, c)
    ensures 0 <= c.Weight() - start.Weight() <= end.Weight() - start.Weight()
    ensures c == CursorAt(start, end, c.Weight() - start.Weight())
  {
  }

  // No longer prefix than this one fits.
  ghost predicate Longest(start: Cursor, end: Cursor, found: Cursor, fits: (Cursor, Cursor) -> bool) {
    forall c :: Prefix(start, end, c) && c.StrictlyFollows(found) ==> !fits(start, c)
  }

  // What the search has ruled out, as a statement about prefixes.
  lemma RuledOut(start: Cursor, end: Cursor, best: nat, fits: (Cursor, Cursor) -> bool)
    requires end.Follows(start) && best <= end.Weight() - start.Weight()
    requires forall k :: best < k <= end.Weight() - start.Weight() ==> !fits(start, CursorAt(start, end, k))
    ensures Longest(start, end, CursorAt(start, end, best), fits)
  {
    forall c | Prefix(start, end, c) && c.StrictlyFollows(CursorAt(start, end, best)) ensures !fits(start, c) {
      PrefixesAreCursors(start, end, c);
    }
  }

  // A prefix that does not fit rules out all longer ones.
  lemma LongerDoNotFit(start: Cursor, end: Cursor, middle: nat, high: nat, fits: (Cursor, Cursor) -> bool)
    requires end.Follows(start) && middle <= high <= end.Weight() - start.Weight()
    requires FitsShrink(start, end, fits) && !fits(start, CursorAt(start, end, middle))
    ensures forall k :: middle <= k <= high ==> !fits(start, CursorAt(start, end, k))
  {
    forall k | middle <= k <= high ensures !fits(start, CursorAt(start, end, k)) {
      CursorsArePrefixes(start, end, middle, k);
    }
  }

  // Why a range has no endpoint on this page.
  ghost predicate TooSmall(fit: FitError, start: Cursor, end: Cursor, fits: (Cursor, Cursor) -> bool) {
    match fit
    case RangeNotOrdered => !end.Follows(start)
    case ShellTooLarge => end.Follows(start) && !fits(start, start)
    case NoCharacterFits =>
      && end.Follows(start) && start != end && fits(start, start)
      && (FitsShrink(start, end, fits) ==> Longest(start, end, start, fits))
  }

  // The endpoint found is a prefix that fits, it advances whenever there is text
  // left, and it is the longest one if fitting is monotone.
  method FitPageEnd(start: Cursor, end: Cursor, fits: (Cursor, Cursor) -> bool) returns (r: Result<Cursor, FitError>)
    ensures r == Err(RangeNotOrdered) <==> !end.Follows(start)
    ensures r == Err(ShellTooLarge) <==> end.Follows(start) && !fits(start, start)
    ensures r.Err? ==> TooSmall(r.error, start, end, fits)
    ensures r.Ok? ==> end.Follows(r.value) && r.value.Follows(start) && fits(start, r.value)
    ensures r.Ok? && r.value.replyChars > start.replyChars ==> r.value.processChars == end.processChars
    ensures r.Ok? && start != end ==> r.value.StrictlyFollows(start)
    ensures r.Ok? && FitsShrink(start, end, fits) ==> Longest(start, end, r.value, fits)
  {
    hide FitsShrink, Longest;
    if !end.Follows(start) {
      return Err(RangeNotOrdered);
    }
    var total := end.Weight() - start.Weight();
    assert CursorAt(start, end, 0) == start;
    if !fits(start, start) {
      return Err(ShellTooLarge);
    }
    var low, high, best := 1, total, 0;
    while low <= high
      invariant 0 <= best == low - 1 <= high <= total
      invariant fits(start, CursorAt(start, end, best))
      invariant FitsShrink(start, end, fits) ==>
                  forall k :: high < k <= total ==> !fits(start, CursorAt(start, end, k))
      decreases high - low
    {
      var middle := (low + high) / 2;
      if fits(start, CursorAt(start, end, middle)) {
        best, low := middle, middle + 1;
      } else {
        if FitsShrink(start, end, fits) {
          LongerDoNotFit(start, end, middle, high, fits);
        }
        high := middle - 1;
      }
    }
    if FitsShrink(start, end, fits) {
      RuledOut(start, end, best, fits);
    }
    if total > 0 && best == 0 {
      return Err(NoCharacterFits);
    }
    r := Ok(CursorAt(start, end, best));
  }

  // --------------------------------------------------- terminal delivery

  datatype Delivery = Raised | NotConfirmed | Sent(messageId: string)

  // The reply of one page effect retried with its own identity; a page that
  // already knows its message id answers with that id.
  datatype Reconciliation = Reconciliation(outcome: SendOutcome, messageId: string) {
    function For(page: PageFacts): (SendOutcome, string) {
      if !outcome.Confirmed? then (outcome, "")
      else if page.messageId != "" then (outcome, page.messageId)
      else (outcome, messageId)
    }
  }

  datatype TerminalError =
    | TranscriptRegressed
    | DidNotAdvance
    | PageTooSmall(fit: FitError)
    | ConfirmRefused(error: LedgerError)

  // Why the delivery ended.
  datatype Stop =
    | Complete
    | NothingLive
    | PendingUnresolved
    | ReconciledDuplicate
    | SendNotConfirmed
    | SendDuplicate

  function ReceiptOf(p: PageFacts): Receipt {
    Receipt(p.messageId, p.start, p.Close())
  }

  // One receipt for every sealed page, in order.
  function SealedReceipts(ps: seq<PageFacts>): (rs: seq<Receipt>)
    ensures |rs| == LiveFrom(ps)
    ensures forall i :: 0 <= i < |rs| ==> rs[i] == ReceiptOf(ps[i])
  {
    seq(LiveFrom(ps), i requires 0 <= i < LiveFrom(ps) => ReceiptOf(ps[i]))
  }

  // Receipts, unique and contiguous from the origin up to `at`.
  ghost predicate TilesTo(rs: seq<Receipt>, at: Cursor) {
    && IdsUnique(rs)
    && Contiguous(rs)
    && AllWellFormed(rs)
    && (if rs == [] then at == ORIGIN else rs[0].start == ORIGIN && rs[|rs| - 1].end == at)
  }

  function IdsOf(rs: seq<Receipt>): set<string> {
    if rs == [] then {} else IdsOf(rs[..|rs| - 1]) + {rs[|rs| - 1].messageId}
  }

  lemma {:induction false} InIdsOf(rs: seq<Receipt>, id: string)
    ensures id in IdsOf(rs) <==> exists i :: 0 <= i < |rs| && rs[i].messageId == id
  {
    if rs != [] {
      InIdsOf(rs[..|rs| - 1], id);
      assert rs[|rs| - 1].messageId == id ==> exists i :: 0 <= i < |rs| && rs[i].messageId == id;
    }
  }

  lemma OneMoreId(rs: seq<Receipt>, r: Receipt)
    requires IdsUnique(rs) && r.messageId !in IdsOf(rs)
    ensures IdsUnique(rs + [r]) && IdsOf(rs + [r]) == IdsOf(rs) + {r.messageId}
  {
    assert (rs + [r])[..|rs|] == rs;
    InIdsOf(rs, r.messageId);
  }

  lemma TileOneMore(rs: seq<Receipt>, r: Receipt)
    requires TilesTo(rs, r.start) && r.WellFormed() && r.messageId !in IdsOf(rs)
    ensures TilesTo(rs + [r], r.end)
    ensures IdsOf(rs + [r]) == IdsOf(rs) + {r.messageId}
  {
    OneMoreId(rs, r);
    OneMoreTile(rs, r);
  }

  lemma OneMoreTile(rs: seq<Receipt>, r: Receipt)
    requires Contiguous(rs) && AllWellFormed(rs) && r.WellFormed()
    requires rs != [] ==> r.start == rs[|rs| - 1].end
    ensures Contiguous(rs + [r]) && AllWellFormed(rs + [r])
  {
  }

  lemma {:induction false} SealedReceiptsTile(ps: seq<PageFacts>, n: nat)
    requires n <= LiveFrom(ps) && Numbered(ps, |ps|) && MessagesUnique(ps, |ps|) && Tiled(ps, LiveFrom(ps))
    ensures TilesTo(SealedReceipts(ps)[..n], TileEnd(ps, n))
  {
    if n > 0 {
      SealedReceiptsTile(ps, n - 1);
      var rs := SealedReceipts(ps)[..n - 1];
      assert SealedReceipts(ps)[..n] == rs + [ReceiptOf(ps[n - 1])];
      assert forall i :: 0 <= i < n - 1 ==> rs[i].messageId == ps[i].messageId;
      InIdsOf(rs, ps[n - 1].messageId);
      TileOneMore(rs, ReceiptOf(ps[n - 1]));
    }
  }

  // The ports of one delivery.
  datatype Ports = Ports(
    fitsWhole: (Cursor, Cursor) -> bool,
    fitsPart: (Cursor, Cursor) -> bool,
    reconciliation: Reconciliation,
    sends: nat -> Delivery)

  // The pages delivered by the loop, beginning at `start` under `messageId`: all
  // but the last are a proper part of what was left and the next one goes out
  // under the id of the next send; the last is all that was left, or again a part.
  ghost predicate Paged(rs: seq<Receipt>, messageId: string, start: Cursor, end: Cursor, ports: Ports) {
    && (forall i :: 0 <= i < |rs| ==> rs[i].messageId == if i == 0 then messageId else SentId(ports.sends(i - 1)))
    && (forall i :: 0 <= i < |rs| ==> IsPage(rs[i], end, ports))
    && (forall i :: 0 <= i < |rs| - 1 ==> !ports.fitsWhole(rs[i].start, end))
    && (rs != [] ==> rs[0].start == start)
  }

  function SentId(d: Delivery): string {
    if d.Sent? then d.messageId else ""
  }

  // One page: everything up to the end if that fits, a fitting proper part otherwise.
  predicate IsPage(r: Receipt, end: Cursor, ports: Ports) {
    && end.Follows(r.start)
    && (if ports.fitsWhole(r.start, end) then r.end == end
        else
          && end.Follows(r.end) && r.end.StrictlyFollows(r.start) && ports.fitsPart(r.start, r.end)
          && (r.end.replyChars > r.start.replyChars ==> r.end.processChars == end.processChars))
  }

  // A live page remains to be delivered after the pending one was settled.
  predicate Unresolved(ps: seq<PageFacts>, reconciliation: Reconciliation) {
    && LastPending(ps)
    && (Last(ps).status.Opening? || Last(ps).reconciliationAttempted || !reconciliation.outcome.Confirmed?)
  }

  // The receipts that exist before the loop: the sealed pages, and the active
  // page in front of a pending one, closed where that begins.
  function SettledReceipts(ps: seq<PageFacts>): seq<Receipt> {
    if RolloverPending(ps) then
      SealedReceipts(ps) + [ReceiptOf(SealedAt(Last(Init(ps)), Last(ps).start))]
    else
      SealedReceipts(ps)
  }

  lemma LiveIdIsNew(ps: seq<PageFacts>, i: nat)
    requires MessagesUnique(ps, |ps|) && LiveFrom(ps) <= i < |ps| && ps[i].messageId != ""
    ensures ps[i].messageId !in IdsOf(SealedReceipts(ps))
  {
    var rs := SealedReceipts(ps);
    forall k | 0 <= k < |rs| ensures rs[k].messageId != ps[i].messageId {
      assert rs[k].messageId == ps[k].messageId;
    }
    InIdsOf(rs, ps[i].messageId);
  }

  lemma RolloverClosed(ps: seq<PageFacts>)
    requires LedgerOk(ps) && RolloverPending(ps)
    ensures LiveFrom(ps) == |ps| - 2
    ensures ps[|ps| - 2].start == TileEnd(ps, |ps| - 2) && ps[|ps| - 2].messageId != ""
    ensures Last(ps).start.StrictlyFollows(ps[|ps| - 2].start)
  {
  }

  lemma SettledReceiptsTile(ps: seq<PageFacts>)
    requires LedgerOk(ps)
    ensures TilesTo(SettledReceipts(ps), if LiveFrom(ps) < |ps| then Last(ps).start else TileEnd(ps, |ps|))
  {
    var n, rs := LiveFrom(ps), SealedReceipts(ps);
    SealedReceiptsTile(ps, n);
    assert rs[..n] == rs;
    if RolloverPending(ps) {
      RolloverClosed(ps);
      LiveIdIsNew(ps, n);
      TileOneMore(rs, ReceiptOf(SealedAt(ps[n], Last(ps).start)));
    }
  }

  // The id the loop starts with: that of the active page, or the one the pending
  // page was confirmed under.
  function FirstId(ps: seq<PageFacts>, reconciliation: Reconciliation): string
    requires ps != []
  {
    if LastPending(ps) then reconciliation.For(Last(ps)).1 else Last(ps).messageId
  }

  // What the receipts are, for each reason to stop.
  ghost predicate StoppedFor(stop: Stop, ps: seq<PageFacts>, rs: seq<Receipt>, end: Cursor, ports: Ports) {
    var settled := SettledReceipts(ps);
    && settled <= rs
    && match stop
       case NothingLive => LiveFrom(ps) == |ps| && rs == settled
       case PendingUnresolved => Unresolved(ps, ports.reconciliation) && rs == settled
       case ReconciledDuplicate =>
         && LastPending(ps) && !Unresolved(ps, ports.reconciliation) && rs == settled
         && FirstId(ps, ports.reconciliation) in IdsOf(settled)
       case _ =>
         && LiveFrom(ps) < |ps| && !Unresolved(ps, ports.reconciliation) && settled < rs
         && PagesStopped(stop, settled, rs[|settled|..], FirstId(ps, ports.reconciliation), Last(ps).start, end, ports)
  }

  // The pages delivered after the settled receipts, and why there are no more.
  ghost predicate PagesStopped(stop: Stop, settled: seq<Receipt>, pages: seq<Receipt>, messageId: string, start: Cursor,
                               end: Cursor, ports: Ports)
    requires pages != []
  {
    var last, answer := pages[|pages| - 1], SentId(ports.sends(|pages| - 1));
    && Paged(pages, messageId, start, end, ports)
    && (stop.Complete? <==> ports.fitsWhole(last.start, end))
    && (stop.Complete? ==> last.end == end)
    && (stop.SendNotConfirmed? ==> answer == "")
    && (stop.SendDuplicate? ==> answer != "" && answer in IdsOf(settled + pages))
    && (stop.Complete? || stop.SendNotConfirmed? || stop.SendDuplicate?)
  }

  // The receipts of what was shown before the live page: the sealed pages, then an
  // active page in front of a pending one, closed where that begins.
  ghost predicate ShownBefore(ps: seq<PageFacts>, rs: seq<Receipt>, n: nat) {
    && n <= |rs|
    && n == (if |ps| >= 2 && ps[|ps| - 2].status.Active? then |ps| - 1 else if ps != [] && ps[|ps| - 1].end.None? then |ps| - 1 else |ps|)
    && (forall i :: 0 <= i < n && ps[i].end.Some? ==> rs[i] == Receipt(ps[i].messageId, ps[i].start, ps[i].end.value))
    && (forall i :: 0 <= i < n && ps[i].end.None? ==>
          i == |ps| - 2 && rs[i] == Receipt(ps[i].messageId, ps[i].start, ps[|ps| - 1].start))
  }

  // What was delivered after that: from the live page on, the first under the id that
  // page has or was confirmed under, each next one under the id its send answered; and
  // none shows reply text before all of the process text.
  ghost predicate DeliveredFrom(ps: seq<PageFacts>, pages: seq<Receipt>, end: Cursor, ports: Ports) {
    && (pages != [] ==>
          && ps != [] && pages[0].start == Last(ps).start
          && pages[0].messageId == if Last(ps).messageId != "" then Last(ps).messageId else ports.reconciliation.messageId)
    && (forall i :: 0 < i < |pages| ==> ports.sends(i - 1) == Sent(pages[i].messageId))
    && (forall i :: 0 <= i < |pages| && pages[i].end.replyChars > pages[i].start.replyChars ==>
          pages[i].end.processChars == end.processChars)
  }

  ghost predicate PageByPage(ps: seq<PageFacts>, rs: seq<Receipt>, end: Cursor, ports: Ports) {
    exists n: nat :: ShownBefore(ps, rs, n) && n <= |rs| && DeliveredFrom(ps, rs[n..], end, ports)
  }

  lemma SettledIsShownBefore(ps: seq<PageFacts>, rs: seq<Receipt>)
    requires LedgerOk(ps) && SettledReceipts(ps) <= rs
    ensures ShownBefore(ps, rs, |SettledReceipts(ps)|)
  {
    var settled := SettledReceipts(ps);
    if RolloverPending(ps) {
      RolloverClosed(ps);
    }
    assert forall i :: 0 <= i < |settled| ==> rs[i] == settled[i];
  }

  lemma PagedIsDelivered(ps: seq<PageFacts>, pages: seq<Receipt>, end: Cursor, ports: Ports)
    requires pages != [] && LedgerOk(ps) && LiveFrom(ps) < |ps| && !Unresolved(ps, ports.reconciliation)
    requires Paged(pages, FirstId(ps, ports.reconciliation), Last(ps).start, end, ports) && AllWellFormed(pages)
    ensures DeliveredFrom(ps, pages, end, ports)
  {
    forall i | 0 < i < |pages| ensures ports.sends(i - 1) == Sent(pages[i].messageId) {
      assert pages[i].WellFormed();
    }
    forall i | 0 <= i < |pages| && pages[i].end.replyChars > pages[i].start.replyChars
      ensures pages[i].end.processChars == end.processChars
    {
      assert IsPage(pages[i], end, ports);
    }
  }

  lemma StoppedIsPageByPage(stop: Stop, ps: seq<PageFacts>, rs: seq<Receipt>, end: Cursor, ports: Ports)
    requires LedgerOk(ps) && StoppedFor(stop, ps, rs, end, ports) && AllWellFormed(rs)
    ensures PageByPage(ps, rs, end, ports)
  {
    hide LedgerOk, Paged, SettledReceipts, IsPage, ShownBefore, DeliveredFrom, Unresolved;
    SettledIsShownBefore(ps, rs);
    var n := |SettledReceipts(ps)|;
    if n < |rs| {
      PagedIsDelivered(ps, rs[n..], end, ports);
    } else {
      NothingDelivered(ps, end, ports);
      assert rs[n..] == [];
    }
  }

  lemma NothingDelivered(ps: seq<PageFacts>, end: Cursor, ports: Ports)
    ensures DeliveredFrom(ps, [], end, ports)
  {
  }

  // A page still opening, or whose unknown send was retried before or is not confirmed
  // now, stays pending.
  predicate NeverDelivered(p: PageFacts, ports: Ports) {
    || p.status.Opening?
    || (p.status.SendUnknown? && (p.reconciliationAttempted || !ports.reconciliation.outcome.Confirmed?))
  }

  lemma StoppedWhen(stop: Stop, ps: seq<PageFacts>, rs: seq<Receipt>, end: Cursor, ports: Ports)
    requires LedgerOk(ps) && StoppedFor(stop, ps, rs, end, ports)
    ensures stop.NothingLive? <==> ps == [] || Last(ps).status.Sealed?
    ensures stop.PendingUnresolved? <==> ps != [] && NeverDelivered(Last(ps), ports)
  {
    hide Paged, SettledReceipts, PagesStopped;
  }

  lemma PagedOneMore(rs: seq<Receipt>, r: Receipt, messageId: string, start: Cursor, end: Cursor, ports: Ports)
    requires Paged(rs, messageId, start, end, ports) && IsPage(r, end, ports)
    requires rs != [] ==> !ports.fitsWhole(rs[|rs| - 1].start, end)
    requires r.messageId == if rs == [] then messageId else SentId(ports.sends(|rs| - 1))
    requires rs == [] ==> r.start == start
    ensures Paged(rs + [r], messageId, start, end, ports)
  {
    var more := rs + [r];
    assert forall i :: 0 <= i < |rs| ==> more[i] == rs[i];
    assert more[|rs|] == r;
  }

  // What the loop keeps: the receipts tile up to the page it is about to deliver.
  ghost predicate Delivering(settled: seq<Receipt>, published: seq<Receipt>, firstId: string, start: Cursor,
                             messageId: string, cursorStart: Cursor, end: Cursor, ports: Ports)
  {
    && TilesTo(settled + published, cursorStart)
    && messageId != "" && messageId !in IdsOf(settled + published) && end.Follows(cursorStart)
    && Paged(published, firstId, start, end, ports)
    && (if published == [] then messageId == firstId && cursorStart == start
        else !ports.fitsWhole(published[|published| - 1].start, end)
             && messageId == SentId(ports.sends(|published| - 1)))
  }

  lemma PageDelivered(settled: seq<Receipt>, published: seq<Receipt>, firstId: string, start: Cursor,
                      page: Receipt, end: Cursor, ports: Ports)
    requires Delivering(settled, published, firstId, start, page.messageId, page.start, end, ports)
    requires IsPage(page, end, ports)
    ensures TilesTo(settled + (published + [page]), page.end)
    ensures IdsOf(settled + (published + [page])) == IdsOf(settled + published) + {page.messageId}
    ensures Paged(published + [page], firstId, start, end, ports)
  {
    TileOneMore(settled + published, page);
    assert settled + published + [page] == settled + (published + [page]);
    PagedOneMore(published, page, firstId, start, end, ports);
  }

  // No page can begin here: what is left does not fit, and nor does any part of it.
  ghost predicate StuckAt(error: TerminalError, at: Cursor, end: Cursor, ports: Ports) {
    && !ports.fitsWhole(at, end)
    && match error
       case DidNotAdvance => at == end && ports.fitsPart(at, at)
       case PageTooSmall(fit) => !fit.RangeNotOrdered? && TooSmall(fit, at, end, ports.fitsPart)
       case _ => false
  }

  // Where the page that begins at `start` ends.
  method ChoosePageEnd(start: Cursor, end: Cursor, ports: Ports) returns (r: Result<Cursor, TerminalError>)
    requires end.Follows(start)
    ensures r.Ok? ==> IsPage(Receipt("", start, r.value), end, ports) && end.Follows(r.value)
    ensures r.Err? ==> StuckAt(r.error, start, end, ports)
  {
    if ports.fitsWhole(start, end) {
      return Ok(end);
    }
    var fitted := FitPageEnd(start, end, ports.fitsPart);
    if fitted.Err? {
      return Err(PageTooSmall(fitted.error));
    }
    if !fitted.value.StrictlyFollows(start) {
      return Err(DidNotAdvance);
    }
    r := Ok(fitted.value);
  }

  lemma DeliveringOnward(settled: seq<Receipt>, published: seq<Receipt>, firstId: string, start: Cursor,
                         messageId: string, cursorStart: Cursor, end: Cursor, ports: Ports)
    requires Delivering(settled, published, firstId, start, messageId, cursorStart, end, ports)
    ensures end.Follows(cursorStart) && Paged(published, firstId, start, end, ports)
  {
  }

  lemma NextPage(settled: seq<Receipt>, published: seq<Receipt>, firstId: string, start: Cursor, page: Receipt, answer: string,
                 end: Cursor, ports: Ports)
    requires published != [] && published[|published| - 1] == page && IsPage(page, end, ports) && !ports.fitsWhole(page.start, end)
    requires TilesTo(settled + published, page.end) && Paged(published, firstId, start, end, ports)
    requires answer == SentId(ports.sends(|published| - 1)) != "" && answer !in IdsOf(settled + published)
    ensures Delivering(settled, published, firstId, start, answer, page.end, end, ports)
    ensures page.start.Weight() < page.end.Weight() <= end.Weight()
  {
  }

  function EndOf(pages: seq<Receipt>, start: Cursor): Cursor {
    if pages == [] then start else pages[|pages| - 1].end
  }

  // The pagination loop, entered with the receipts settled so far.
  method DeliverPages(settled: seq<Receipt>, firstId: string, start: Cursor, end: Cursor, ports: Ports)
    returns (r: Result<seq<Receipt>, TerminalError>, published: seq<Receipt>, ghost stop: Stop)
    requires Delivering(settled, [], firstId, start, firstId, start, end, ports)
    ensures r.Ok? ==>
      && published != [] && r.value == settled + published
      && TilesTo(r.value, published[|published| - 1].end)
      && PagesStopped(stop, settled, published, firstId, start, end, ports)
    ensures r.Err? ==>
      Paged(published, firstId, start, end, ports) && StuckAt(r.error, EndOf(published, start), end, ports)
  {
    hide StuckAt, IsPage, TilesTo, Delivering, Paged, Cursor.Follows;
    var cursorStart, messageId := start, firstId;
    published := [];
    stop := Complete;
    while true
      invariant Delivering(settled, published, firstId, start, messageId, cursorStart, end, ports)
      invariant cursorStart == EndOf(published, start)
      decreases end.Weight() - cursorStart.Weight()
    {
      DeliveringOnward(settled, published, firstId, start, messageId, cursorStart, end, ports);
      var pageEnd := ChoosePageEnd(cursorStart, end, ports);
      if pageEnd.Err? {
        return Err(pageEnd.error), published, stop;
      }
      var page := Receipt(messageId, cursorStart, pageEnd.value);
      PageDelivered(settled, published, firstId, start, page, end, ports);
      published := published + [page];
      if ports.fitsWhole(cursorStart, end) {
        return Ok(settled + published), published, Complete;
      }
      var answer := SentId(ports.sends(|published| - 1));
      if answer == "" {
        return Ok(settled + published), published, SendNotConfirmed;
      }
      if answer in IdsOf(settled + published) {
        return Ok(settled + published), published, SendDuplicate;
      }
      NextPage(settled, published, firstId, start, page, answer, end, ports);
      cursorStart, messageId := page.end, answer;
    }
  }

  // What is left to do once the pending page is settled.
  datatype Entry = Deliver(messageId: string, start: Cursor) | Finish(stop: Stop) | Fail(error: TerminalError)

  ghost predicate Enters(entry: Entry, ps: seq<PageFacts>, end: Cursor, ports: Ports) {
    match entry
    case Deliver(messageId, start) =>
      && LiveFrom(ps) < |ps|
      && !Unresolved(ps, ports.reconciliation)
      && messageId == FirstId(ps, ports.reconciliation) != ""
      && messageId !in IdsOf(SettledReceipts(ps))
      && start == Last(ps).start
      && end.Follows(start)
    case Finish(stop) => StoppedFor(stop, ps, SettledReceipts(ps), end, ports)
    case Fail(error) =>
      && LiveFrom(ps) < |ps|
      && (error.TranscriptRegressed? ==> !end.Follows(Last(ps).start))
      && (error.ConfirmRefused? ==> LastUnknown(ps) && ports.reconciliation.For(Last(ps)) == (Confirmed, ""))
      && (error.TranscriptRegressed? || error.ConfirmRefused?)
  }

  // Close the page in front of a pending one.
  method ClosePrevious(ledger: ExecutionPageLedger) returns (receipts: seq<Receipt>, closed: seq<Receipt>)
    requires ledger.Valid()
    ensures receipts == SettledReceipts(ledger.Facts()) == SealedReceipts(ledger.Facts()) + closed
    ensures closed != [] ==> ledger.pages != [] && closed[|closed| - 1].end == Last(ledger.Facts()).start
  {
    receipts := SealedPages(ledger);
    closed := [];
    var pending, previous := ledger.PendingPage(), ledger.ActivePage();
    if pending.Some? && previous.Some? {
      RolloverClosed(ledger.Facts());
      closed := [Receipt(previous.value.facts.messageId, previous.value.facts.start, pending.value.facts.start)];
      receipts := receipts + closed;
    }
  }

  // Retry the pending page's send with its own identity, once.
  method SettlePending(ledger: ExecutionPageLedger, settled: seq<Receipt>, end: Cursor, ports: Ports) returns (entry: Entry)
    requires ledger.Valid() && settled == SettledReceipts(ledger.Facts())
    requires LastPending(ledger.Facts()) && end.Follows(Last(ledger.Facts()).start)
    ensures Enters(entry, ledger.Facts(), end, ports)
    ensures entry != Fail(TranscriptRegressed)
  {
    ghost var ps := ledger.Facts();
    var live := ledger.pages[|ledger.pages| - 1];
    var (outcome, reconciledId) := ports.reconciliation.For(live.facts);
    if live.facts.status.Opening? || live.facts.reconciliationAttempted || !outcome.Confirmed? {
      return Finish(PendingUnresolved);
    }
    if reconciledId in IdsOf(settled) {
      return Finish(ReconciledDuplicate);
    }
    ConfirmedIsLive(ps, reconciledId);
    var confirmed := ledger.ConfirmSendUnknown(live, reconciledId);
    if confirmed.Err? {
      return Fail(ConfirmRefused(confirmed.error));
    }
    var active := ActiveOf(confirmed.value, ps, reconciledId);
    entry := Deliver(active.facts.messageId, active.facts.start);
  }

  method ActiveOf(ledger: ExecutionPageLedger, ghost ps: seq<PageFacts>, ghost messageId: string)
    returns (active: ExecutionPage)
    requires LastPending(ps) && ledger.Facts() == Promoted(ps, messageId)
    ensures active.facts.messageId == messageId && active.facts.start == Last(ps).start
  {
    assert LastActive(ledger.Facts());
    active := ledger.ActivePage().value;
  }

  // What there is to deliver: the active page, or the pending one if it settles.
  method EnterDelivery(ledger: ExecutionPageLedger, settled: seq<Receipt>, end: Cursor, ports: Ports) returns (entry: Entry)
    requires ledger.Valid() && settled == SettledReceipts(ledger.Facts())
    ensures Enters(entry, ledger.Facts(), end, ports)
    ensures LiveFrom(ledger.Facts()) < |ledger.pages| && !end.Follows(Last(ledger.Facts()).start) ==>
              entry == Fail(TranscriptRegressed)
  {
    ghost var ps := ledger.Facts();
    if ledger.pages == [] || ledger.pages[|ledger.pages| - 1].facts.status.Sealed? {
      assert LiveFrom(ps) == |ps|;
      return Finish(NothingLive);
    }
    var live := ledger.pages[|ledger.pages| - 1];
    if !end.Follows(live.facts.start) {
      return Fail(TranscriptRegressed);
    }
    if ledger.PendingPage().Some? {
      entry := SettlePending(ledger, settled, end, ports);
    } else {
      LiveIdIsNew(ps, |ps| - 1);
      entry := Deliver(live.facts.messageId, live.facts.start);
    }
  }

  // Deliver the terminal pages of a finished turn.  Whatever the ports answer, it
  // ends; its receipts are unique and tile the transcript from the origin, so
  // their validator never objects; and the ranges published are exactly those of
  // the receipts after the sealed ones.  From a live page the receipts reach the
  // end of the transcript, or the delivery stopped for one of the reasons named.
  method PresentTerminal(ledger: ExecutionPageLedger, end: Cursor, ports: Ports)
    returns (r: Result<seq<Receipt>, TerminalError>, published: seq<Receipt>, ghost stop: Stop)
    requires ledger.Valid()
    ensures var ps := ledger.Facts();
      r == Err(TranscriptRegressed) <==> LiveFrom(ps) < |ps| && !end.Follows(Last(ps).start)
    ensures r.Err? && r.error.ConfirmRefused? ==>
      LastUnknown(ledger.Facts()) && ports.reconciliation.For(Last(ledger.Facts())) == (Confirmed, "")
    ensures r.Err? && !r.error.ConfirmRefused? && !r.error.TranscriptRegressed? ==>
      ledger.pages != [] && StuckAt(r.error, EndOf(published, Last(ledger.Facts()).start), end, ports)
    ensures r.Ok? ==> TilesTo(r.value, if r.value == [] then ORIGIN else r.value[|r.value| - 1].end)
    ensures r.Ok? ==> StoppedFor(stop, ledger.Facts(), r.value, end, ports)
    ensures r.Ok? ==> SealedReceipts(ledger.Facts()) + published == r.value
    ensures r.Ok? ==> PageByPage(ledger.Facts(), r.value, end, ports)
    ensures r.Ok? ==> (stop.NothingLive? <==> ledger.pages == [] || Last(ledger.Facts()).status.Sealed?)
    ensures r.Ok? ==> (stop.PendingUnresolved? <==> ledger.pages != [] && NeverDelivered(Last(ledger.Facts()), ports))
  {
    hide StoppedFor, PageByPage, LedgerOk, StuckAt, Enters, NeverDelivered;
    var receipts, closed := ClosePrevious(ledger);
    SettledReceiptsTile(ledger.Facts());
    var entry := EnterDelivery(ledger, receipts, end, ports);
    var pages: seq<Receipt>;
    r, pages, stop := CompleteDelivery(ledger.Facts(), entry, receipts, end, ports);
    published := closed + pages;
    ConcatAssociates(SealedReceipts(ledger.Facts()), closed, pages);
    if r.Ok? {
      StoppedIsPageByPage(stop, ledger.Facts(), r.value, end, ports);
      StoppedWhen(stop, ledger.Facts(), r.value, end, ports);
    }
  }

  lemma ConcatAssociates<T>(a: seq<T>, b: seq<T>, c: seq<T>)
    ensures a + (b + c) == (a + b) + c
  {
  }

  method CompleteDelivery(ghost ps: seq<PageFacts>, entry: Entry, receipts: seq<Receipt>, end: Cursor, ports: Ports)
    returns (r: Result<seq<Receipt>, TerminalError>, published: seq<Receipt>, ghost stop: Stop)
    requires receipts == SettledReceipts(ps) && Enters(entry, ps, end, ports)
    requires TilesTo(receipts, if LiveFrom(ps) < |ps| then Last(ps).start else TileEnd(ps, |ps|))
    ensures r.Ok? ==> TilesTo(r.value, if r.value == [] then ORIGIN else r.value[|r.value| - 1].end)
    ensures r.Ok? ==> StoppedFor(stop, ps, r.value, end, ports)
    ensures r.Ok? ==> r.value == receipts + published
    ensures r.Err? && (r.error.ConfirmRefused? || r.error.TranscriptRegressed?) ==> entry == Fail(r.error)
    ensures r.Err? && !r.error.ConfirmRefused? && !r.error.TranscriptRegressed? ==>
      ps != [] && StuckAt(r.error, EndOf(published, Last(ps).start), end, ports)
    ensures entry.Fail? ==> r == Err(entry.error)
  {
    published, stop := [], NothingLive;
    match entry {
      case Fail(error) =>
        r := Err(error);
      case Finish(reason) =>
        r := Validated(receipts);
        stop := reason;
      case Deliver(messageId, start) =>
        assert receipts + [] == receipts;
        r, published, stop := DeliverPages(receipts, messageId, start, end, ports);
        if r.Ok? {
          DeliveredIsStop(ps, published, end, ports, stop);
          r := Validated(r.value);
        }
    }
  }

  lemma DeliveredIsStop(ps: seq<PageFacts>, pages: seq<Receipt>, end: Cursor, ports: Ports, stop: Stop)
    requires LiveFrom(ps) < |ps| && !Unresolved(ps, ports.reconciliation) && pages != []
    requires PagesStopped(stop, SettledReceipts(ps), pages, FirstId(ps, ports.reconciliation), Last(ps).start, end, ports)
    ensures StoppedFor(stop, ps, SettledReceipts(ps) + pages, end, ports)
  {
    var rs := SettledReceipts(ps) + pages;
    assert rs[|SettledReceipts(ps)|..] == pages;
  }

  // Returning the receipts runs their validator, which does not object.
  method Validated(receipts: seq<Receipt>) returns (r: Result<seq<Receipt>, TerminalError>)
    requires IdsUnique(receipts) && Contiguous(receipts)
    ensures r == Ok(receipts)
  {
    var checked := RequireReceipts(receipts);
    r := Ok(checked.value);
  }

  lemma ConfirmedIsLive(ps: seq<PageFacts>, messageId: string)
    requires LedgerOk(ps) && LastUnknown(ps) && messageId !in IdsOf(SettledReceipts(ps))
    requires Last(ps).messageId != "" ==> messageId == Last(ps).messageId
    ensures var e := LedgerEvent.ConfirmSendUnknown(messageId);
      if messageId == "" then Transition(ps, e) == Err(EmptyText)
      else Transition(ps, e) == Ok(Promoted(ps, messageId))
  {
    hide LedgerOk;
    if messageId != "" {
      SettledIds(ps, messageId);
      PendingPromoted(ps, messageId);
    }
  }

  lemma SettledIds(ps: seq<PageFacts>, messageId: string)
    requires LedgerOk(ps) && LastPending(ps) && messageId !in IdsOf(SettledReceipts(ps))
    ensures forall p :: p in Init(ps) ==> p.messageId != messageId
  {
    var rs := SettledReceipts(ps);
    InIdsOf(rs, messageId);
    if RolloverPending(ps) {
      RolloverClosed(ps);
    }
    forall i | 0 <= i < |ps| - 1 ensures ps[i].messageId != messageId {
      assert rs[i].messageId == ps[i].messageId;
    }
  }

  method SealedPages(ledger: ExecutionPageLedger) returns (receipts: seq<Receipt>)
    requires ledger.Valid()
    ensures receipts == SealedReceipts(ledger.Facts())
  {
    receipts := [];
    for i := 0 to |ledger.pages|
      invariant receipts == SealedReceipts(ledger.Facts())[..if i <= LiveFrom(ledger.Facts()) then i else LiveFrom(ledger.Facts())]
    {
      var page := ledger.pages[i].facts;
      if page.status.Sealed? {
        receipts := receipts + [ReceiptOf(page)];
      }
    }
  }
}
