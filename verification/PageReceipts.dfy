// Receipts of confirmed terminal pages, their validator, and the test whether
// they cover an interval of the reply (bot/execution_pages.py).
module PageReceipts {
  import opened Wrappers
  import opened ExecutionPages

  datatype Receipt = Receipt(messageId: string, start: Cursor, end: Cursor) {
    predicate WellFormed() {
      messageId != "" && end.Follows(start)
    }

    // The reply position p is shown on this page.
    predicate Shows(p: int) {
      start.replyChars <= p < end.replyChars
    }
  }

  datatype ReceiptError = MessageIdRepeated | RangesNotContiguous | IntervalNotOrdered

  ghost predicate IdsUnique(rs: seq<Receipt>) {
    forall i, j {:trigger rs[i].messageId, rs[j].messageId} :: 0 <= i < j < |rs| ==> rs[i].messageId != rs[j].messageId
  }

  ghost predicate Contiguous(rs: seq<Receipt>) {
    forall i, j :: 0 <= i < j < |rs| && j == i + 1 ==> rs[j].start == rs[i].end
  }

  ghost predicate AllWellFormed(rs: seq<Receipt>) {
    forall i :: 0 <= i < |rs| ==> rs[i].WellFormed()
  }

  // Require one contiguous, unique sequence of confirmed page receipts.
  method RequireReceipts(rs: seq<Receipt>) returns (r: Result<seq<Receipt>, ReceiptError>)
    ensures r.Ok? <==> IdsUnique(rs) && Contiguous(rs)
    ensures r.Ok? ==> r.value == rs
  {
    var ids: set<string> := {};
    var previous: Option<Cursor> := None;
    for i := 0 to |rs|
      invariant IdsUnique(rs[..i]) && Contiguous(rs[..i])
      invariant ids == set k | 0 <= k < i :: rs[k].messageId
      invariant previous == if i == 0 then None else Some(rs[i - 1].end)
    {
      if rs[i].messageId in ids {
        var k :| 0 <= k < i && rs[k].messageId == rs[i].messageId;
        assert rs[k].messageId == rs[i].messageId;
        return Err(MessageIdRepeated);
      }
      ids := ids + {rs[i].messageId};
      if previous.Some? && rs[i].start != previous.value {
        assert rs[i - 1].end == previous.value;
        return Err(RangesNotContiguous);
      }
      previous := Some(rs[i].end);
    }
    assert rs[..|rs|] == rs;
    r := Ok(rs);
  }

  // ---------------------------------------------------------- coverage

  predicate Intersects(receipt: Receipt, start: nat, end: nat) {
    receipt.end.replyChars > start && receipt.start.replyChars < end
  }

  function Intersecting(rs: seq<Receipt>, start: nat, end: nat): seq<Receipt> {
    if rs == [] then
      []
    else
      var found := Intersecting(rs[..|rs| - 1], start, end);
      if Intersects(rs[|rs| - 1], start, end) then found + [rs[|rs| - 1]] else found
  }

  ghost predicate Shown(rs: seq<Receipt>, p: int) {
    exists i :: 0 <= i < |rs| && rs[i].Shows(p)
  }

  ghost predicate StartsGrow(rs: seq<Receipt>) {
    forall i, j :: 0 <= i < j < |rs| ==> rs[i].start.replyChars <= rs[i].end.replyChars <= rs[j].start.replyChars
  }

  // Which receipts of a contiguous sequence meet the interval, and whether they
  // cover it: exactly when every reply position of it is shown on some page.
  method IntervalCoverage(rs: seq<Receipt>, start: nat, end: nat)
    returns (r: Result<(seq<Receipt>, bool), ReceiptError>)
    requires AllWellFormed(rs)
    ensures r.Ok? <==> IdsUnique(rs) && Contiguous(rs) && start < end
    ensures r.Ok? ==> r.value.0 == Intersecting(rs, start, end)
    ensures r.Ok? ==> forall receipt ::
      receipt in r.value.0 <==> receipt in rs && receipt.end.replyChars > start && receipt.start.replyChars < end
    ensures r.Ok? ==> (r.value.1 <==> forall p :: start <= p < end ==> Shown(rs, p))
  {
    var validated := RequireReceipts(rs);
    if validated.Err? {
      return Err(validated.error);
    }
    if end <= start {
      return Err(IntervalNotOrdered);
    }
    var intersecting: seq<Receipt> := [];
    for i := 0 to |rs|
      invariant intersecting == Intersecting(rs[..i], start, end)
    {
      assert rs[..i + 1][..i] == rs[..i];
      if Intersects(rs[i], start, end) {
        intersecting := intersecting + [rs[i]];
      }
    }
    assert rs[..|rs|] == rs;
    IntersectingAre(rs, start, end);
    IntersectingGrow(rs, start, end);
    var coveredUntil := start;
    var i := 0;
    while i < |intersecting|
      invariant 0 <= i <= |intersecting|
      invariant start <= coveredUntil && (i < |intersecting| ==> coveredUntil < end)
      invariant forall p :: start <= p < coveredUntil ==> Shown(intersecting, p)
      invariant forall k :: 0 <= k < i ==> intersecting[k].end.replyChars <= coveredUntil
    {
      if intersecting[i].start.replyChars > coveredUntil {
        GapNotShown(intersecting, i, coveredUntil);
        break;
      }
      assert forall p :: coveredUntil <= p < intersecting[i].end.replyChars ==> intersecting[i].Shows(p);
      coveredUntil := if intersecting[i].end.replyChars > coveredUntil then intersecting[i].end.replyChars else coveredUntil;
      i := i + 1;
      if coveredUntil >= end {
        break;
      }
    }
    ghost var at := coveredUntil;
    IntersectingShows(rs, start, end);
    assert coveredUntil < end ==> !Shown(intersecting, at);
    r := Ok((intersecting, coveredUntil >= end));
  }

  // Contiguous receipts only ever move forwards.
  lemma {:induction false} ContiguousGrow(rs: seq<Receipt>, i: nat, j: nat)
    requires AllWellFormed(rs) && Contiguous(rs) && i < j < |rs|
    ensures rs[i].end.replyChars <= rs[j].start.replyChars
    decreases j
  {
    if i + 1 < j {
      ContiguousGrow(rs, i, j - 1);
      assert rs[j - 1].WellFormed();
    }
    assert rs[j].start == rs[j - 1].end;
  }

  lemma {:induction false} IntersectingFrom(rs: seq<Receipt>, start: nat, end: nat, k: nat) returns (i: nat)
    requires k < |Intersecting(rs, start, end)|
    ensures i < |rs| && rs[i] == Intersecting(rs, start, end)[k] && Intersects(rs[i], start, end)
  {
    var front := rs[..|rs| - 1];
    if k < |Intersecting(front, start, end)| {
      i := IntersectingFrom(front, start, end, k);
    } else {
      i := |rs| - 1;
    }
  }

  lemma {:induction false} IntersectingAre(rs: seq<Receipt>, start: nat, end: nat)
    ensures forall receipt ::
      receipt in Intersecting(rs, start, end) <==> receipt in rs && receipt.end.replyChars > start && receipt.start.replyChars < end
  {
    if rs != [] {
      IntersectingAre(rs[..|rs| - 1], start, end);
      assert rs == rs[..|rs| - 1] + [rs[|rs| - 1]];
    }
  }

  lemma {:induction false} IntersectingGrow(rs: seq<Receipt>, start: nat, end: nat)
    requires AllWellFormed(rs) && Contiguous(rs)
    ensures StartsGrow(Intersecting(rs, start, end))
  {
    if rs != [] {
      var n := |rs| - 1;
      var front := rs[..n];
      IntersectingGrow(front, start, end);
      forall k | 0 <= k < |Intersecting(front, start, end)|
        ensures Intersecting(front, start, end)[k].WellFormed()
        ensures Intersecting(front, start, end)[k].end.replyChars <= rs[n].start.replyChars
      {
        var i := IntersectingFrom(front, start, end, k);
        ContiguousGrow(rs, i, n);
      }
    }
  }

  // Every receipt that shows a position of the interval meets the interval.
  lemma {:induction false} IntersectingShows(rs: seq<Receipt>, start: nat, end: nat)
    ensures forall p :: start <= p < end ==> (Shown(rs, p) <==> Shown(Intersecting(rs, start, end), p))
  {
    if rs != [] {
      var n := |rs| - 1;
      var front := rs[..n];
      var found := Intersecting(front, start, end);
      IntersectingShows(front, start, end);
      forall p | start <= p < end
        ensures Shown(rs, p) <==> Shown(Intersecting(rs, start, end), p)
      {
        ShownConcat(front, [rs[n]], p);
        assert front + [rs[n]] == rs;
        ShownConcat(found, if Intersects(rs[n], start, end) then [rs[n]] else [], p);
      }
    }
  }

  lemma ShownConcat(a: seq<Receipt>, b: seq<Receipt>, p: int)
    ensures Shown(a + b, p) <==> Shown(a, p) || Shown(b, p)
  {
    if i :| 0 <= i < |a| && a[i].Shows(p) {
      assert (a + b)[i].Shows(p);
    }
    if i :| 0 <= i < |b| && b[i].Shows(p) {
      assert (a + b)[|a| + i].Shows(p);
    }
  }

  lemma GapNotShown(rs: seq<Receipt>, i: nat, p: int)
    requires StartsGrow(rs) && i < |rs| && rs[i].start.replyChars > p
    requires forall k :: 0 <= k < i ==> rs[k].end.replyChars <= p
    ensures !Shown(rs, p)
  {
    forall k | 0 <= k < |rs| ensures !rs[k].Shows(p) {
      if k > i {
        assert rs[i].end.replyChars <= rs[k].start.replyChars;
      }
    }
  }
}
