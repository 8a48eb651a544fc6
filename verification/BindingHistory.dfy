// Whole histories of a binding manager: what holds however its operations
// interleave, the two phases of a detach above all.
module BindingHistory {
  import opened Wrappers
  import opened BindingSessions
  import opened BindingRecords
  import opened BindingWorld
  import opened BindingManager
  import opened BindingReplacement
  import O = OwnerAuthority
  import S = SessionAuthority

  // The manager may be here after it was there.
  ghost predicate Later(v: World, w: World) {
    w.Valid() && O.Evolves(v.owners, w.owners) && S.Evolves(v.handles, w.handles)
  }

  // Every outcome of every operation, refused or not, is later.
  lemma OutcomesAreLater(v: World, w: World, factory: Factory, b: BindingKey, facts: State, bs: seq<BindingKey>,
                         records: seq<Record>, originals: seq<Record>, writes: nat -> bool, failed: nat)
    requires v.Valid() && |records| == |originals| == |bs|
    ensures Untouched(v, w, Members(bs)) || Untouched(v, w, Touched(v)) ==> Later(v, w)
    ensures w == v.(owners := w.owners) && w.Valid() && O.Evolves(v.owners, w.owners) ==> Later(v, w)
    ensures w.owners == v.owners && w.Valid() && S.Evolves(v.handles, w.handles) ==> Later(v, w)
    ensures Moved(v, w, factory, b, facts) ==> Later(v, w)
    ensures BatchFailed(v, w, bs, records, originals, writes, failed) ==> Later(v, w)
    ensures BatchDetached(v, w, factory, bs) ==> Later(v, w)
    ensures BatchRemoved(v, w, bs) ==> Later(v, w)
    ensures BatchHydrated(v, w, factory, bs) ==> Later(v, w)
    ensures ReplaceFailed(v, w, bs, records, originals, writes, failed) ==> Later(v, w)
    ensures Replaced(v, w, factory) ==> Later(v, w)
  {
    hide World.Valid, Written, Factory.Stored, HydratedState;
    SelfIsLater(v.owners, v.handles);
  }

  lemma SelfIsLater(s: O.Owners, h: S.Residents)
    ensures O.Evolves(s, s) && S.Evolves(h, h)
  {
  }

  ghost predicate History(ws: seq<World>) {
    && (forall i :: 0 <= i < |ws| ==> ws[i].Valid())
    && (forall i :: 0 <= i < |ws| - 1 ==> Later(ws[i], ws[i + 1]))
  }

  lemma LaterSelf(v: World)
    requires v.Valid()
    ensures Later(v, v)
  {
  }

  lemma LaterComposes(u: World, v: World, w: World)
    requires Later(u, v) && Later(v, w)
    ensures Later(u, w)
  {
    hide World.Valid;
  }

  lemma {:induction false} HistoryGoesOn(ws: seq<World>, i: nat, j: nat)
    requires History(ws) && i <= j < |ws|
    ensures Later(ws[i], ws[j])
    decreases j
  {
    hide Later, World.Valid;
    if i == j {
      LaterSelf(ws[i]);
    } else {
      HistoryGoesOn(ws, i, j - 1);
      assert Later(ws[j - 1], ws[j - 1 + 1]);
      LaterComposes(ws[i], ws[j - 1], ws[j]);
    }
  }

  // ------------------------------------------------------------ freedom from ABA

  // A handle, receipt or preflight that has lost its standing never regains it.
  lemma WithdrawnForGood(ws: seq<World>, i: nat, j: nat, h: RuntimeHandle, r: O.OwnerReceipt, d: O.DetachReceipt)
    requires History(ws) && i <= j < |ws|
    ensures h in ws[i].handles.minted && !ws[i].handles.Registered(h) ==> !ws[j].Authorizes(h)
    ensures r in ws[i].owners.minted && !ws[i].owners.Current(r) ==> forall t :: !ws[j].owners.Accepts(r, t)
    ensures Spent(ws[i].owners, d) ==>
      forall t, bs, disposition :: !Redeemable(ws[j].owners, t, bs, disposition, d)
  {
    hide World.Valid;
    HistoryGoesOn(ws, i, j);
  }

  // ------------------------------------------------------------ two-phase detach

  // While a detach is preflighted, nothing that takes the owner away for another
  // reason goes through.
  lemma PreflightBlocksOthers(v: World, b: BindingKey, loss: O.OwnerLoss, threadId: string, title: string,
                              disposition: O.Disposition, dirAfter: Option<string>, idle: bool, settles: bool,
                              settlesAll: BindingKey -> bool)
    requires Pending(v.owners, b) == Some(loss) && loss.reason == "binding_detached"
    ensures b in v.residents ==> BindRefused(v, b, threadId, disposition, settles)
    ensures b in v.residents ==> ClearRefused(v, b, dirAfter, idle, disposition, settles)
    ensures SettleRefused(v, b, "binding_deactivated", disposition, settlesAll)
    ensures SettleRefused(v, b, "binding_hydrated", disposition, settlesAll)
    ensures b in v.residents ==> ReplaceRefused(v, settlesAll)
  {
    if b in v.residents && b in Candidates(v) {
      CandidateHasThread(v, b);
      assert CandidateRefused(v, b, settlesAll);
    }
  }

  lemma PreflightStands(v: World, w: World, d: O.DetachReceipt, k: nat, threadId: string)
    requires v.Valid() && Later(v, w) && d in v.owners.mintedDetaches && w.owners.Active(d) && k < |d.owners|
    requires v.owners.Accepts(d.owners[k], threadId) && w.owners.Current(d.owners[k])
    ensures Pending(w.owners, d.owners[k].binding) == Some(d.settlements[k].command)
    ensures O.Revision(w.owners, d.owners[k].binding) == O.Revision(v.owners, d.owners[k].binding)
  {
    assert PreflightPinned(w.owners, w.owners.detaches[d.nonce]);
  }

  // If a preflight is still good when the detach is committed, then the thread, the
  // bindings and the disposition are the ones it was issued for, and at every state
  // in between each of those owners was at the same revision, with the same loss
  // reserved.
  lemma CommitMatchesPreflight(ws: seq<World>, i: nat, j: nat, d: O.DetachReceipt, bs: seq<BindingKey>, threadId: string,
                               disposition: O.Disposition, others: seq<BindingKey>, otherThread: string,
                               otherDisposition: O.Disposition)
    requires History(ws) && i <= j < |ws|
    requires Preflighted(ws[i].owners, d, threadId, bs, disposition) && bs != []
    requires Redeemable(ws[j].owners, otherThread, others, otherDisposition, d)
    ensures otherThread == threadId && others == bs && otherDisposition == disposition
    ensures forall m, k :: i <= m <= j && 0 <= k < |bs| ==>
      && Pending(ws[m].owners, bs[k]) == Some(d.settlements[k].command)
      && O.Revision(ws[m].owners, bs[k]) == O.Revision(ws[i].owners, bs[k])
  {
    hide World.Valid, Later;
    ActiveIsMinted(ws[i], d);
    SameCover(ws[i].owners, ws[j].owners, d, bs, threadId, disposition, others, otherThread, otherDisposition);
    forall m, k | i <= m <= j && 0 <= k < |bs|
      ensures Pending(ws[m].owners, bs[k]) == Some(d.settlements[k].command)
      ensures O.Revision(ws[m].owners, bs[k]) == O.Revision(ws[i].owners, bs[k])
    {
      HistoryGoesOn(ws, i, m);
      HistoryGoesOn(ws, m, j);
      assert d.owners[k].binding == bs[k];
      AcceptedIsMinted(ws[i], d.owners[k], threadId);
      LaterEvolves(ws[i], ws[m]);
      LaterEvolves(ws[m], ws[j]);
      StoodBefore(ws[i].owners, ws[m].owners, ws[j].owners, d, d.owners[k]);
      PreflightStands(ws[i], ws[m], d, k, threadId);
    }
  }

  lemma SameCover(s: O.Owners, t: O.Owners, d: O.DetachReceipt, bs: seq<BindingKey>, threadId: string,
                  disposition: O.Disposition, others: seq<BindingKey>, otherThread: string, otherDisposition: O.Disposition)
    requires s.Redeems(d, threadId, bs, disposition) && bs != [] && t.Redeems(d, otherThread, others, otherDisposition)
    ensures otherThread == threadId && others == bs && otherDisposition == disposition
  {
    assert O.SettlesDetach(d.settlements[0], d.owners[0], disposition);
    assert O.SettlesDetach(d.settlements[0], d.owners[0], otherDisposition);
  }

  lemma ActiveIsMinted(v: World, d: O.DetachReceipt)
    requires v.Valid() && v.owners.Active(d)
    ensures d in v.owners.mintedDetaches
  {
  }

  lemma AcceptedIsMinted(v: World, r: O.OwnerReceipt, threadId: string)
    requires v.Valid() && v.owners.Accepts(r, threadId)
    ensures r in v.owners.minted
  {
  }

  lemma LaterEvolves(v: World, w: World)
    requires Later(v, w)
    ensures O.Evolves(v.owners, w.owners)
  {
  }

  // What stands at the end stood all along.
  lemma StoodBefore(s: O.Owners, t: O.Owners, u: O.Owners, d: O.DetachReceipt, r: O.OwnerReceipt)
    requires O.Evolves(s, t) && O.Evolves(t, u) && d in s.mintedDetaches && r in s.minted
    requires u.Active(d) && u.Current(r)
    ensures t.Active(d) && t.Current(r)
  {
  }

  // A detach that goes through with a preflight has the bindings attached that were
  // attached when it was issued.
  lemma AttachedAsPreflighted(v: World, w: World, listing: set<BindingKey> -> seq<BindingKey>, d: O.DetachReceipt,
                              threadId: string, disposition: O.Disposition, otherThread: string, otherDisposition: O.Disposition)
    requires Orders(listing) && AttachedBindings(v.residents, threadId) != {}
    requires Preflighted(v.owners, d, threadId, listing(AttachedBindings(v.residents, threadId)), disposition)
    requires Redeemable(w.owners, otherThread, listing(AttachedBindings(w.residents, otherThread)), otherDisposition, d)
    ensures otherThread == threadId && otherDisposition == disposition
    ensures AttachedBindings(w.residents, threadId) == AttachedBindings(v.residents, threadId)
  {
    var was, now := AttachedBindings(v.residents, threadId), AttachedBindings(w.residents, otherThread);
    Listed(listing, was);
    Listed(listing, now);
    var b :| b in was;
    assert b in Members(listing(was));
    SameCover(v.owners, w.owners, d, listing(was), threadId, disposition, listing(now), otherThread, otherDisposition);
  }
}
