// Mutations of bindings (bot/binding_runtime_manager.py).  A mutation settles the
// owner it takes away, then writes the record, and only then changes anything
// resident.
//
// A resident dictionary is an object (its token) with a state value; the store
// and the owner-loss settler may fail on every call, which is a parameter; calls
// back into the manager while it is at work are taken not to happen.
module BindingManager {
  import opened Wrappers
  import opened BindingSessions
  import opened BindingRecords
  import opened OwnerAuthority
  import opened BindingReplacement
  import opened BindingWorld
  import S = SessionAuthority

  // What makes the settlement of b's owner raise.
  predicate SettleRefused(v: World, b: BindingKey, reason: string, disposition: Disposition, settles: BindingKey -> bool) {
    || LossBlocked(v.owners, b, v.OwnerThread(b), reason, disposition)
    || (v.OwnerThread(b) != "" && !settles(b))
  }

  lemma StoredAs(factory: Factory, store: map<BindingKey, Record>, b: BindingKey, s: State)
    ensures RecordOf(factory, s, Get(Put(store, b, factory.Stored(s)), b))
  {
    hide RecordOf, Put, Factory.Stored;
    RecordsOnFields(factory, s, EMPTY_RECORD);
    PutKeeps(store, b, factory.Stored(s));
  }

  lemma DetachRestored(v: World, w: World, factory: Factory, bs: seq<BindingKey>, writes: nat -> bool, failed: nat)
    requires forall b :: b in bs ==> b in v.residents
    requires BatchFailed(v, w, bs, DetachedRecords(factory, v.residents, bs), OriginalRecords(factory, v.residents, bs), writes, failed)
    ensures StatesRestored(v, w, factory, bs, writes, failed)
  {
    hide World.Valid, Calm, Written, StatesRestored, Factory.Stored;
    assert OriginalRecords(factory, v.residents, bs) == RecordsBefore(factory, v.residents, v.store, bs);
    FailedIsRestored(v, w, factory, bs, DetachedRecords(factory, v.residents, bs), OriginalRecords(factory, v.residents, bs), writes, failed);
  }

  lemma HydrationRestored(v: World, w: World, factory: Factory, bs: seq<BindingKey>, writes: nat -> bool, failed: nat)
    requires forall b :: b in bs ==> b in v.store
    requires BatchFailed(v, w, bs, HydratedRecords(factory, v.store, bs), StoredRecords(v.store, bs), writes, failed)
    ensures RecordsRestored(v, w, bs, writes, failed)
  {
    hide World.Valid, Calm, Written, RecordsRestored, Factory.Stored, HydratedState;
    FailedIsRestored(v, w, factory, bs, HydratedRecords(factory, v.store, bs), StoredRecords(v.store, bs), writes, failed);
  }

  lemma ReplaceRestored(v: World, w: World, factory: Factory, bs: seq<BindingKey>, writes: nat -> bool, failed: nat)
    requires forall b :: b in bs ==> b in v.store
    requires
      || w.store == v.store
      || (failed < |bs|
          && Written(v.store, w.store, bs, HydratedRecords(factory, v.store, bs), StoredRecords(v.store, bs), writes, failed))
    ensures RecordsRestored(v, w, bs, writes, failed)
  {
    hide Written, RecordsRestored, Factory.Stored, HydratedState;
    FailedIsRestored(v, w, factory, bs, HydratedRecords(factory, v.store, bs), StoredRecords(v.store, bs), writes, failed);
  }

  lemma SettledNow(s: Owners, b: BindingKey, loss: OwnerLoss, reason: string, disposition: Disposition, threadId: string)
    requires loss.owner.binding == b && loss.reason == reason && loss.disposition == disposition && Pinned(s, loss, threadId)
    ensures SettledFor(s, b, loss, reason, disposition, threadId)
  {
  }

  // The preflight may be redeemed for exactly these bindings, and every owner it
  // covers is still current.
  predicate Redeemable(s: Owners, threadId: string, bs: seq<BindingKey>, disposition: Disposition, receipt: DetachReceipt) {
    && s.Redeems(receipt, threadId, bs, disposition)
    && AcceptsAll(s, receipt.owners, threadId)
  }

  // A preflight that is presented for what it covers is used up, whatever follows.
  predicate PreflightUsed(s: Owners, t: Owners, threadId: string, bs: seq<BindingKey>, disposition: Disposition,
                          receipt: Option<DetachReceipt>)
  {
    receipt.Some? && s.Redeems(receipt.value, threadId, bs, disposition) ==> Spent(t, receipt.value)
  }

  predicate Spent(s: Owners, receipt: DetachReceipt) {
    receipt in s.mintedDetaches && !s.Active(receipt)
  }

  lemma RedeemedIsUsed(s: Owners, d: DetachReceipt, threadId: string, bs: seq<BindingKey>, disposition: Disposition)
    requires s.Valid()
    ensures PreflightUsed(s, Step(s, OwnerEvent.ConsumeDetach(d, threadId, bs, disposition)), threadId, bs, disposition, Some(d))
  {
  }

  lemma UsedStays(s: Owners, t: Owners, u: Owners, threadId: string, bs: seq<BindingKey>, disposition: Disposition,
                  receipt: Option<DetachReceipt>)
    requires PreflightUsed(s, t, threadId, bs, disposition, receipt) && Evolves(t, u)
    ensures PreflightUsed(s, u, threadId, bs, disposition, receipt)
  {
  }

  lemma MovedEvolves(s: Owners, t: Owners, bs: set<BindingKey>)
    requires OwnersMoved(s, t, bs)
    ensures Evolves(s, t)
  {
  }

  // Without a preflight every owner has to be settled now.
  predicate DetachRefused(v: World, threadId: string, bs: seq<BindingKey>, disposition: Disposition,
                          receipt: Option<DetachReceipt>, settles: BindingKey -> bool)
  {
    match receipt
    case Some(d) => !Redeemable(v.owners, threadId, bs, disposition, d)
    case None => exists b :: b in bs && SettleRefused(v, b, "binding_detached", disposition, settles)
  }

  // What a failed batch leaves: residents, subscriptions and owner revisions as they
  // were, and the records as the rollback left them.
  ghost predicate BatchFailed(v: World, w: World, bs: seq<BindingKey>, records: seq<Record>, originals: seq<Record>,
                              writes: nat -> bool, failed: nat)
    requires |bs| == |records| == |originals|
  {
    && w.Valid() && w.residents == v.residents && w.subscriptions == v.subscriptions && w.handles == v.handles
    && Calm(v.owners, w.owners, Members(bs))
    && (w.store == v.store || (failed < |bs| && Written(v.store, w.store, bs, records, originals, writes, failed)))
  }

  // A whole batch was detached: states, records, owners and handles.
  ghost predicate BatchDetached(v: World, w: World, factory: Factory, bs: seq<BindingKey>) {
    && (forall b :: b in bs ==> b in v.residents)
    && w.Valid() && w.residents == DetachedAll(v.residents, Members(bs))
    && (forall b :: b !in bs ==> Get(w.store, b) == Get(v.store, b))
    && (forall b :: b in bs ==> Get(w.store, b) == Kept(factory.Stored(w.residents[b].facts)))
    && OwnersMoved(v.owners, w.owners, Members(bs)) && Rotated(v.handles, w.handles, Members(bs))
  }

  // Every binding that was attached to the thread is detached from it, in the store as
  // well, and no other has changed.
  ghost predicate ThreadLeft(v: World, w: World, factory: Factory, threadId: string) {
    && w.residents.Keys == v.residents.Keys
    && (forall b :: b in v.residents && AttachedTo(v.residents[b].facts, threadId) ==>
          DetachedFrom(v.residents[b].facts, w.residents[b].facts) && RecordOf(factory, w.residents[b].facts, Get(w.store, b)))
    && (forall b :: b in v.residents && !AttachedTo(v.residents[b].facts, threadId) ==>
          w.residents[b] == v.residents[b] && Get(w.store, b) == Get(v.store, b))
  }

  // The preflight covers exactly the bindings attached to the thread.
  ghost predicate CoversAttached(d: DetachReceipt, residents: map<BindingKey, Resident>, threadId: string) {
    forall b :: (exists o :: o in d.owners && o.binding == b) <==> b in residents && AttachedTo(residents[b].facts, threadId)
  }

  lemma PreflightCovers(s: Owners, d: DetachReceipt, residents: map<BindingKey, Resident>, threadId: string,
                        bs: seq<BindingKey>, disposition: Disposition)
    requires threadId != "" && Members(bs) == AttachedBindings(residents, threadId) && Preflighted(s, d, threadId, bs, disposition)
    ensures CoversAttached(d, residents, threadId)
  {
    forall b ensures (exists o :: o in d.owners && o.binding == b) <==> b in residents && AttachedTo(residents[b].facts, threadId) {
      assert b in Members(bs) <==> b in AttachedBindings(residents, threadId);
      if b in bs {
        var i :| 0 <= i < |bs| && bs[i] == b;
        assert d.owners[i] in d.owners && d.owners[i].binding == BindingsOf(d.owners)[i];
      }
      if o :| o in d.owners && o.binding == b {
        var i :| 0 <= i < |d.owners| && d.owners[i] == o;
        assert bs[i] == b;
      }
    }
  }

  lemma AttachedOnFields(residents: map<BindingKey, Resident>, threadId: string)
    requires threadId != ""
    ensures BoundBindings(residents, threadId) == {} <==> forall b :: b in residents ==> residents[b].facts.threadId != threadId
    ensures AttachedBindings(residents, threadId) == {} <==>
      forall b :: b in residents ==> !AttachedTo(residents[b].facts, threadId)
  {
    if forall b :: b in residents ==> residents[b].facts.threadId != threadId {
      assert forall b :: b !in BoundBindings(residents, threadId);
    } else {
      var b :| b in residents && residents[b].facts.threadId == threadId;
      assert b in BoundBindings(residents, threadId);
    }
    if forall b :: b in residents ==> !AttachedTo(residents[b].facts, threadId) {
      assert forall b :: b !in AttachedBindings(residents, threadId);
    } else {
      var b :| b in residents && AttachedTo(residents[b].facts, threadId);
      assert b in AttachedBindings(residents, threadId);
    }
  }

  predicate AttachedTo(s: State, threadId: string) {
    s.attachment == Attached && s.threadId == threadId
  }

  lemma DetachedIsLeft(v: World, w: World, factory: Factory, threadId: string, bs: seq<BindingKey>)
    requires threadId != "" && Members(bs) == AttachedBindings(v.residents, threadId) && BatchDetached(v, w, factory, bs)
    ensures ThreadLeft(v, w, factory, threadId)
  {
    hide World.Valid, OwnersMoved, Rotated, DetachedFrom, RecordOf, Factory.Stored, DetachedState;
    forall b | b in v.residents
      ensures AttachedTo(v.residents[b].facts, threadId) ==>
        DetachedFrom(v.residents[b].facts, w.residents[b].facts) && RecordOf(factory, w.residents[b].facts, Get(w.store, b))
      ensures !AttachedTo(v.residents[b].facts, threadId) ==>
        w.residents[b] == v.residents[b] && Get(w.store, b) == Get(v.store, b)
    {
      assert b in Members(bs) <==> b in AttachedBindings(v.residents, threadId);
      StatesOnFields(v.residents[b].facts, "", "", "", None);
      RecordsOnFields(factory, DetachedState(v.residents[b].facts), EMPTY_RECORD);
    }
  }

  // No binding is bound to the thread, or one is attached to it that cannot be reached.
  ghost predicate DetachUnavailable(v: World, threadId: string, available: bool) {
    || threadId == ""
    || (forall b :: b in v.residents ==> v.residents[b].facts.threadId != threadId)
    || (!available && exists b :: b in v.residents && AttachedTo(v.residents[b].facts, threadId))
  }

  // Once a batch whose write number `failed` raised was rolled back without another
  // failure, the records are those of the resident states, or the ones loaded.
  ghost predicate StatesRestored(v: World, w: World, factory: Factory, bs: seq<BindingKey>, writes: nat -> bool, failed: nat) {
    w.store != v.store && failed < |bs| && (forall k :: failed < k <= 2 * failed + 1 ==> writes(k)) ==>
      && (forall i :: 0 <= i <= failed ==>
            if bs[i] in v.residents then RecordOf(factory, v.residents[bs[i]].facts, Get(w.store, bs[i]))
            else bs[i] in v.store && Get(w.store, bs[i]) == Kept(v.store[bs[i]]))
      && forall b :: b !in bs[..failed + 1] ==> Get(w.store, b) == Get(v.store, b)
  }

  ghost predicate RecordsRestored(v: World, w: World, bs: seq<BindingKey>, writes: nat -> bool, failed: nat) {
    w.store != v.store && failed < |bs| && (forall k :: failed < k <= 2 * failed + 1 ==> writes(k)) ==>
      && (forall i :: 0 <= i <= failed ==> bs[i] in v.store && Get(w.store, bs[i]) == Kept(v.store[bs[i]]))
      && forall b :: b !in bs[..failed + 1] ==> Get(w.store, b) == Get(v.store, b)
  }

  lemma WrittenBack(s: map<BindingKey, Record>, t: map<BindingKey, Record>, bs: seq<BindingKey>, records: seq<Record>,
                    originals: seq<Record>, writes: nat -> bool, failed: nat)
    requires |bs| == |records| == |originals| && failed < |bs| && Written(s, t, bs, records, originals, writes, failed)
    requires forall k :: failed < k <= 2 * failed + 1 ==> writes(k)
    ensures forall i :: 0 <= i <= failed ==> Get(t, bs[i]) == Kept(originals[i])
    ensures forall b :: b !in bs[..failed + 1] ==> Get(t, b) == Get(s, b)
  {
    forall i | 0 <= i <= failed ensures Get(t, bs[i]) == Kept(originals[i]) {
      assert writes(RollbackIndex(failed, i));
    }
    forall b | b !in bs[..failed + 1] ensures Get(t, b) == Get(s, b) {
      if b in bs {
        var i :| 0 <= i < |bs| && bs[i] == b;
      }
    }
  }

  lemma FailedIsRestored(v: World, w: World, factory: Factory, bs: seq<BindingKey>, records: seq<Record>, originals: seq<Record>,
                         writes: nat -> bool, failed: nat)
    requires |bs| == |records| == |originals|
    requires w.store == v.store || (failed < |bs| && Written(v.store, w.store, bs, records, originals, writes, failed))
    ensures (forall b :: b in bs ==> b in v.residents || b in v.store) && originals == RecordsBefore(factory, v.residents, v.store, bs) ==>
      StatesRestored(v, w, factory, bs, writes, failed)
    ensures (forall b :: b in bs ==> b in v.store) && originals == StoredRecords(v.store, bs) ==> RecordsRestored(v, w, bs, writes, failed)
  {
    hide Written, Factory.Stored, RecordOf;
    if w.store != v.store && forall k :: failed < k <= 2 * failed + 1 ==> writes(k) {
      WrittenBack(v.store, w.store, bs, records, originals, writes, failed);
      forall i | 0 <= i <= failed && bs[i] in v.residents
        ensures RecordOf(factory, v.residents[bs[i]].facts, Kept(factory.Stored(v.residents[bs[i]].facts)))
      {
        RecordsOnFields(factory, v.residents[bs[i]].facts, EMPTY_RECORD);
      }
    }
  }

  lemma WrittenIsDetached(v: World, w: World, factory: Factory, bs: seq<BindingKey>, writes: nat -> bool)
    requires forall b :: b in bs ==> b in v.residents
    requires Written(v.store, w.store, bs, DetachedRecords(factory, v.residents, bs), OriginalRecords(factory, v.residents, bs),
                     writes, |bs|)
    requires w.residents == DetachedAll(v.residents, Members(bs))
    ensures forall b :: b !in bs ==> Get(w.store, b) == Get(v.store, b)
    ensures forall b :: b in bs ==> Get(w.store, b) == Kept(factory.Stored(w.residents[b].facts))
  {
    hide Factory.Stored, DetachedState;
    forall b | b in bs ensures Get(w.store, b) == Kept(factory.Stored(w.residents[b].facts)) {
      var i :| 0 <= i < |bs| && bs[i] == b;
      assert b in Members(bs);
      assert w.residents[b].facts == DetachedState(v.residents[b].facts);
    }
  }

  lemma AttachedAreResident(residents: map<BindingKey, Resident>, threadId: string, bs: seq<BindingKey>)
    requires Members(bs) == AttachedBindings(residents, threadId)
    ensures forall b :: b in bs ==> b in residents && residents[b].facts.threadId == threadId
  {
    forall b | b in bs ensures b in residents && residents[b].facts.threadId == threadId {
      assert b in Members(bs);
    }
  }

  lemma NothingFailed(v: World, factory: Factory, bs: seq<BindingKey>, writes: nat -> bool)
    requires v.Valid() && forall b :: b in bs ==> b in v.residents
    ensures BatchFailed(v, v, bs, DetachedRecords(factory, v.residents, bs), OriginalRecords(factory, v.residents, bs), writes, |bs|)
  {
    CalmSelf(v.owners, Members(bs));
  }

  lemma DetachedNobodyLeft(v: World, w: World, factory: Factory, threadId: string, bs: seq<BindingKey>)
    requires threadId != "" && Members(bs) == AttachedBindings(v.residents, threadId) && BatchDetached(v, w, factory, bs)
    ensures forall c :: (c, threadId) !in w.subscriptions
  {
    NobodyLeft(v.residents, w.subscriptions, threadId);
  }

  lemma CalmSelf(s: Owners, bs: set<BindingKey>)
    ensures Calm(s, s, bs)
  {
  }

  lemma ValidIgnoresStore(v: World, w: World)
    requires v.Valid() && w == v.(store := w.store)
    ensures w.Valid()
  {
  }

  lemma ValidAgrees(v: World)
    requires v.Valid()
    ensures SubscriptionsAgree(v.residents, v.subscriptions)
  {
  }

  // A whole batch was removed: states, records, owners and handles.
  ghost predicate BatchRemoved(v: World, w: World, plan: seq<BindingKey>) {
    && w.Valid() && w.residents == v.residents - Members(plan) && w.store == v.store - Members(plan)
    && OwnersRetired(v.owners, w.owners, Members(plan)) && S.Evolves(v.handles, w.handles)
  }

  // The threads to unsubscribe are those whose last subscriber was removed and that
  // no remaining record names: each of them is named, and no other.
  ghost predicate RemovalsNamed(v: World, w: World, plan: seq<BindingKey>, removals: seq<Removal>) {
    && |removals| == |plan| && (forall i :: 0 <= i < |plan| ==> removals[i].binding == plan[i])
    && (forall r :: r in removals && r.unsubscribeId != "" ==> Abandoned(w, r.unsubscribeId))
    && (forall c, t :: (c, t) in v.subscriptions && t != "" && Abandoned(w, t) ==>
          exists r :: r in removals && r.unsubscribeId == t)
  }

  lemma KeptNamed(v: World, w: World, plan: seq<BindingKey>, removals: seq<Removal>, kept: seq<Removal>)
    requires |removals| == |plan| == |kept| && forall i :: 0 <= i < |plan| ==> removals[i].binding == plan[i]
    requires NamesLost(v.subscriptions, w.subscriptions, removals)
    requires forall i :: 0 <= i < |kept| ==> kept[i] == removals[i].(unsubscribeId := kept[i].unsubscribeId)
    requires forall i :: 0 <= i < |kept| ==>
      kept[i].unsubscribeId == if Abandoned(w, removals[i].unsubscribeId) then removals[i].unsubscribeId else ""
    ensures RemovalsNamed(v, w, plan, kept)
  {
    forall c, t | (c, t) in v.subscriptions && t != "" && Abandoned(w, t)
      ensures exists r :: r in kept && r.unsubscribeId == t
    {
      var r :| r in removals && r.unsubscribeId == t;
      var i :| 0 <= i < |removals| && removals[i] == r;
      assert kept[i] in kept && kept[i].unsubscribeId == t;
    }
  }

  lemma NothingRemoved(v: World)
    ensures OwnersRetired(v.owners, v.owners, Members([])) && S.Evolves(v.handles, v.handles)
    ensures NamesLost(v.subscriptions, v.subscriptions, []) && v.residents - Members([]) == v.residents
  {
    NoneRetired(v.owners);
    assert Members([]) == {};
  }

  lemma HandlesEvolve(s: S.Residents, t: S.Residents, u: S.Residents)
    requires S.Evolves(s, t) && S.Evolves(t, u)
    ensures S.Evolves(s, u)
  {
  }

  lemma LossNamedBy(before: set<(BindingKey, string)>, v: World, w: World, removals: seq<Removal>, b: BindingKey, removal: Removal)
    requires NamesLost(before, v.subscriptions, removals) && v.Valid()
    requires b !in v.residents ==> w.subscriptions == v.subscriptions
    requires b in v.residents ==>
      var left := v.residents[b].facts.threadId;
      && w.subscriptions == v.subscriptions - Pair(b, left)
      && removal.unsubscribeId == if left != "" && v.LastSubscriber(b, left) then left else ""
    ensures NamesLost(before, w.subscriptions, removals + [removal])
  {
    ValidAgrees(v);
    if b in v.residents {
      LossNamed(before, v.subscriptions, removals, b, v.residents[b].facts.threadId, removal);
    } else {
      LossNamed(before, v.subscriptions, removals, b, "", removal);
    }
  }

  lemma SettledPending(v: World, s: Owners, plan: seq<BindingKey>, settlements: seq<SettlementReceipt>, disposition: Disposition)
    requires |settlements| == |plan|
    requires forall i :: 0 <= i < |plan| ==>
      SettledFor(s, plan[i], settlements[i].command, "binding_deactivated", disposition, v.OwnerThread(plan[i]))
    ensures forall i :: 0 <= i < |plan| ==> Pending(s, plan[i]) == Some(settlements[i].command)
  {
  }

  lemma HandlesEvolveSelf(s: S.Residents)
    ensures S.Evolves(s, s)
  {
  }

  lemma HandledKeys(residents: map<BindingKey, Resident>, s: S.Residents)
    requires HandlesMatch(residents, s)
    ensures s.current.Keys == residents.Keys
  {
  }

  lemma HandleKnown(residents: map<BindingKey, Resident>, s: S.Residents, b: BindingKey)
    requires HandlesMatch(residents, s)
    ensures b in s.current ==> b in residents && s.current[b].resident == residents[b].token
  {
  }

  lemma RotatedAway(s: S.Residents, t: S.Residents, b: BindingKey)
    requires Rotated(s, t, {b}) && b !in s.current
    ensures t.current == s.current && S.Evolves(s, t)
  {
  }

  lemma SettledOwner(v: World, loss: OwnerLoss, b: BindingKey, threadId: string)
    requires v.Valid() && Pinned(v.owners, loss, threadId) && loss.owner.binding == b
    ensures v.owners.Valid() && b in v.owners.generations && Pending(v.owners, b) == Some(loss)
  {
  }

  lemma KeptHydrated(v: World, w: World, factory: Factory, b: BindingKey)
    requires b in v.store && !v.store[b].attachment.Attached? && b !in v.residents
    requires w.Valid() && S.Evolves(v.handles, w.handles) && w.subscriptions == v.subscriptions && w.store == v.store
    requires w.residents.Keys == v.residents.Keys + {b} && w.residents[b].facts == HydratedState(factory, v.store[b])
    requires forall c :: c in v.residents ==> w.residents[c] == v.residents[c]
    requires w.owners == v.owners
    ensures BatchHydrated(v, w, factory, [b])
  {
    hide OwnersMoved, Factory.Stored, Factory.Hydrated, World.Valid, S.Evolves;
    NoneMoved(v.owners);
    assert AttachedRecords(v.store, Members([b])) == {};
    assert Members([b]) == {b};
  }

  lemma DowngradedHydrated(v: World, w: World, factory: Factory, b: BindingKey)
    requires b in v.store && v.store[b].attachment.Attached? && b !in v.residents
    requires w.Valid() && S.Evolves(v.handles, w.handles) && w.subscriptions == v.subscriptions
    requires w.store == Put(v.store, b, factory.Stored(HydratedState(factory, v.store[b])))
    requires w.residents.Keys == v.residents.Keys + {b} && w.residents[b].facts == HydratedState(factory, v.store[b])
    requires forall c :: c in v.residents ==> w.residents[c] == v.residents[c]
    requires OwnersMoved(v.owners, w.owners, {b})
    ensures BatchHydrated(v, w, factory, [b])
  {
    hide OwnersMoved, Factory.Stored, Factory.Hydrated, World.Valid, S.Evolves;
    assert AttachedRecords(v.store, Members([b])) == {b};
    assert Members([b]) == {b};
  }

  lemma MembersAre(bs: seq<BindingKey>, s: set<BindingKey>)
    requires Members(bs) == s
    ensures forall b :: b in bs <==> b in s
  {
    forall b ensures b in bs <==> b in s {
      assert b in Members(bs) <==> b in bs;
    }
  }

  lemma NoneAttached(store: map<BindingKey, Record>)
    ensures AttachedRecords(store, {}) == {}
  {
  }

  lemma NotYetMoved(s: Owners, t: Owners, loaded: map<BindingKey, Record>, done: set<BindingKey>, b: BindingKey)
    requires OwnersMoved(s, t, AttachedRecords(loaded, done)) && b !in done
    ensures Pending(t, b) == Pending(s, b) && b !in AttachedRecords(loaded, done)
  {
    MovedKeepsOthers(s, t, AttachedRecords(loaded, done), b);
  }

  lemma HydratedFor(factory: Factory, record: Record)
    ensures factory.Hydrated(factory.DefaultState(), record).0 == HydratedState(factory, record)
  {
  }

  lemma AllAreSettled(v: World, s: Owners, bs: seq<BindingKey>, settlements: seq<SettlementReceipt>, reason: string,
                      disposition: Disposition)
    requires |settlements| == |bs|
    requires forall i :: 0 <= i < |bs| ==>
      SettledFor(s, bs[i], settlements[i].command, reason, disposition, v.OwnerThread(bs[i]))
    ensures AllPending(s, bs, settlements)
  {
  }

  lemma PlanPending(s: Owners, loaded: map<BindingKey, Record>, plan: seq<BindingKey>, downs: seq<BindingKey>,
                    losses: map<BindingKey, OwnerLoss>)
    requires (forall b :: b in plan ==> b in loaded) && Members(downs) == AttachedRecords(loaded, Members(plan))
    requires losses.Keys == Members(downs) && LossesPending(s, losses)
    ensures forall b :: b in plan && loaded[b].attachment.Attached? ==> Pending(s, b) == LossOf(losses, b)
  {
    forall b | b in plan && loaded[b].attachment.Attached? ensures Pending(s, b) == LossOf(losses, b) {
      assert b in AttachedRecords(loaded, Members(plan));
    }
  }

  lemma HydratedBatch(v: World, w: World, factory: Factory, plan: seq<BindingKey>, downs: seq<BindingKey>)
    requires (forall b :: b in plan ==> b in v.store) && Members(downs) == AttachedRecords(v.store, Members(plan))
    requires w.Valid() && S.Evolves(v.handles, w.handles) && w.subscriptions == v.subscriptions
    requires ResidentsHydrated(v.residents, v.store, w.residents, factory, Members(plan))
    requires forall b :: b in downs ==> b in v.store && Get(w.store, b) == Kept(factory.Stored(HydratedState(factory, v.store[b])))
    requires forall b :: b !in downs ==> Get(w.store, b) == Get(v.store, b)
    requires OwnersMoved(v.owners, w.owners, Members(downs))
    ensures BatchHydrated(v, w, factory, plan)
  {
    hide World.Valid, OwnersMoved, S.Evolves, ResidentsHydrated, HydratedState, Factory.Stored;
    forall b ensures b in downs <==> b in plan && v.store[b].attachment.Attached? {
      assert b in Members(downs) <==> b in AttachedRecords(v.store, Members(plan));
    }
  }

  lemma ValidOwners(v: World)
    requires v.Valid()
    ensures v.owners.Valid()
  {
  }

  lemma NoneRotated(s: S.Residents)
    ensures Rotated(s, s, {})
  {
  }

  lemma UnbindLetsGo(v: World, w: World, b: BindingKey, facts: State, id: string)
    requires SubscriptionsAgree(v.residents, v.subscriptions) && b in v.residents && !facts.attachment.Attached?
    requires w.subscriptions == v.subscriptions - Pair(b, v.residents[b].facts.threadId)
    requires var left := v.residents[b].facts.threadId; id == if left != "" && v.LastSubscriber(b, left) then left else ""
    ensures LetGo(v, w, b, v.residents[b].facts.threadId, id)
  {
    hide SubscriptionsAgree, Resubscribed, World.LastSubscriber, LetGo;
    UnbindResubscribes(v, b, facts, w.subscriptions);
    LetGoIffLast(v, w, b, facts, v.residents[b].facts.threadId);
  }

  class BindingRuntimeManager {
    const factory: Factory
    // The bindings of a set in the order the code sorts them.
    const listing: set<BindingKey> -> seq<BindingKey>
    const owners: BindingOwnerAuthority
    const handles: S.BindingRuntimeSessionAuthority
    var residents: map<BindingKey, Resident>
    var store: map<BindingKey, Record>
    var subscriptions: set<(BindingKey, string)>

    ghost function Now(): World
      reads this, owners, handles
    {
      World.World(residents, store, subscriptions, owners.Now(), handles.Now())
    }

    constructor (factory: Factory, listing: set<BindingKey> -> seq<BindingKey>, store: map<BindingKey, Record>,
                 ownerIssuer: nat, handleIssuer: nat)
      ensures Now().Valid() && Now().residents == map[] && Now().store == store
      ensures fresh(owners) && fresh(handles) && this.factory == factory && this.listing == listing
    {
      this.factory, this.listing, this.store := factory, listing, store;
      residents, subscriptions := map[], {};
      owners := new BindingOwnerAuthority(ownerIssuer);
      handles := new S.BindingRuntimeSessionAuthority(handleIssuer);
    }

    function OwnerThread(b: BindingKey): (t: string)
      reads this, owners, handles
      ensures t == Now().OwnerThread(b)
      ensures b in residents ==> t == residents[b].facts.threadId
      ensures b !in residents ==> t == if b in store then store[b].threadId else ""
    {
      if b in residents then residents[b].facts.threadId
      else if b in store then store[b].threadId
      else ""
    }

    // Settle the loss of this binding's owner.  The settler may refuse; it is not
    // asked when there is no thread to lose.  What it accepts stays reserved.
    method SettleOwnerLoss(b: BindingKey, threadId: string, reason: string, disposition: Disposition, settles: bool)
      returns (r: Result<SettlementReceipt, ManagerError>)
      requires Now().Valid()
      modifies owners
      ensures Untouched(old(Now()), Now(), {b})
      ensures r.Err? <==>
        || threadId != old(Now()).OwnerThread(b)
        || LossBlocked(old(Now()).owners, b, threadId, reason, disposition)
        || (threadId != "" && !settles)
      ensures r.Ok? ==>
        && r.value.command.owner.binding == b && r.value.command.reason == reason
        && r.value.command.disposition == disposition && Pinned(Now().owners, r.value.command, threadId)
    {
      hide Owners.Valid, Quiet, PreflightsPinned, SubscriptionsAgree, HandlesMatch;
      ghost var s := owners.Now();
      QuietSelf(s, {b});
      if threadId != OwnerThread(b) {
        return Err(BindingChanged);
      }
      var owner := OwnerReceiptOf(b, reason, disposition);
      ghost var t := owners.Now();
      var command := OwnerLoss(owner, reason, disposition);
      var refused := owners.ReserveOwnerLoss(command);
      ReserveIfNotBlocked(t, command, threadId);
      QuietKeepsPreflights(t, owners.Now(), {b});
      QuietComposes(s, t, owners.Now(), {b});
      if refused.Some? {
        return Err(OwnerLossPending);
      }
      if threadId != "" && !settles {
        return Err(LossNotSettled);
      }
      var settlement := new SettlementReceipt(command);
      r := Ok(settlement);
    }

    method Persist(b: BindingKey, record: Record, writes: bool) returns (ok: bool)
      modifies this`store
      ensures ok == writes
      ensures store == if ok then Put(old(store), b, record) else old(store)
    {
      ok := writes;
      if writes {
        if record.IsEmpty() {
          store := store - {b};
        } else {
          store := store[b := record];
        }
      }
    }

    // The registry ignores the empty thread id.
    method Subscribe(b: BindingKey, threadId: string)
      modifies this`subscriptions
      ensures subscriptions == old(subscriptions) + Pair(b, threadId)
    {
      if threadId != "" {
        subscriptions := subscriptions + {(b, threadId)};
      }
    }

    method Unsubscribe(b: BindingKey, threadId: string)
      modifies this`subscriptions
      ensures subscriptions == old(subscriptions) - Pair(b, threadId)
    {
      if threadId != "" {
        subscriptions := subscriptions - {(b, threadId)};
      }
    }

    // The thread to unsubscribe once this binding, its last subscriber, is gone.
    method UnsubscribeIdIfLast(b: BindingKey, threadId: string) returns (id: string)
      ensures id == if threadId != "" && Now().LastSubscriber(b, threadId) then threadId else ""
    {
      if threadId == "" || (b, threadId) !in subscriptions {
        return "";
      }
      var others := subscriptions - {(b, threadId)};
      while others != {}
        invariant others <= subscriptions - {(b, threadId)}
        invariant forall c :: (c, threadId) in subscriptions ==> c == b || (c, threadId) in others
      {
        var other :| other in others;
        if other.1 == threadId {
          assert (other.0, threadId) in subscriptions && other.0 != b;
          return "";
        }
        others := others - {other};
      }
      id := threadId;
    }

    // The same question, asked of the resident states.
    method UnsubscribeIdIfLastAttached(b: BindingKey, threadId: string) returns (id: string)
      requires SubscriptionsAgree(residents, subscriptions)
      ensures id == if threadId != "" && Now().LastSubscriber(b, threadId) then threadId else ""
    {
      if threadId == "" {
        return "";
      }
      var attached := AttachedBindings(residents, threadId);
      assert forall c :: c in attached <==> (c, threadId) in subscriptions;
      id := if attached == {b} then threadId else "";
      if b in attached && attached != {b} {
        var c :| c in attached && c != b;
        assert (c, threadId) in subscriptions;
      }
    }

    // Advance the owner's revision and rotate the resident handle with it.
    method AdvanceOwner(b: BindingKey, settled: Option<OwnerLoss>)
      requires owners.Now().Valid() && handles.Now().Valid() && HandlesMatch(residents, handles.Now())
      requires PreflightsPinned(owners.Now()) && Pending(owners.Now(), b) == settled
      modifies owners, handles
      ensures owners.Now().Valid() && handles.Now().Valid() && HandlesMatch(residents, handles.Now())
      ensures PreflightsPinned(owners.Now())
      ensures owners.Now() == Step(old(owners.Now()), OwnerEvent.AdvanceOwner(b, settled))
      ensures Rotated(old(handles.Now()), handles.Now(), {b})
    {
      hide PreflightsPinned, Rotated, HandlesMatch;
      StepKeepsValid(owners.Now(), OwnerEvent.AdvanceOwner(b, settled));
      AdvanceKeepsPreflights(owners.Now(), b, settled);
      var ok := owners.AdvanceOwner(b, settled);
      RotateHandle(b);
    }

    method RotateHandle(b: BindingKey)
      requires handles.Now().Valid() && HandlesMatch(residents, handles.Now())
      modifies handles
      ensures handles.Now().Valid() && HandlesMatch(residents, handles.Now())
      ensures Rotated(old(handles.Now()), handles.Now(), {b})
    {
      if b !in residents {
        return;
      }
      var handle := handles.Current(b, residents[b].token);
      if handle.Some? {
        ghost var before := handles.Now();
        var rotated := handles.Advance(handle.value, b, residents[b].token);
        if rotated.Ok? {
          S.StepKeepsAuthority(before, S.SessionEvent.Advance(handle.value, b, residents[b].token, rotated.value));
        }
      }
    }

    // The receipt of the binding's current owner.
    method OwnerReceiptOf(b: BindingKey, ghost reason: string, ghost disposition: Disposition) returns (owner: OwnerReceipt)
      requires Now().Valid()
      modifies owners
      ensures Untouched(old(Now()), Now(), {b})
      ensures owner.binding == b && Now().owners.Accepts(owner, old(Now()).OwnerThread(b)) && b in owners.generations
      ensures Pending(Now().owners, b) == old(Pending(Now().owners, b))
      ensures LossBlocked(Now().owners, b, old(Now()).OwnerThread(b), reason, disposition)
              == old(LossBlocked(Now().owners, b, Now().OwnerThread(b), reason, disposition))
    {
      ghost var s := owners.Now();
      ghost var threadId := OwnerThread(b);
      var issued := owners.IssueOwner(b, OwnerThread(b), OwnerThread(b));
      owner := issued.value;
      IssueQuiet(s, OwnerEvent.IssueOwner(b, threadId, threadId, owner), {b});
      IssueKeepsPending(s, b, threadId, owner, reason, disposition);
      QuietKeepsPreflights(s, owners.Now(), {b});
    }

    // Everything a bind does before its record is written.
    method StageBind(b: BindingKey, threadId: string, title: string, dir: string, disposition: Disposition, settles: bool)
      returns (r: Result<(State, Option<OwnerLoss>), ManagerError>)
      requires Now().Valid() && b in residents
      modifies owners
      ensures Untouched(old(Now()), Now(), {b})
      ensures r.Err? <==> BindRefused(old(Now()), b, threadId, disposition, settles)
      ensures r.Ok? ==> r.value.0 == BoundState(residents[b].facts, threadId, title, dir)
      ensures r.Ok? ==> b in owners.generations && Pending(owners.Now(), b) == r.value.1
    {
      hide Owners.Valid, SubscriptionsAgree, LossBlocked, Quiet, SendOpen, State.Replaceable;
      ReplaceableUnlessOpen(residents[b].facts);
      ghost var v := Now();
      var state := residents[b].facts;
      var owner := OwnerReceiptOf(b, "binding_replaced", disposition);
      ghost var w := Now();
      if state.threadId == threadId {
        var free := owners.RequireLossNotPending(owner);
        if !free {
          return Err(OwnerLossPending);
        }
      }
      var staged := state;
      if state.threadId != threadId {
        if !staged.Replaceable() {
          return Err(UnresolvedPages);
        }
        staged := staged.ThreadReplaced();
      }
      staged := staged.WithThread(if dir != "" then dir else staged.workingDir, threadId, title, Attached).AfterBind();
      if state.threadId == threadId {
        return Ok((staged, None));
      }
      var settlement := SettleOwnerLoss(b, state.threadId, "binding_replaced", disposition, settles);
      QuietComposes(v.owners, w.owners, owners.Now(), {b});
      if settlement.Err? {
        return Err(settlement.error);
      }
      r := Ok((staged, Some(settlement.value.command)));
    }

    // Everything a bind does after its record was written.
    method CommitBind(b: BindingKey, threadId: string, title: string, dir: string, settled: Option<OwnerLoss>)
      returns (id: string)
      requires Now().Valid() && b in residents && b in owners.generations && Pending(owners.Now(), b) == settled
      modifies this, owners, handles
      ensures Now().Valid() && store == old(store)
      ensures residents == old(residents)[b := old(residents)[b].(facts := BoundState(old(residents)[b].facts, threadId, title, dir))]
      ensures owners.Now() == Step(old(owners.Now()), OwnerEvent.AdvanceOwner(b, settled))
      ensures Rotated(old(handles.Now()), handles.Now(), {b})
      ensures LetGo(old(Now()), Now(), b, old(residents)[b].facts.threadId, id)
    {
      hide Owners.Valid, Rotated, Revokes, Step, World.LastSubscriber, Resubscribed, HandlesMatch, S.Residents.Valid, LetGo, Executed, BoundState, SubscriptionsAgree;
      ghost var v := Now();
      var state := residents[b].facts;
      id := "";
      if state.threadId != threadId {
        id := UnsubscribeIdIfLast(b, state.threadId);
      }
      var bound := Executed(state, threadId, title, dir);
      StagedAsExecuted(state, threadId, title, dir);
      FactsKeepHandles(residents, handles.Now(), b, bound);
      residents := residents[b := residents[b].(facts := bound)];
      AdvanceOwner(b, settled);
      if state.threadId != threadId {
        Unsubscribe(b, state.threadId);
      }
      Subscribe(b, threadId);
      RebindAgrees(v, Now(), b, bound, id);
    }

    // Bind this resident to a thread: all of it, or nothing.
    method Bind(handle: RuntimeHandle, threadId: string, title: string, dir: string, disposition: Disposition,
                settles: bool, writes: bool)
      returns (r: Result<string, ManagerError>)
      requires Now().Valid()
      modifies this, owners, handles
      ensures r.Err? ==> Untouched(old(Now()), Now(), {handle.binding})
      ensures r.Err? <==>
        || !old(Now()).Authorizes(handle)
        || BindRefused(old(Now()), handle.binding, threadId, disposition, settles)
        || !writes
      ensures r.Ok? ==>
        var b, s := handle.binding, old(residents)[handle.binding].facts;
        && Moved(old(Now()), Now(), factory, b, BoundState(s, threadId, title, dir))
        && LetGo(old(Now()), Now(), b, s.threadId, r.value)
        && BoundTo(s, residents[b].facts, threadId, title, dir)
        && RecordOf(factory, residents[b].facts, Get(store, b))
    {
      hide Owners.Valid, SubscriptionsAgree, Rotated, Quiet, OwnersMoved, LossBlocked, BoundTo, ClearedFrom, DetachedFrom, RecordOf;
      var b := handle.binding;
      ghost var v := Now();
      QuietSelf(v.owners, {b});
      if b !in residents {
        return Err(StaleRuntime);
      }
      var current := handles.Require(handle, b, residents[b].token);
      if !current {
        return Err(StaleRuntime);
      }
      var staged := StageBind(b, threadId, title, dir, disposition, settles);
      if staged.Err? {
        return Err(staged.error);
      }
      ghost var w := Now();
      var persisted := Persist(b, factory.Stored(staged.value.0), writes);
      if !persisted {
        return Err(NotPersisted);
      }
      QuietThenAdvanced(v.owners, w.owners, b, staged.value.1);
      var id := CommitBind(b, threadId, title, dir, staged.value.1);
      StatesOnFields(v.residents[b].facts, threadId, title, dir, None);
      StoredAs(factory, v.store, b, residents[b].facts);
      r := Ok(id);
    }

    // Everything a clear or detach does after its record was written.
    method Unbind(b: BindingKey, facts: State, settled: OwnerLoss)
      requires Now().Valid() && b in residents && b in owners.generations && Pending(owners.Now(), b) == Some(settled)
      requires !facts.attachment.Attached?
      modifies this, owners, handles
      ensures Now().Valid() && store == old(store)
      ensures residents == old(residents)[b := old(residents)[b].(facts := facts)]
      ensures subscriptions == old(subscriptions) - Pair(b, old(residents)[b].facts.threadId)
      ensures owners.Now() == Step(old(owners.Now()), OwnerEvent.AdvanceOwner(b, Some(settled)))
      ensures Rotated(old(handles.Now()), handles.Now(), {b})
    {
      hide Owners.Valid, Rotated, Step, HandlesMatch, S.Residents.Valid, SubscriptionsAgree, PreflightsPinned, Resubscribed;
      ghost var v := Now();
      var left := residents[b].facts.threadId;
      FactsKeepHandles(residents, handles.Now(), b, facts);
      residents := residents[b := residents[b].(facts := facts)];
      Unsubscribe(b, left);
      AdvanceOwner(b, Some(settled));
      UnbindResubscribes(v, b, facts, subscriptions);
      ResubscribedAgrees(v, b, facts, subscriptions);
    }

    // Clear this resident's thread: all of it, or nothing.
    method Clear(handle: RuntimeHandle, dirAfter: Option<string>, requireIdle: bool, disposition: Disposition,
                 settles: bool, writes: bool)
      returns (r: Result<string, ManagerError>)
      requires Now().Valid()
      modifies this, owners, handles
      ensures r.Err? ==> Untouched(old(Now()), Now(), {handle.binding})
      ensures r.Err? <==>
        || !old(Now()).Authorizes(handle)
        || ClearRefused(old(Now()), handle.binding, dirAfter, requireIdle, disposition, settles)
        || !writes
      ensures r.Ok? ==>
        var b, s := handle.binding, old(residents)[handle.binding].facts;
        && Moved(old(Now()), Now(), factory, b, ClearedState(s, dirAfter))
        && LetGo(old(Now()), Now(), b, s.threadId, r.value)
        && ClearedFrom(s, residents[b].facts, dirAfter)
        && RecordOf(factory, residents[b].facts, Get(store, b))
    {
      hide Owners.Valid, SubscriptionsAgree, Rotated, Quiet, OwnersMoved, LossBlocked, BoundTo, ClearedFrom, DetachedFrom, RecordOf;
      var b := handle.binding;
      ghost var v := Now();
      QuietSelf(v.owners, {b});
      if b !in residents {
        return Err(StaleRuntime);
      }
      var current := handles.Require(handle, b, residents[b].token);
      if !current {
        return Err(StaleRuntime);
      }
      var staged := StageClear(b, dirAfter, requireIdle, disposition, settles);
      if staged.Err? {
        return Err(staged.error);
      }
      QuietThenAdvanced(v.owners, owners.Now(), b, Some(staged.value.1));
      var persisted := Persist(b, factory.Stored(staged.value.0), writes);
      if !persisted {
        return Err(NotPersisted);
      }
      var dir := if dirAfter.Some? then dirAfter.value else residents[b].facts.workingDir;
      var id := UnsubscribeIdIfLast(b, residents[b].facts.threadId);
      Unbind(b, residents[b].facts.WithThread(dir, "", "", NoRuntime).ThreadCleared(), staged.value.1);
      UnbindLetsGo(v, Now(), b, ClearedState(v.residents[b].facts, dirAfter), id);
      StatesOnFields(v.residents[b].facts, "", "", "", dirAfter);
      StoredAs(factory, v.store, b, residents[b].facts);
      r := Ok(id);
    }

    // Everything a clear does before its record is written.
    method StageClear(b: BindingKey, dirAfter: Option<string>, requireIdle: bool, disposition: Disposition, settles: bool)
      returns (r: Result<(State, OwnerLoss), ManagerError>)
      requires Now().Valid() && b in residents
      modifies owners
      ensures Untouched(old(Now()), Now(), {b})
      ensures r.Err? <==> ClearRefused(old(Now()), b, dirAfter, requireIdle, disposition, settles)
      ensures r.Ok? ==> r.value.0 == ClearedState(residents[b].facts, dirAfter)
      ensures r.Ok? ==> b in owners.generations && Pending(owners.Now(), b) == Some(r.value.1)
    {
      hide Owners.Valid, SubscriptionsAgree, LossBlocked, Quiet, SendOpen, State.Replaceable;
      ReplaceableUnlessOpen(residents[b].facts);
      ghost var v := Now();
      QuietSelf(v.owners, {b});
      var state := residents[b].facts;
      if requireIdle && state.Inflight() {
        return Err(TurnInflight);
      }
      if dirAfter == Some("") {
        return Err(EmptyWorkingDir);
      }
      var owner := OwnerReceiptOf(b, "binding_cleared", disposition);
      ghost var w := Now();
      if !state.Replaceable() {
        return Err(UnresolvedPages);
      }
      var dir := if dirAfter.Some? then dirAfter.value else state.workingDir;
      var staged := state.ThreadCleared().WithThread(dir, "", "", NoRuntime);
      var settlement := SettleOwnerLoss(b, state.threadId, "binding_cleared", disposition, settles);
      QuietComposes(v.owners, w.owners, owners.Now(), {b});
      if settlement.Err? {
        return Err(settlement.error);
      }
      r := Ok((staged, settlement.value.command));
    }

    // Detach one binding from its thread, which it keeps.
    method DetachBinding(b: BindingKey, disposition: Disposition, settles: bool, writes: bool)
      returns (r: Result<string, ManagerError>)
      requires Now().Valid()
      modifies this, owners, handles
      ensures r.Err? || !Detachable(old(Now()), b) ==> Untouched(old(Now()), Now(), {b})
      ensures r.Err? <==>
        || b !in old(residents) || old(residents)[b].facts.threadId == ""
        || (Detachable(old(Now()), b)
            && (LossBlocked(old(Now()).owners, b, old(residents)[b].facts.threadId, "binding_detached", disposition)
                || !settles || !writes))
      ensures r.Ok? && !Detachable(old(Now()), b) ==> r.value == ""
      ensures r.Ok? && Detachable(old(Now()), b) ==>
        && Moved(old(Now()), Now(), factory, b, DetachedState(old(residents)[b].facts))
        && LetGo(old(Now()), Now(), b, old(residents)[b].facts.threadId, r.value)
        && DetachedFrom(old(residents)[b].facts, residents[b].facts)
        && RecordOf(factory, residents[b].facts, Get(store, b))
    {
      hide Owners.Valid, SubscriptionsAgree, Rotated, Quiet, OwnersMoved, LossBlocked, BoundTo, ClearedFrom, DetachedFrom, RecordOf;
      ghost var v := Now();
      QuietSelf(v.owners, {b});
      if b !in residents {
        return Err(NoSuchBinding);
      }
      var state := residents[b].facts;
      if state.threadId == "" {
        return Err(NotBound);
      }
      if !state.attachment.Attached? {
        return Ok("");
      }
      var staged := DetachedState(state);
      DetachExecuted(state);
      hide DetachedState, Factory.Stored;
      var settlement := SettleOwnerLoss(b, state.threadId, "binding_detached", disposition, settles);
      if settlement.Err? {
        return Err(settlement.error);
      }
      QuietThenAdvanced(v.owners, owners.Now(), b, Some(settlement.value.command));
      var persisted := Persist(b, factory.Stored(staged), writes);
      if !persisted {
        return Err(NotPersisted);
      }
      var id := UnsubscribeIdIfLastAttached(b, state.threadId);
      Unbind(b, state.(attachment := Detached).TimersDetached(), settlement.value.command);
      UnbindLetsGo(v, Now(), b, DetachedState(state), id);
      StatesOnFields(state, "", "", "", None);
      StoredAs(factory, v.store, b, residents[b].facts);
      r := Ok(id);
    }

    // Settle the owners of a batch before anything of it is written.
    method SettleThreads(bs: seq<BindingKey>, threads: seq<string>, reason: string, disposition: Disposition,
                         settles: BindingKey -> bool)
      returns (r: Result<seq<SettlementReceipt>, ManagerError>)
      requires Now().Valid() && Distinct(bs) && |threads| == |bs|
      modifies owners
      ensures Untouched(old(Now()), Now(), Members(bs))
      ensures r.Err? <==> exists i :: 0 <= i < |bs| && ThreadRefused(old(Now()), bs[i], threads[i], reason, disposition, settles)
      ensures r.Ok? ==> |r.value| == |bs|
      ensures r.Ok? ==> forall i :: 0 <= i < |bs| ==>
        SettledFor(Now().owners, bs[i], r.value[i].command, reason, disposition, threads[i])
    {
      hide World.Valid, Quiet, LossBlocked, SettledFor;
      ghost var v := Now();
      var settlements: seq<SettlementReceipt> := [];
      QuietSelf(v.owners, {});
      assert Members(bs[..0]) == {};
      for i := 0 to |bs|
        invariant Untouched(v, Now(), Members(bs[..i]))
        invariant |settlements| == i
        invariant forall j :: 0 <= j < i ==>
                    SettledFor(Now().owners, bs[j], settlements[j].command, reason, disposition, threads[j])
        invariant forall j :: 0 <= j < i ==> !ThreadRefused(v, bs[j], threads[j], reason, disposition, settles)
      {
        ghost var w := Now();
        BlockedStays(v.owners, w.owners, Members(bs[..i]), bs[i], threads[i], reason, disposition);
        var settlement := SettleOwnerLoss(bs[i], threads[i], reason, disposition, settles(bs[i]));
        QuietWidens(v.owners, w.owners, owners.Now(), Members(bs[..i]), bs[i]);
        assert Members(bs[..i + 1]) == Members(bs[..i]) + {bs[i]};
        if settlement.Err? {
          WidenQuiet(v.owners, owners.Now(), Members(bs[..i + 1]), Members(bs));
          assert ThreadRefused(v, bs[i], threads[i], reason, disposition, settles);
          return Err(settlement.error);
        }
        forall j | 0 <= j < i ensures
          SettledFor(Now().owners, bs[j], settlements[j].command, reason, disposition, threads[j])
        {
          SettledStays(w.owners, owners.Now(), bs[i], bs[j], settlements[j].command, reason, disposition, threads[j]);
        }
        SettledNow(owners.Now(), bs[i], settlement.value.command, reason, disposition, threads[i]);
        settlements := settlements + [settlement.value];
      }
      assert bs[..|bs|] == bs;
      r := Ok(settlements);
    }

    method SettleAll(bs: seq<BindingKey>, reason: string, disposition: Disposition, settles: BindingKey -> bool)
      returns (r: Result<seq<SettlementReceipt>, ManagerError>)
      requires Now().Valid() && Distinct(bs)
      modifies owners
      ensures Untouched(old(Now()), Now(), Members(bs))
      ensures r.Err? <==> exists b :: b in bs && SettleRefused(old(Now()), b, reason, disposition, settles)
      ensures r.Ok? ==> |r.value| == |bs|
      ensures r.Ok? ==> forall i :: 0 <= i < |bs| ==>
        SettledFor(Now().owners, bs[i], r.value[i].command, reason, disposition, old(Now()).OwnerThread(bs[i]))
    {
      hide World.Valid, Quiet, LossBlocked, SettledFor, Untouched;
      ghost var v := Now();
      var threads := OwnerThreads(bs);
      assert forall i :: 0 <= i < |bs| ==>
        (ThreadRefused(v, bs[i], threads[i], reason, disposition, settles) <==> SettleRefused(v, bs[i], reason, disposition, settles));
      r := SettleThreads(bs, threads, reason, disposition, settles);
    }

    method OwnerThreads(bs: seq<BindingKey>) returns (threads: seq<string>)
      ensures |threads| == |bs| && forall i :: 0 <= i < |bs| ==> threads[i] == Now().OwnerThread(bs[i])
    {
      threads := [];
      for i := 0 to |bs|
        invariant |threads| == i && forall j :: 0 <= j < i ==> threads[j] == Now().OwnerThread(bs[j])
      {
        threads := threads + [OwnerThread(bs[i])];
      }
    }

    // Write the records of a batch; on a failure, write the originals back.
    method PersistAll(bs: seq<BindingKey>, records: seq<Record>, originals: seq<Record>, writes: nat -> bool)
      returns (ok: bool, ghost failed: nat)
      requires |bs| == |records| == |originals| && Distinct(bs)
      modifies this`store
      ensures failed <= |bs| && (ok <==> failed == |bs|)
      ensures Written(old(store), store, bs, records, originals, writes, failed)
      ensures forall i :: 0 <= i < failed ==> writes(i)
      ensures !ok ==> !writes(failed)
    {
      ghost var s := store;
      var i := 0;
      while i < |bs|
        invariant 0 <= i <= |bs|
        invariant forall b :: b !in bs[..i] ==> Get(store, b) == Get(s, b)
        invariant forall j :: 0 <= j < i ==> Get(store, bs[j]) == Kept(records[j])
        invariant forall j :: 0 <= j < i ==> writes(j)
      {
        var persisted := Persist(bs[i], records[i], writes(i));
        if !persisted {
          RollBack(bs, originals, writes, i, s, records);
          return false, i;
        }
        i := i + 1;
      }
      assert bs[..|bs|] == bs;
      return true, |bs|;
    }

    method RollBack(bs: seq<BindingKey>, originals: seq<Record>, writes: nat -> bool, last: nat,
                    ghost s: map<BindingKey, Record>, ghost records: seq<Record>)
      requires |bs| == |records| == |originals| && Distinct(bs) && last < |bs|
      requires forall b :: b !in bs[..last] ==> Get(store, b) == Get(s, b)
      requires forall j :: 0 <= j < last ==> Get(store, bs[j]) == Kept(records[j])
      modifies this`store
      ensures Written(s, store, bs, records, originals, writes, last)
    {
      ghost var failed := store;
      var k := last + 1;
      while k > 0
        invariant 0 <= k <= last + 1
        invariant forall b :: b !in bs[k..last + 1] ==> Get(store, b) == Get(failed, b)
        invariant forall j :: k <= j <= last ==>
                    Get(store, bs[j]) == if writes(RollbackIndex(last, j)) then Kept(originals[j]) else Get(failed, bs[j])
      {
        k := k - 1;
        var restored := Persist(bs[k], originals[k], writes(RollbackIndex(last, k)));
      }
    }

    // Settle the attached writers of a thread before it is unsubscribed outside.
    // The receipt covers exactly them, each reserved for the detach to come.
    method PreflightDetach(threadId: string, available: bool, disposition: Disposition, settles: BindingKey -> bool)
      returns (r: Result<Option<DetachReceipt>, ManagerError>)
      requires Now().Valid() && Orders(listing)
      modifies owners
      ensures Now().Valid() && Now() == old(Now()).(owners := Now().owners)
      ensures Evolves(old(owners.Now()), owners.Now()) && SameRevisions(old(owners.Now()), owners.Now())
      ensures var attached := AttachedBindings(residents, threadId);
        && (r.Err? <==>
              || DetachUnavailable(old(Now()), threadId, available)
              || exists b :: b in attached && SettleRefused(old(Now()), b, "binding_detached", disposition, settles))
        && (r == Ok(None) ==> attached == {})
        && (r.Ok? && r.value.Some? ==>
              && Preflighted(owners.Now(), r.value.value, threadId, listing(attached), disposition)
              && r.value.value !in old(owners.Now()).mintedDetaches)
      ensures r.Ok? ==> threadId != "" && exists b :: b in residents && residents[b].facts.threadId == threadId
      ensures r.Ok? && r.value.Some? ==> CoversAttached(r.value.value, residents, threadId)
      ensures r == Ok(None) ==> forall b :: b in residents ==> !AttachedTo(residents[b].facts, threadId)
    {
      hide Preflighted, Evolves, Calm, World.Valid, SettledFor, LossBlocked, SameRevisions, CoversAttached, AttachedTo,
           BoundBindings;
      QuietSelf(owners.Now(), {});
      CalmRevisions(owners.Now(), owners.Now(), {});
      if threadId == "" {
        return Err(NotBound);
      }
      AttachedOnFields(residents, threadId);
      if BoundBindings(residents, threadId) == {} {
        return Err(NotBound);
      }
      var attached := AttachedBindings(residents, threadId);
      if attached != {} && !available {
        return Err(NotAvailable);
      }
      var settlements := SettleAll(listing(attached), "binding_detached", disposition, settles);
      CalmRevisions(old(owners.Now()), owners.Now(), Members(listing(attached)));
      if settlements.Err? {
        return Err(settlements.error);
      }
      if attached == {} {
        return Ok(None);
      }
      ghost var s := owners.Now();
      forall i | 0 <= i < |listing(attached)| ensures old(Now()).OwnerThread(listing(attached)[i]) == threadId {
        assert listing(attached)[i] in Members(listing(attached));
      }
      assert listing(attached) != [];
      r := IssuePreflight(threadId, listing(attached), settlements.value, disposition);
      RevisionsCompose(old(owners.Now()), s, owners.Now());
      PreflightCovers(owners.Now(), r.value.value, residents, threadId, listing(attached), disposition);
    }

    method IssuePreflight(threadId: string, bs: seq<BindingKey>, settlements: seq<SettlementReceipt>, disposition: Disposition)
      returns (r: Result<Option<DetachReceipt>, ManagerError>)
      requires Now().Valid() && threadId != "" && bs != []
      requires AllSettled(owners.Now(), bs, settlements, "binding_detached", disposition, threadId)
      modifies owners
      ensures Now().Valid() && Now() == old(Now()).(owners := Now().owners)
      ensures Evolves(old(owners.Now()), owners.Now()) && SameRevisions(old(owners.Now()), owners.Now())
      ensures r.Ok? && r.value.Some? && Preflighted(owners.Now(), r.value.value, threadId, bs, disposition)
      ensures r.value.value !in old(owners.Now()).mintedDetaches
    {
      hide Owners.Valid, PreflightsPinned, SubscriptionsAgree, HandlesMatch, AllSettled, Preflighted, Evolves;
      ghost var s := owners.Now();
      var issued := owners.IssueDetach(threadId, OwnersOf(settlements), settlements);
      SettledLength(s, bs, settlements, "binding_detached", disposition, threadId);
      IssuedIsPreflighted(s, threadId, bs, settlements, disposition, issued.value);
      r := Ok(Some(issued.value));
    }

    static lemma SettledLength(s: Owners, bs: seq<BindingKey>, settlements: seq<SettlementReceipt>, reason: string,
                               disposition: Disposition, threadId: string)
      requires AllSettled(s, bs, settlements, reason, disposition, threadId)
      ensures |settlements| == |bs|
    {
    }

    // The settlements a detach of these bindings may use: those of a preflight, if
    // it is redeemed for exactly them, or new ones.
    method DetachSettlements(threadId: string, bs: seq<BindingKey>, disposition: Disposition, receipt: Option<DetachReceipt>,
                             settles: BindingKey -> bool)
      returns (r: Result<seq<SettlementReceipt>, ManagerError>)
      requires Now().Valid() && Distinct(bs) && forall b :: b in bs ==> OwnerThread(b) == threadId
      modifies owners
      ensures Now().Valid() && Now() == old(Now()).(owners := Now().owners)
      ensures Calm(old(owners.Now()), owners.Now(), Members(bs))
      ensures r.Err? <==> DetachRefused(old(Now()), threadId, bs, disposition, receipt, settles)
      ensures r.Ok? ==> AllPending(owners.Now(), bs, r.value)
      ensures PreflightUsed(old(owners.Now()), owners.Now(), threadId, bs, disposition, receipt)
    {
      hide Owners.Valid, World.Valid, Calm, SettledFor, LossBlocked, Owners.Accepts;
      ghost var v := Now();
      assert forall b :: b in bs ==> v.OwnerThread(b) == threadId by {
        assert forall b :: b in bs ==> OwnerThread(b) == threadId;
      }
      if receipt.None? {
        r := SettleAll(bs, "binding_detached", disposition, settles);
        if r.Ok? {
          assert forall i :: 0 <= i < |bs| ==> v.OwnerThread(bs[i]) == threadId;
          SettledArePinned(owners.Now(), bs, r.value, "binding_detached", disposition, threadId);
        }
        return;
      }
      r := RedeemPreflight(threadId, bs, disposition, receipt.value);
    }

    method RedeemPreflight(threadId: string, bs: seq<BindingKey>, disposition: Disposition, receipt: DetachReceipt)
      returns (r: Result<seq<SettlementReceipt>, ManagerError>)
      requires Now().Valid() && forall b :: b in bs ==> OwnerThread(b) == threadId
      modifies owners
      ensures Now().Valid() && Now() == old(Now()).(owners := Now().owners)
      ensures Calm(old(owners.Now()), owners.Now(), Members(bs))
      ensures r.Ok? <==> Redeemable(old(owners.Now()), threadId, bs, disposition, receipt)
      ensures r.Ok? ==> AllPending(owners.Now(), bs, r.value)
      ensures PreflightUsed(old(owners.Now()), owners.Now(), threadId, bs, disposition, Some(receipt))
    {
      hide Owners.Valid, PreflightsPinned, SubscriptionsAgree, HandlesMatch, Calm, Step, Owners.Accepts, AllPending, SameOwners,
           PreflightUsed;
      ghost var v := Now();
      forall i | 0 <= i < |bs| ensures v.OwnerThread(bs[i]) == threadId {
        assert OwnerThread(bs[i]) == threadId;
      }
      ghost var s := owners.Now();
      ConsumedIsCalm(s, receipt, threadId, bs, disposition);
      RedeemedIsUsed(s, receipt, threadId, bs, disposition);
      var consumed := owners.ConsumeDetach(receipt, threadId, bs, disposition);
      if consumed.Err? {
        return Err(StalePreflight);
      }
      SameOwnersAcceptAll(s, owners.Now(), receipt.owners, threadId);
      forall i | 0 <= i < |receipt.owners| ensures OwnerThread(receipt.owners[i].binding) == threadId {
        assert receipt.owners[i].binding == bs[i];
        assert OwnerThread(bs[i]) == v.OwnerThread(bs[i]);
      }
      var current := AllCurrent(receipt.owners, threadId);
      if !current {
        return Err(StalePreflight);
      }
      SameOwnersPending(s, owners.Now(), bs, receipt.settlements);
      r := Ok(receipt.settlements);
    }

    method AllCurrent(receipts: seq<OwnerReceipt>, threadId: string) returns (ok: bool)
      requires forall i :: 0 <= i < |receipts| ==> OwnerThread(receipts[i].binding) == threadId
      ensures ok <==> AcceptsAll(owners.Now(), receipts, threadId)
    {
      hide Owners.Accepts;
      for i := 0 to |receipts|
        invariant forall j :: 0 <= j < i ==> owners.Now().Accepts(receipts[j], threadId)
      {
        var current := owners.RequireOwnerCurrent(receipts[i], OwnerThread(receipts[i].binding));
        if !current {
          return false;
        }
      }
      ok := true;
    }

    // Everything a detach of a thread does after its records were written.
    method CommitDetach(threadId: string, bs: seq<BindingKey>, settlements: seq<SettlementReceipt>)
      requires Now().Valid() && Distinct(bs) && AllPending(owners.Now(), bs, settlements)
      requires forall b :: b in bs ==> b in residents
      modifies this, owners, handles
      ensures Now().Valid() && store == old(store)
      ensures residents == DetachedAll(old(residents), Members(bs))
      ensures OwnersMoved(old(owners.Now()), owners.Now(), Members(bs))
      ensures Rotated(old(handles.Now()), handles.Now(), Members(bs))
    {
      hide World.Valid, OwnersMoved, Rotated, Step, Left, Evolves, DetachedAll, DetachedState, State.TimersDetached;
      ghost var v := Now();
      NoneMoved(v.owners);
      NoneRotated(v.handles);
      assert Members(bs[..0]) == {};
      DetachedNone(residents);
      for i := 0 to |bs|
        invariant Now().Valid() && store == v.store
        invariant residents == DetachedAll(v.residents, Members(bs[..i]))
        invariant OwnersMoved(v.owners, owners.Now(), Members(bs[..i]))
        invariant Rotated(v.handles, handles.Now(), Members(bs[..i]))
      {
        var b := bs[i];
        assert b !in bs[..i] && Members(bs[..i + 1]) == Members(bs[..i]) + {b};
        ghost var w := Now();
        MovedKeepsOthers(v.owners, w.owners, Members(bs[..i]), b);
        DetachedOneMore(v.residents, Members(bs[..i]), b);
        DetachExecuted(residents[b].facts);
        Unbind(b, residents[b].facts.(attachment := Detached).TimersDetached(), settlements[i].command);
        ValidOwners(w);
        AdvancedIsLeft(w.owners, b, Some(settlements[i].command));
        MovedOneMore(v.owners, w.owners, owners.Now(), Members(bs[..i]), b);
        RotatedOneMore(v.handles, w.handles, handles.Now(), Members(bs[..i]), b);
      }
      assert bs[..|bs|] == bs;
    }

    // Detach every attached binding of a thread: all of them, or none.  With a
    // preflight it goes through only for exactly the bindings and owners that
    // were preflighted.
    method DetachThread(threadId: string, available: bool, disposition: Disposition, receipt: Option<DetachReceipt>,
                        settles: BindingKey -> bool, writes: nat -> bool)
      returns (r: Result<string, ManagerError>, ghost failed: nat)
      requires Now().Valid() && Orders(listing)
      modifies this, owners, handles
      ensures var bs := listing(AttachedBindings(old(residents), threadId));
        && Distinct(bs) && Members(bs) == AttachedBindings(old(residents), threadId)
        && (forall b :: b in bs ==> b in old(residents))
        && (r.Err? <==>
              || DetachUnavailable(old(Now()), threadId, available)
              || DetachRefused(old(Now()), threadId, bs, disposition, receipt, settles)
              || exists i :: 0 <= i < |bs| && !writes(i))
        && (r.Err? ==> BatchFailed(old(Now()), Now(), bs, DetachedRecords(factory, old(residents), bs),
                                   OriginalRecords(factory, old(residents), bs), writes, failed))
        && (r.Ok? ==> BatchDetached(old(Now()), Now(), factory, bs))
        && (!DetachUnavailable(old(Now()), threadId, available) ==>
              PreflightUsed(old(Now()).owners, Now().owners, threadId, bs, disposition, receipt))
      ensures r.Ok? ==> r.value == if AttachedBindings(old(residents), threadId) == {} then "" else threadId
      ensures r.Ok? ==> forall c :: (c, threadId) !in subscriptions
      ensures r.Ok? ==> ThreadLeft(old(Now()), Now(), factory, threadId)
      ensures r.Err? ==>
        StatesRestored(old(Now()), Now(), factory, listing(AttachedBindings(old(residents), threadId)), writes, failed)
    {
      hide World.Valid, DetachRefused, BatchFailed, BatchDetached, Calm, PreflightUsed, ThreadLeft, AttachedTo, StatesRestored;
      ghost var v := Now();
      var attached := AttachedBindings(residents, threadId);
      var bs := listing(attached);
      failed := |bs|;
      AttachedAreResident(residents, threadId, bs);
      NothingFailed(v, factory, bs, writes);
      DetachRestored(v, v, factory, bs, writes, failed);
      if threadId != "" {
        AttachedOnFields(residents, threadId);
      }
      if threadId == "" || BoundBindings(residents, threadId) == {} {
        return Err(NotBound), failed;
      }
      if attached != {} && !available {
        return Err(NotAvailable), failed;
      }
      var error;
      error, failed := DetachListed(threadId, bs, disposition, receipt, settles, writes);
      if error.Some? {
        DetachRestored(v, Now(), factory, bs, writes, failed);
        return Err(error.value), failed;
      }
      DetachedNobodyLeft(v, Now(), factory, threadId, bs);
      DetachedIsLeft(v, Now(), factory, threadId, bs);
      r := Ok(if attached == {} then "" else threadId);
    }

    method DetachListed(threadId: string, bs: seq<BindingKey>, disposition: Disposition, receipt: Option<DetachReceipt>,
                        settles: BindingKey -> bool, writes: nat -> bool)
      returns (error: Option<ManagerError>, ghost failed: nat)
      requires Now().Valid() && Distinct(bs) && forall b :: b in bs ==> b in residents && residents[b].facts.threadId == threadId
      modifies this, owners, handles
      ensures error.Some? <==>
        || DetachRefused(old(Now()), threadId, bs, disposition, receipt, settles)
        || exists i :: 0 <= i < |bs| && !writes(i)
      ensures error.Some? ==> BatchFailed(old(Now()), Now(), bs, DetachedRecords(factory, old(residents), bs),
                                          OriginalRecords(factory, old(residents), bs), writes, failed)
      ensures error.None? ==> BatchDetached(old(Now()), Now(), factory, bs)
      ensures PreflightUsed(old(owners.Now()), owners.Now(), threadId, bs, disposition, receipt)
    {
      hide World.Valid, Calm, DetachRefused, Written, Distinct, Factory.Stored, OwnersMoved, Rotated, AllPending, PreflightUsed,
           Evolves;
      ghost var v := Now();
      failed := |bs|;
      var records, originals := DetachedRecords(factory, residents, bs), OriginalRecords(factory, residents, bs);
      var settlements := DetachSettlements(threadId, bs, disposition, receipt, settles);
      ghost var t := Now();
      if settlements.Err? {
        return Some(settlements.error), failed;
      }
      var persisted;
      persisted, failed := PersistAll(bs, records, originals, writes);
      ValidIgnoresStore(t, Now());
      if !persisted {
        return Some(NotPersisted), failed;
      }
      CommitDetach(threadId, bs, settlements.value);
      MovedEvolves(t.owners, owners.Now(), Members(bs));
      UsedStays(v.owners, t.owners, owners.Now(), threadId, bs, disposition, receipt);
      CalmThenMoved(v.owners, t.owners, owners.Now(), Members(bs));
      WrittenIsDetached(v, Now(), factory, bs, writes);
      error := None;
    }

    // The bindings to deactivate: each once, and only those that exist.
    method PlanDeactivation(bindings: seq<BindingKey>) returns (plan: seq<BindingKey>)
      ensures Distinct(plan)
      ensures forall b :: b in plan <==> b in bindings && (b in residents || b in store)
    {
      plan := [];
      var seen: set<BindingKey> := {};
      for i := 0 to |bindings|
        invariant Distinct(plan)
        invariant forall b :: b in seen <==> b in bindings[..i]
        invariant forall b :: b in plan <==> b in bindings[..i] && (b in residents || b in store)
      {
        var b := bindings[i];
        if b !in seen && (b in residents || b in store) {
          assert b !in plan;
          plan := plan + [b];
        }
        seen := seen + {b};
      }
      assert bindings[..|bindings|] == bindings;
    }

    // Retire the owner and the handle of b.
    method RetireOwner(b: BindingKey, settled: Option<OwnerLoss>)
      requires owners.Now().Valid() && handles.Now().Valid()
      requires b in handles.current ==> b in residents && handles.current[b].resident == residents[b].token
      requires PreflightsPinned(owners.Now()) && Pending(owners.Now(), b) == settled
      modifies owners, handles
      ensures owners.Now().Valid() && handles.Now().Valid() && PreflightsPinned(owners.Now())
      ensures owners.Now() == Step(old(owners.Now()), OwnerEvent.RetireOwner(b, settled))
      ensures handles.Now() == old(handles.Now()).(current := old(handles.Now()).current - {b})
      ensures S.Evolves(old(handles.Now()), handles.Now())
    {
      hide PreflightsPinned, Owners.Valid;
      ghost var s := owners.Now();
      ghost var h := handles.Now();
      if b in residents {
        var handle := handles.Current(b, residents[b].token);
        if handle.Some? {
          var retired := handles.Retire(handle.value, b, residents[b].token);
          S.StepKeepsAuthority(h, S.SessionEvent.Retire(handle.value, b, residents[b].token));
        }
      }
      if b !in h.current {
        assert h.current - {b} == h.current;
      }
      StepKeepsValid(s, OwnerEvent.RetireOwner(b, settled));
      RetireKeepsPreflights(s, b, settled);
      var ok := owners.RetireOwner(b, settled);
    }

    // Remove one binding whose record is gone.
    method RemoveOne(b: BindingKey, threadId: string, settled: OwnerLoss) returns (removal: Removal)
      requires Now().Valid() && Pending(owners.Now(), b) == Some(settled)
      modifies this, owners, handles
      ensures Now().Valid() && store == old(store) && residents == old(residents) - {b}
      ensures removal.binding == b && removal.threadId == threadId
      ensures b !in old(residents) ==> removal.unsubscribeId == "" && subscriptions == old(subscriptions)
      ensures b in old(residents) ==>
        var left := old(residents)[b].facts.threadId;
        && subscriptions == old(subscriptions) - Pair(b, left)
        && removal.unsubscribeId == if left != "" && old(Now()).LastSubscriber(b, left) then left else ""
      ensures owners.Now() == Step(old(owners.Now()), OwnerEvent.RetireOwner(b, Some(settled)))
      ensures handles.Now() == old(handles.Now()).(current := old(handles.Now()).current - {b})
      ensures S.Evolves(old(handles.Now()), handles.Now())
    {
      hide Owners.Valid, Step, HandlesMatch, S.Residents.Valid, SubscriptionsAgree, PreflightsPinned, World.LastSubscriber;
      ghost var v := Now();
      RemovedHandles(residents, handles.Now(), b);
      HandleKnown(residents, handles.Now(), b);
      if b !in residents {
        RetireOwner(b, Some(settled));
        assert residents - {b} == residents;
        return Removal(b, threadId, "");
      }
      var left := residents[b].facts.threadId;
      var id := UnsubscribeIdIfLast(b, left);
      Unsubscribe(b, left);
      RemovedAgrees(v, b, subscriptions);
      RetireOwner(b, Some(settled));
      residents := residents - {b};
      removal := Removal(b, threadId, id);
    }

    method CommitDeactivation(plan: seq<BindingKey>, threads: seq<string>, settlements: seq<SettlementReceipt>)
      returns (removals: seq<Removal>)
      requires Now().Valid() && Distinct(plan) && |threads| == |plan| == |settlements|
      requires forall i :: 0 <= i < |plan| ==> Pending(owners.Now(), plan[i]) == Some(settlements[i].command)
      modifies this, owners, handles
      ensures Now().Valid() && store == old(store) && residents == old(residents) - Members(plan)
      ensures OwnersRetired(old(owners.Now()), owners.Now(), Members(plan))
      ensures S.Evolves(old(handles.Now()), handles.Now())
      ensures |removals| == |plan| && forall i :: 0 <= i < |plan| ==> removals[i].binding == plan[i]
      ensures NamesLost(old(subscriptions), subscriptions, removals)
    {
      hide World.Valid, OwnersRetired, Step, S.Evolves, NamesLost, World.LastSubscriber, SubscriptionsAgree;
      ghost var v := Now();
      removals := [];
      NothingRemoved(v);
      for i := 0 to |plan|
        invariant Now().Valid() && store == v.store
        invariant residents == v.residents - Members(plan[..i])
        invariant OwnersRetired(v.owners, owners.Now(), Members(plan[..i]))
        invariant S.Evolves(v.handles, handles.Now())
        invariant |removals| == i && forall j :: 0 <= j < i ==> removals[j].binding == plan[j]
        invariant NamesLost(v.subscriptions, subscriptions, removals)
      {
        var b := plan[i];
        assert b !in plan[..i] && Members(plan[..i + 1]) == Members(plan[..i]) + {b};
        ghost var w := Now();
        RetiredKeepsOthers(v.owners, w.owners, Members(plan[..i]), b);
        var removal := RemoveOne(b, threads[i], settlements[i].command);
        ValidOwners(w);
        RetiredOneMore(v.owners, w.owners, Members(plan[..i]), b, Some(settlements[i].command));
        HandlesEvolve(v.handles, w.handles, handles.Now());
        LossNamedBy(v.subscriptions, w, Now(), removals, b, removal);
        removals := removals + [removal];
      }
      assert plan[..|plan|] == plan;
    }

    // A removal keeps its id only if nothing names the thread any more.
    method KeepAbandoned(removals: seq<Removal>) returns (kept: seq<Removal>)
      ensures |kept| == |removals|
      ensures forall i :: 0 <= i < |kept| ==> kept[i] == removals[i].(unsubscribeId := kept[i].unsubscribeId)
      ensures forall i :: 0 <= i < |kept| ==>
        kept[i].unsubscribeId == if Abandoned(Now(), removals[i].unsubscribeId) then removals[i].unsubscribeId else ""
    {
      kept := [];
      for i := 0 to |removals|
        invariant |kept| == i
        invariant forall j :: 0 <= j < i ==> kept[j] == removals[j].(unsubscribeId := kept[j].unsubscribeId)
        invariant forall j :: 0 <= j < i ==>
                    kept[j].unsubscribeId == if Abandoned(Now(), removals[j].unsubscribeId) then removals[j].unsubscribeId else ""
      {
        var id := removals[i].unsubscribeId;
        var subscribed := exists p :: p in subscriptions && p.1 == id;
        var resident := exists c :: c in residents && residents[c].facts.threadId == id;
        var stored := exists c :: c in store && c !in residents && store[c].threadId == id;
        kept := kept + [removals[i].(unsubscribeId := if !subscribed && !resident && !stored then id else "")];
      }
    }

    // Remove a batch of bindings, records first: all of them, or none.
    method Deactivate(bindings: seq<BindingKey>, disposition: Disposition, settles: BindingKey -> bool, writes: nat -> bool)
      returns (r: Result<seq<Removal>, ManagerError>, ghost plan: seq<BindingKey>, ghost failed: nat)
      requires Now().Valid()
      modifies this, owners, handles
      ensures Distinct(plan) && forall b :: b in plan <==> b in bindings && (b in old(residents) || b in old(store))
      ensures r.Err? <==>
        || (exists b :: b in plan && SettleRefused(old(Now()), b, "binding_deactivated", disposition, settles))
        || exists i :: 0 <= i < |plan| && !writes(i)
      ensures r.Err? ==> BatchFailed(old(Now()), Now(), plan, EmptyRecords(|plan|),
                                     RecordsBefore(factory, old(residents), old(store), plan), writes, failed)
      ensures r.Err? ==> StatesRestored(old(Now()), Now(), factory, plan, writes, failed)
      ensures r.Ok? ==> BatchRemoved(old(Now()), Now(), plan)
      ensures r.Ok? ==> RemovalsNamed(old(Now()), Now(), plan, r.value)
    {
      hide World.Valid, Calm, Written, Factory.Stored, OwnersRetired, LossBlocked, SettledFor, S.Evolves, NamesLost, Abandoned,
           StatesRestored;
      ghost var v := Now();
      var toRemove := PlanDeactivation(bindings);
      plan := toRemove;
      failed := |plan|;
      CalmSelf(v.owners, Members(plan));
      var threads := OwnerThreads(toRemove);
      var originals := RecordsBefore(factory, residents, store, toRemove);
      var settlements := SettleAll(toRemove, "binding_deactivated", disposition, settles);
      ghost var t := Now();
      if settlements.Err? {
        FailedIsRestored(v, t, factory, plan, EmptyRecords(|plan|), originals, writes, failed);
        return Err(settlements.error), plan, failed;
      }
      SettledPending(v, t.owners, plan, settlements.value, disposition);
      var cleared;
      cleared, failed := PersistAll(toRemove, EmptyRecords(|toRemove|), originals, writes);
      ValidIgnoresStore(t, Now());
      if !cleared {
        FailedIsRestored(v, Now(), factory, plan, EmptyRecords(|plan|), originals, writes, failed);
        return Err(NotPersisted), plan, failed;
      }
      WrittenIsCleared(v.store, store, plan, originals, writes);
      var removals := CommitDeactivation(toRemove, threads, settlements.value);
      CalmThenRetired(v.owners, t.owners, owners.Now(), Members(plan));
      var kept := KeepAbandoned(removals);
      KeptNamed(v, Now(), plan, removals, kept);
      r := Ok(kept);
    }

    // Make a state resident under a new object; a downgraded record's owner moves on.
    method InstallHydrated(b: BindingKey, state: State, downgraded: bool, settled: Option<OwnerLoss>) returns (handle: RuntimeHandle)
      requires Now().Valid() && b !in residents && !state.attachment.Attached?
      requires downgraded ==> Pending(owners.Now(), b) == settled
      modifies this, owners, handles
      ensures Now().Valid() && store == old(store) && subscriptions == old(subscriptions)
      ensures residents.Keys == old(residents).Keys + {b} && residents[b].facts == state
      ensures forall c :: c in old(residents) ==> residents[c] == old(residents)[c]
      ensures owners.Now() == if downgraded then Step(old(owners.Now()), OwnerEvent.AdvanceOwner(b, settled)) else old(owners.Now())
      ensures S.Evolves(old(handles.Now()), handles.Now())
      ensures Now().Authorizes(handle) && handle.binding == b
    {
      hide Owners.Valid, PreflightsPinned, SubscriptionsAgree, Step, Rotated, HandlesMatch, S.Residents.Valid, S.Evolves;
      ghost var h := handles.Now();
      HandlesEvolveSelf(h);
      HandledKeys(residents, h);
      if downgraded {
        AdvanceOwner(b, settled);
        RotatedAway(h, handles.Now(), b);
      }
      ghost var k := handles.Now();
      handle := InstallResident(b, state);
      HandlesEvolve(h, k, handles.Now());
    }

    // The code would subscribe an attached state here; a hydrated one never is.
    method InstallResident(b: BindingKey, state: State) returns (handle: RuntimeHandle)
      requires handles.Now().Valid() && HandlesMatch(residents, handles.Now()) && SubscriptionsAgree(residents, subscriptions)
      requires b !in residents && !state.attachment.Attached?
      modifies this`residents, handles
      ensures handles.Now().Valid() && HandlesMatch(residents, handles.Now()) && SubscriptionsAgree(residents, subscriptions)
      ensures residents.Keys == old(residents).Keys + {b} && residents[b].facts == state
      ensures forall c :: c in old(residents) ==> residents[c] == old(residents)[c]
      ensures S.Evolves(old(handles.Now()), handles.Now())
      ensures handles.Now().Authorizes(handle, b, residents[b].token)
    {
      hide SubscriptionsAgree, S.Residents.Valid, S.Evolves;
      ghost var h := handles.Now();
      var token := new S.ResidentState();
      var installed := handles.Install(b, token);
      handle := installed.value;
      S.StepKeepsAuthority(h, S.SessionEvent.Install(b, token, handle));
      InstalledHandles(residents, h, handles.Now(), b, Resident(token, state));
      InstalledAgrees(residents, subscriptions, b, Resident(token, state));
      residents := residents[b := Resident(token, state)];
    }

    // The resident state of a binding; made from its record when there is none.
    method GetOrCreate(b: BindingKey, settles: bool, writes: bool) returns (r: Result<RuntimeHandle, ManagerError>)
      requires Now().Valid()
      modifies this, owners, handles
      ensures r.Err? || b in old(residents) ==> Untouched(old(Now()), Now(), {b})
      ensures r.Err? <==>
        && b !in old(residents) && b in old(store) && old(store)[b].attachment.Attached?
        && (LossBlocked(old(Now()).owners, b, old(store)[b].threadId, "binding_hydrated", Abandon)
            || (old(store)[b].threadId != "" && !settles) || !writes)
      ensures r.Ok? ==> Now().Authorizes(r.value) && r.value.binding == b
      ensures r.Ok? && b !in old(residents) && b in old(store) ==>
        && BatchHydrated(old(Now()), Now(), factory, [b])
        && StoreLoaded(old(store), residents, store, factory, {b})
      ensures r.Ok? && b !in old(residents) && b !in old(store) ==>
        && Now().Valid() && Now().store == old(store) && Now().owners == old(Now()).owners
        && subscriptions == old(subscriptions) && S.Evolves(old(Now()).handles, Now().handles)
        && residents.Keys == old(residents).Keys + {b} && DefaultOf(factory, residents[b].facts)
        && forall c :: c in old(residents) ==> residents[c] == old(residents)[c]
    {
      hide Owners.Valid, World.Valid, Quiet, LossBlocked, OwnersMoved, Factory.Stored, Factory.Hydrated, Factory.DefaultState,
           BatchHydrated, StoreLoaded, DefaultOf;
      ghost var v := Now();
      QuietSelf(v.owners, {b});
      RecordsOnFields(factory, factory.DefaultState(), EMPTY_RECORD);
      assert Members([b]) == {b};
      if b in residents {
        var handle := CurrentHandle(b);
        return Ok(handle);
      }
      if b !in store {
        var handle := InstallHydrated(b, factory.DefaultState(), false, None);
        return Ok(handle);
      }
      var record := store[b];
      var (state, downgraded) := factory.Hydrated(factory.DefaultState(), record);
      NeverHydratedAttached(factory, record);
      if !downgraded {
        var handle := InstallHydrated(b, state, false, None);
        KeptHydrated(v, Now(), factory, b);
        HydratedIsLoaded(v, Now(), factory, [b]);
        return Ok(handle);
      }
      var settlement := SettleOwnerLoss(b, state.threadId, "binding_hydrated", Abandon, settles);
      if settlement.Err? {
        return Err(settlement.error);
      }
      ghost var t := Now();
      SettledOwner(t, settlement.value.command, b, state.threadId);
      QuietThenAdvanced(v.owners, t.owners, b, Some(settlement.value.command));
      var persisted := Persist(b, factory.Stored(state), writes);
      ValidIgnoresStore(t, Now());
      if !persisted {
        return Err(NotPersisted);
      }
      var handle := InstallHydrated(b, state, true, Some(settlement.value.command));
      DowngradedHydrated(v, Now(), factory, b);
      HydratedIsLoaded(v, Now(), factory, [b]);
      r := Ok(handle);
    }

    method CurrentHandle(b: BindingKey) returns (handle: RuntimeHandle)
      requires Now().Valid() && b in residents
      ensures Now().Authorizes(handle) && handle.binding == b
    {
      handle := handles.Current(b, residents[b].token).value;
    }

    // The bindings of a plan whose records claim to be attached.
    method Downgraded(plan: seq<BindingKey>) returns (downs: seq<BindingKey>)
      requires Distinct(plan) && forall b :: b in plan ==> b in store
      ensures Distinct(downs) && Members(downs) == AttachedRecords(store, Members(plan))
      ensures forall b :: b in downs ==> b in plan
    {
      downs := [];
      for i := 0 to |plan|
        invariant Distinct(downs)
        invariant forall b :: b in downs <==> b in plan[..i] && store[b].attachment.Attached?
      {
        assert plan[i] !in plan[..i];
        if store[plan[i]].attachment.Attached? {
          downs := downs + [plan[i]];
        }
      }
      assert plan[..|plan|] == plan;
    }

    method LossesOf(bs: seq<BindingKey>, settlements: seq<SettlementReceipt>) returns (losses: map<BindingKey, OwnerLoss>)
      requires Distinct(bs) && AllPending(owners.Now(), bs, settlements)
      ensures losses.Keys == Members(bs) && LossesPending(owners.Now(), losses)
    {
      losses := map[];
      for i := 0 to |bs|
        invariant forall b :: b in losses <==> b in bs[..i]
        invariant LossesPending(owners.Now(), losses)
      {
        losses := losses[bs[i] := settlements[i].command];
      }
      assert bs[..|bs|] == bs;
    }

    // Make a plan resident from the records loaded for it.
    method InstallAll(plan: seq<BindingKey>, loaded: map<BindingKey, Record>, losses: map<BindingKey, OwnerLoss>)
      requires Now().Valid() && Distinct(plan) && forall b :: b in plan ==> b in loaded && b !in residents
      requires forall b :: b in plan && loaded[b].attachment.Attached? ==> Pending(owners.Now(), b) == LossOf(losses, b)
      modifies this, owners, handles
      ensures Now().Valid() && store == old(store) && subscriptions == old(subscriptions)
      ensures ResidentsHydrated(old(residents), loaded, residents, factory, Members(plan))
      ensures OwnersMoved(old(owners.Now()), owners.Now(), AttachedRecords(loaded, Members(plan)))
      ensures S.Evolves(old(handles.Now()), handles.Now())
    {
      hide World.Valid, OwnersMoved, Step, Left, Evolves, S.Evolves, ResidentsHydrated, HydratedState, AttachedRecords;
      ghost var v := Now();
      NoneMoved(v.owners);
      HandlesEvolveSelf(v.handles);
      NoneHydrated(residents, loaded, factory);
      NoneAttached(loaded);
      assert Members(plan[..0]) == {};
      for i := 0 to |plan|
        invariant Now().Valid() && store == v.store && subscriptions == v.subscriptions
        invariant residents.Keys == v.residents.Keys + Members(plan[..i])
        invariant ResidentsHydrated(v.residents, loaded, residents, factory, Members(plan[..i]))
        invariant OwnersMoved(v.owners, owners.Now(), AttachedRecords(loaded, Members(plan[..i])))
        invariant S.Evolves(v.handles, handles.Now())
      {
        var b := plan[i];
        assert b !in plan[..i] && Members(plan[..i + 1]) == Members(plan[..i]) + {b};
        ghost var w := Now();
        NotYetMoved(v.owners, w.owners, loaded, Members(plan[..i]), b);
        AttachedOneMore(loaded, Members(plan[..i]), b);
        NeverHydratedAttached(factory, loaded[b]);
        var handle := InstallHydrated(b, factory.Hydrated(factory.DefaultState(), loaded[b]).0,
                                      loaded[b].attachment.Attached?, LossOf(losses, b));
        HydratedFor(factory, loaded[b]);
        HydratedOneMore(v.residents, loaded, w.residents, residents, factory, Members(plan[..i]), b);
        HandlesEvolve(v.handles, w.handles, handles.Now());
        if loaded[b].attachment.Attached? {
          ValidOwners(w);
          AdvancedIsLeft(w.owners, b, LossOf(losses, b));
          MovedOneMore(v.owners, w.owners, owners.Now(), AttachedRecords(loaded, Members(plan[..i])), b);
        }
      }
      assert plan[..|plan|] == plan;
    }

    // Make every stored binding resident that is not: all of them, or none.  None
    // comes back attached.
    method HydrateMissing(settles: BindingKey -> bool, writes: nat -> bool)
      returns (error: Option<ManagerError>, ghost plan: seq<BindingKey>, ghost downs: seq<BindingKey>, ghost failed: nat)
      requires Now().Valid() && Orders(listing)
      modifies this, owners, handles
      ensures Distinct(plan) && Members(plan) == old(store).Keys - old(residents).Keys
      ensures Distinct(downs) && Members(downs) == AttachedRecords(old(store), Members(plan))
      ensures forall b :: b in downs ==> b in old(store)
      ensures error.Some? <==>
        || (exists b :: b in downs && SettleRefused(old(Now()), b, "binding_hydrated", Abandon, settles))
        || exists i :: 0 <= i < |downs| && !writes(i)
      ensures error.Some? ==> BatchFailed(old(Now()), Now(), downs, HydratedRecords(factory, old(store), downs),
                                          StoredRecords(old(store), downs), writes, failed)
      ensures error.Some? ==> RecordsRestored(old(Now()), Now(), downs, writes, failed)
      ensures error.None? ==> BatchHydrated(old(Now()), Now(), factory, plan)
      ensures error.None? ==>
        && residents.Keys == old(residents).Keys + old(store).Keys
        && StoreLoaded(old(store), residents, store, factory, old(store).Keys - old(residents).Keys)
    {
      hide World.Valid, BatchHydrated, BatchFailed, AttachedRecords, StoreLoaded, RecordsRestored;
      ghost var v := Now();
      var missing := listing(store.Keys - residents.Keys);
      MembersAre(missing, store.Keys - residents.Keys);
      plan := missing;
      var stale := Downgraded(missing);
      downs := stale;
      error, failed := HydratePlan(missing, stale, settles, writes);
      if error.None? {
        HydratedIsLoaded(v, Now(), factory, plan);
      } else {
        HydrationRestored(v, Now(), factory, downs, writes, failed);
      }
    }

    method HydratePlan(plan: seq<BindingKey>, downs: seq<BindingKey>, settles: BindingKey -> bool, writes: nat -> bool)
      returns (error: Option<ManagerError>, ghost failed: nat)
      requires Now().Valid() && Distinct(plan) && forall b :: b in plan ==> b in store && b !in residents
      requires Distinct(downs) && Members(downs) == AttachedRecords(store, Members(plan)) && forall b :: b in downs ==> b in store
      modifies this, owners, handles
      ensures error.Some? <==>
        || (exists b :: b in downs && SettleRefused(old(Now()), b, "binding_hydrated", Abandon, settles))
        || exists i :: 0 <= i < |downs| && !writes(i)
      ensures error.Some? ==> BatchFailed(old(Now()), Now(), downs, HydratedRecords(factory, old(store), downs),
                                          StoredRecords(old(store), downs), writes, failed)
      ensures error.None? ==> BatchHydrated(old(Now()), Now(), factory, plan)
    {
      hide World.Valid, Calm, Written, Factory.Stored, HydratedState, OwnersMoved, LossBlocked, SettledFor, S.Evolves,
           AttachedRecords, BatchHydrated, ResidentsHydrated, LossesPending, AllPending;
      ghost var v := Now();
      failed := |downs|;
      CalmSelf(v.owners, Members(downs));
      var loaded := store;
      var records, originals := HydratedRecords(factory, store, downs), StoredRecords(store, downs);
      var settlements := SettleAll(downs, "binding_hydrated", Abandon, settles);
      ghost var t := Now();
      if settlements.Err? {
        return Some(settlements.error), failed;
      }
      AllAreSettled(v, t.owners, downs, settlements.value, "binding_hydrated", Abandon);
      var losses := LossesOf(downs, settlements.value);
      var persisted;
      persisted, failed := PersistAll(downs, records, originals, writes);
      ValidIgnoresStore(t, Now());
      if !persisted {
        return Some(NotPersisted), failed;
      }
      WrittenIsHydrated(v.store, store, factory, downs, originals, writes);
      PlanPending(t.owners, loaded, plan, downs, losses);
      InstallAll(plan, loaded, losses);
      CalmThenMoved(v.owners, t.owners, owners.Now(), Members(downs));
      HydratedBatch(v, Now(), factory, plan, downs);
      error := None;
    }

    // A receipt for the owner of every resident.
    method IssueResidents() returns (receipts: map<BindingKey, OwnerReceipt>)
      requires Now().Valid()
      modifies owners
      ensures Untouched(old(Now()), Now(), residents.Keys)
      ensures SameLosses(old(Now()), Now().owners)
      ensures receipts.Keys == residents.Keys && Registered(Now().owners, receipts)
    {
      hide World.Valid, Quiet, LossBlocked, SameLosses, Registered, World.OwnerThread;
      ghost var v := Now();
      QuietSelf(v.owners, residents.Keys);
      SameLossesSelf(v);
      receipts := map[];
      NoneIssued(v.owners);
      var left := residents.Keys;
      while left != {}
        invariant left <= residents.Keys && receipts.Keys == residents.Keys - left
        invariant Untouched(v, Now(), residents.Keys)
        invariant SameLosses(v, Now().owners) && Registered(Now().owners, receipts)
      {
        var b :| b in left;
        ghost var w := Now();
        var owner := OwnerReceiptOf(b, "binding_hydrated", Abandon);
        OneMoreIssued(v, w, Now(), receipts, b, owner);
        receipts := receipts[b := owner];
        left := left - {b};
      }
    }

    // The owners that have to be settled; none if state and record differ on one.
    method CollectCandidates() returns (r: Option<map<BindingKey, string>>)
      ensures r.None? <==> exists b :: b in store && Conflicting(Now(), b)
      ensures r.Some? ==>
        && r.value.Keys == Candidates(Now())
        && forall b :: b in r.value ==> r.value[b] == CandidateThread(Now(), b)
    {
      var candidates := map b |
        b in residents && residents[b].facts.attachment.Attached? && residents[b].facts.threadId != "" ::
        residents[b].facts.threadId;
      var left := store.Keys;
      while left != {}
        invariant left <= store.Keys
        invariant forall b :: b in store && b !in left ==> !Conflicting(Now(), b)
        invariant forall b :: b in candidates <==>
                    (if b in left then ResidentThread(Now(), b) else CandidateThread(Now(), b)) != ""
        invariant forall b :: b in candidates ==>
                    candidates[b] == if b in left then ResidentThread(Now(), b) else CandidateThread(Now(), b)
      {
        var b :| b in left;
        if store[b].attachment.Attached? {
          if b in candidates && candidates[b] != store[b].threadId {
            assert Conflicting(Now(), b);
            return None;
          }
          if store[b].threadId != "" {
            candidates := candidates[b := store[b].threadId];
          }
        }
        left := left - {b};
      }
      r := Some(candidates);
    }

    method ThreadsOf(bs: seq<BindingKey>, candidates: map<BindingKey, string>) returns (threads: seq<string>)
      requires forall b :: b in bs ==> b in candidates
      ensures |threads| == |bs| && forall i :: 0 <= i < |bs| ==> threads[i] == candidates[bs[i]]
    {
      threads := seq(|bs|, i requires 0 <= i < |bs| => candidates[bs[i]]);
    }

    // No owner outside the candidates has a loss pending.
    method NoOthersPending(candidates: set<BindingKey>, receipts: map<BindingKey, OwnerReceipt>) returns (ok: bool)
      requires forall b :: b in receipts && b !in candidates ==> receipts[b].binding == b && owners.Now().Current(receipts[b])
      ensures ok <==> forall b :: b in receipts && b !in candidates ==> Pending(owners.Now(), b).None?
    {
      var left := receipts.Keys - candidates;
      while left != {}
        invariant left <= receipts.Keys - candidates
        invariant forall b :: b in receipts && b !in candidates && b !in left ==> Pending(owners.Now(), b).None?
      {
        var b :| b in left;
        var free := owners.RequireLossNotPending(receipts[b]);
        if !free {
          return false;
        }
        left := left - {b};
      }
      ok := true;
    }

    // Everything a replacement does before it writes.
    method PrepareReplace(settles: BindingKey -> bool) returns (r: Result<map<BindingKey, OwnerLoss>, ManagerError>)
      requires Now().Valid() && Orders(listing)
      modifies owners
      ensures Untouched(old(Now()), Now(), Touched(old(Now())))
      ensures r.Err? <==> ReplaceRefused(old(Now()), settles)
      ensures r.Ok? ==> ReplaceSettled(old(Now()), Now().owners, r.value)
    {
      hide World.Valid, Quiet, LossBlocked, SameLosses, Registered, Candidates, CandidateThread, CandidateRefused, Conflicting,
           AllPending, LossesPending, ThreadRefused, SettledFor, Orders, Distinct, Members;
      ghost var v := Now();
      ghost var bound := Candidates(v);
      QuietSelf(v.owners, Touched(v));
      var receipts := IssueResidents();
      ghost var w := Now();
      WidenQuiet(v.owners, w.owners, v.residents.Keys, Touched(v));
      SameCandidates(v, w);
      var candidates := CollectCandidates();
      if candidates.None? {
        return Err(BindingChanged);
      }
      var bs := listing(candidates.value.Keys);
      Listed(listing, candidates.value.Keys);
      var threads := ThreadsOf(bs, candidates.value);
      ThreadsRefused(v, w, bs, candidates.value, threads, settles);
      var settlements := SettleThreads(bs, threads, "binding_hydrated", Abandon, settles);
      ghost var t := Now();
      QuietUnion(v.owners, w.owners, t.owners, v.residents.Keys, Members(bs));
      if settlements.Err? {
        return Err(settlements.error);
      }
      OthersPending(v, w.owners, t.owners, bs, receipts);
      var free := NoOthersPending(candidates.value.Keys, receipts);
      if !free {
        return Err(OwnerLossPending);
      }
      if exists b :: b in store && store[b].attachment.Attached? && store[b].threadId == "" {
        return Err(NotBound);
      }
      ThreadsPending(t.owners, bs, threads, settlements.value);
      var losses := LossesOf(bs, settlements.value);
      ReplaceIsSettled(v, t.owners, losses);
      r := Ok(losses);
    }

    // Every resident's owner and handle are retired, and nothing is resident any more.
    method RetireResidents(losses: map<BindingKey, OwnerLoss>)
      requires Now().Valid() && forall b :: b in residents ==> Pending(owners.Now(), b) == LossOf(losses, b)
      modifies this, owners, handles
      ensures Now().Valid() && store == old(store) && residents == map[] && subscriptions == {} && handles.Now().current == map[]
      ensures OwnersRetired(old(owners.Now()), owners.Now(), old(residents).Keys)
      ensures S.Evolves(old(handles.Now()), handles.Now())
    {
      hide Owners.Valid, S.Residents.Valid, OwnersRetired, Step, S.Evolves, PreflightsPinned, HandlesMatch, SubscriptionsAgree;
      RetireOwners(losses);
      ghost var h := handles.Now();
      handles.RetireAll();
      S.StepKeepsAuthority(h, S.SessionEvent.RetireAll);
      HandlesEvolve(old(handles.Now()), h, handles.Now());
      residents, subscriptions := map[], {};
      NothingAgrees(handles.Now());
    }

    method RetireOwners(losses: map<BindingKey, OwnerLoss>)
      requires Now().Valid() && forall b :: b in residents ==> Pending(owners.Now(), b) == LossOf(losses, b)
      modifies owners, handles
      ensures owners.Now().Valid() && handles.Now().Valid() && PreflightsPinned(owners.Now())
      ensures OwnersRetired(old(owners.Now()), owners.Now(), residents.Keys)
      ensures S.Evolves(old(handles.Now()), handles.Now())
    {
      hide Owners.Valid, S.Residents.Valid, OwnersRetired, Step, S.Evolves, PreflightsPinned, HandlesMatch, SubscriptionsAgree;
      ghost var v := Now();
      NoneRetired(v.owners);
      HandlesEvolveSelf(v.handles);
      var left := residents.Keys;
      assert residents.Keys - left == {};
      while left != {}
        invariant left <= residents.Keys
        invariant owners.Now().Valid() && handles.Now().Valid() && PreflightsPinned(owners.Now())
        invariant OwnersRetired(v.owners, owners.Now(), residents.Keys - left)
        invariant handles.Now().current == v.handles.current - (residents.Keys - left)
        invariant S.Evolves(v.handles, handles.Now())
      {
        var b :| b in left;
        ghost var w := Now();
        var done := residents.Keys - left;
        RetiredKeepsOthers(v.owners, w.owners, done, b);
        HandleKnown(residents, v.handles, b);
        RetireOwner(b, LossOf(losses, b));
        RetiredOneMore(v.owners, w.owners, done, b, LossOf(losses, b));
        HandlesEvolve(v.handles, w.handles, handles.Now());
        left := left - {b};
        assert residents.Keys - left == done + {b};
        assert v.handles.current - (done + {b}) == (v.handles.current - done) - {b};
      }
      assert residents.Keys - {} == residents.Keys;
    }

    // Replace every resident by what the store holds: all of it, or nothing.
    method HydrateReplace(settles: BindingKey -> bool, writes: nat -> bool)
      returns (error: Option<ManagerError>, ghost downs: seq<BindingKey>, ghost failed: nat)
      requires Now().Valid() && Orders(listing)
      modifies this, owners, handles
      ensures Distinct(downs) && Members(downs) == AttachedRecords(old(store), old(store).Keys)
      ensures forall b :: b in downs ==> b in old(store)
      ensures error.Some? <==> ReplaceRefused(old(Now()), settles) || exists i :: 0 <= i < |downs| && !writes(i)
      ensures error.Some? ==> ReplaceFailed(old(Now()), Now(), downs, HydratedRecords(factory, old(store), downs),
                                            StoredRecords(old(store), downs), writes, failed)
      ensures error.Some? ==> RecordsRestored(old(Now()), Now(), downs, writes, failed)
      ensures error.None? ==> Replaced(old(Now()), Now(), factory)
      ensures error.None? ==>
        residents.Keys == old(store).Keys && StoreLoaded(old(store), residents, store, factory, old(store).Keys)
    {
      hide RecordsRestored, StoreLoaded, World.Valid, Quiet, ReplaceRefused, ReplaceSettled, Replaced, AttachedRecords, Factory.Stored, HydratedState, Written,
           OwnersRetired, OwnersMoved, S.Evolves, ResidentsHydrated, Touched, Orders, Distinct;
      ghost var v := Now();
      var loaded := store;
      var plan := listing(store.Keys);
      Listed(listing, store.Keys);
      MembersAre(plan, store.Keys);
      var stale := Downgraded(plan);
      downs, failed := stale, |stale|;
      var losses := PrepareReplace(settles);
      ghost var t := Now();
      if losses.Err? {
        ReplaceRestored(v, t, factory, downs, writes, failed);
        return Some(losses.error), downs, failed;
      }
      var records, originals := HydratedRecords(factory, store, stale), StoredRecords(store, stale);
      var persisted;
      persisted, failed := PersistAll(stale, records, originals, writes);
      ValidIgnoresStore(t, Now());
      if !persisted {
        ReplaceRestored(v, Now(), factory, downs, writes, failed);
        return Some(NotPersisted), downs, failed;
      }
      WrittenIsHydrated(v.store, store, factory, downs, originals, writes);
      SettledResidents(v, t.owners, losses.value);
      var remaining := losses.value - residents.Keys;
      RetireResidents(losses.value);
      ghost var u := Now();
      RetiredPending(v, t.owners, u.owners, losses.value);
      InstallAll(plan, loaded, remaining);
      ReplacedBy(v, t, u, Now(), factory, downs);
      ReplacedIsLoaded(v, Now(), factory);
      error := None;
    }
  }
}
