// Replacing every resident state by what the store holds
// (bot/binding_runtime_manager.py, hydration with `replace`).
module BindingReplacement {
  import opened Wrappers
  import opened BindingSessions
  import opened BindingRecords
  import opened OwnerAuthority
  import opened BindingWorld
  import S = SessionAuthority

  predicate ClaimsAttached(store: map<BindingKey, Record>, b: BindingKey) {
    b in store && store[b].attachment.Attached?
  }

  // The thread b takes part in writing, by its resident state.
  function ResidentThread(v: World, b: BindingKey): string {
    if b in v.residents && v.residents[b].facts.attachment.Attached? then v.residents[b].facts.threadId else ""
  }

  // The thread whose owner has to be settled before b is replaced.
  function CandidateThread(v: World, b: BindingKey): string {
    if ClaimsAttached(v.store, b) && v.store[b].threadId != "" then v.store[b].threadId else ResidentThread(v, b)
  }

  function Candidates(v: World): set<BindingKey> {
    set b | b in v.residents.Keys + v.store.Keys && CandidateThread(v, b) != ""
  }

  // State and record both claim to be attached, to different threads.
  predicate Conflicting(v: World, b: BindingKey) {
    ClaimsAttached(v.store, b) && ResidentThread(v, b) != "" && ResidentThread(v, b) != v.store[b].threadId
  }

  lemma SameCandidates(v: World, w: World)
    requires w == v.(owners := w.owners)
    ensures Candidates(w) == Candidates(v)
    ensures forall b :: CandidateThread(w, b) == CandidateThread(v, b)
    ensures forall b :: Conflicting(w, b) == Conflicting(v, b)
  {
  }

  // What makes a replacement raise, the writes of the records apart.
  predicate ReplaceRefused(v: World, settles: BindingKey -> bool) {
    || (exists b :: b in v.store && Conflicting(v, b))
    || (exists b :: b in Candidates(v) && CandidateRefused(v, b, settles))
    || (exists b :: b in v.residents && b !in Candidates(v) && Pending(v.owners, b).Some?)
    || (exists b :: b in v.store && ClaimsAttached(v.store, b) && v.store[b].threadId == "")
  }

  predicate CandidateRefused(v: World, b: BindingKey, settles: BindingKey -> bool) {
    var t := CandidateThread(v, b);
    t != v.OwnerThread(b) || LossBlocked(v.owners, b, t, "binding_hydrated", Abandon) || !settles(b)
  }

  function Touched(v: World): set<BindingKey> {
    v.residents.Keys + Candidates(v)
  }

  // What a refused replacement leaves: residents, subscriptions and owner revisions
  // as they were, and the records as the rollback left them.
  ghost predicate ReplaceFailed(v: World, w: World, bs: seq<BindingKey>, records: seq<Record>, originals: seq<Record>,
                                writes: nat -> bool, failed: nat)
    requires |bs| == |records| == |originals|
  {
    && w.Valid() && w.residents == v.residents && w.subscriptions == v.subscriptions && w.handles == v.handles
    && Quiet(v.owners, w.owners, Touched(v))
    && (w.store == v.store || (failed < |bs| && Written(v.store, w.store, bs, records, originals, writes, failed)))
  }

  // The owners of these bindings are replaced: no receipt or preflight of before is
  // good any more.  Only a downgraded record has a generation again, at rest.
  ghost predicate OwnersReplaced(s: Owners, t: Owners, residents: set<BindingKey>, downs: set<BindingKey>) {
    && Evolves(s, t)
    && t.generations - downs == s.generations - (residents + downs)
    && (forall b :: b in downs ==> b in t.generations && t.generations[b].receipt.None? && t.generations[b].reserved.None?)
    && (forall r :: r in s.minted && r.binding in residents + downs ==> !t.Current(r))
    && (forall d, b :: d in s.mintedDetaches && b in residents + downs && Covers(d, b) ==> !t.Active(d))
  }

  // The residents are exactly the stored bindings, none of them attached; no handle
  // of before is registered.
  ghost predicate Replaced(v: World, w: World, factory: Factory) {
    && w.Valid() && w.subscriptions == {}
    && ResidentsHydrated(map[], v.store, w.residents, factory, v.store.Keys)
    && (forall b :: ClaimsAttached(v.store, b) ==>
          Get(w.store, b) == Kept(factory.Stored(HydratedState(factory, v.store[b]))))
    && (forall b :: !ClaimsAttached(v.store, b) ==> Get(w.store, b) == Get(v.store, b))
    && OwnersReplaced(v.owners, w.owners, v.residents.Keys, AttachedRecords(v.store, v.store.Keys))
    && S.Evolves(v.handles, w.handles) && forall h :: h in v.handles.minted ==> !w.handles.Registered(h)
  }

  lemma ReplacedIsLoaded(v: World, w: World, factory: Factory)
    requires Replaced(v, w, factory)
    ensures StoreLoaded(v.store, w.residents, w.store, factory, v.store.Keys)
    ensures w.residents.Keys == v.store.Keys
  {
    hide World.Valid, OwnersReplaced, S.Evolves, LoadedFrom, RecordOf, Factory.Stored, HydratedState;
    forall b | b in v.store
      ensures b in w.residents && LoadedFrom(factory, v.store[b], w.residents[b].facts)
      ensures v.store[b].attachment == Attached ==> RecordOf(factory, w.residents[b].facts, Get(w.store, b))
      ensures v.store[b].attachment != Attached ==> Get(w.store, b) == Get(v.store, b)
    {
      RecordsOnFields(factory, HydratedState(factory, v.store[b]), v.store[b]);
      assert ClaimsAttached(v.store, b) <==> v.store[b].attachment == Attached;
    }
    forall b | b !in v.store ensures Get(w.store, b) == Get(v.store, b) {
      assert !ClaimsAttached(v.store, b);
    }
  }

  // ---------------------------------------------------------- settling the owners

  // The losses pending, and those that may be reserved, are the ones of before.
  ghost predicate SameLosses(v: World, t: Owners) {
    forall b ::
      && Pending(t, b) == Pending(v.owners, b)
      && LossBlocked(t, b, v.OwnerThread(b), "binding_hydrated", Abandon)
         == LossBlocked(v.owners, b, v.OwnerThread(b), "binding_hydrated", Abandon)
  }

  lemma SameLossesSelf(v: World)
    ensures SameLosses(v, v.owners)
  {
  }

  lemma SameLossesOneMore(v: World, s: Owners, t: Owners, b: BindingKey)
    requires SameLosses(v, s) && Quiet(s, t, {b}) && Pending(t, b) == Pending(s, b)
    requires LossBlocked(t, b, v.OwnerThread(b), "binding_hydrated", Abandon)
             == LossBlocked(s, b, v.OwnerThread(b), "binding_hydrated", Abandon)
    ensures SameLosses(v, t)
  {
    hide LossBlocked, World.OwnerThread;
    forall c ensures
      && Pending(t, c) == Pending(v.owners, c)
      && LossBlocked(t, c, v.OwnerThread(c), "binding_hydrated", Abandon)
         == LossBlocked(v.owners, c, v.OwnerThread(c), "binding_hydrated", Abandon)
    {
      if c != b {
        BlockedStays(s, t, {b}, c, v.OwnerThread(c), "binding_hydrated", Abandon);
        QuietKeepsPending(s, t, {b}, c);
      }
    }
  }

  lemma QuietKeepsPending(s: Owners, t: Owners, bs: set<BindingKey>, c: BindingKey)
    requires Quiet(s, t, bs) && c !in bs
    ensures Pending(t, c) == Pending(s, c)
    ensures forall r: OwnerReceipt :: r.binding == c && s.Current(r) ==> t.Current(r)
  {
    if c in s.generations {
      assert c in t.generations;
    }
  }

  // Receipts of the bindings issued so far, all of them registered.
  ghost predicate Registered(s: Owners, receipts: map<BindingKey, OwnerReceipt>) {
    forall b :: b in receipts ==> receipts[b].binding == b && s.Current(receipts[b])
  }

  lemma RegisteredStay(s: Owners, t: Owners, bs: set<BindingKey>, receipts: map<BindingKey, OwnerReceipt>)
    requires Quiet(s, t, bs) && Registered(s, receipts) && receipts.Keys !! bs
    ensures Registered(t, receipts)
  {
    forall b | b in receipts ensures t.Current(receipts[b]) {
      QuietKeepsPending(s, t, bs, b);
    }
  }

  lemma NoneIssued(s: Owners)
    ensures Registered(s, map[])
  {
  }

  lemma OneMoreIssued(v: World, w: World, u: World, receipts: map<BindingKey, OwnerReceipt>, b: BindingKey, owner: OwnerReceipt)
    requires Untouched(v, w, v.residents.Keys) && SameLosses(v, w.owners) && Registered(w.owners, receipts)
    requires b in v.residents && b !in receipts && Untouched(w, u, {b}) && Pending(u.owners, b) == Pending(w.owners, b)
    requires owner.binding == b && u.owners.Accepts(owner, w.OwnerThread(b))
    requires LossBlocked(u.owners, b, w.OwnerThread(b), "binding_hydrated", Abandon)
             == LossBlocked(w.owners, b, w.OwnerThread(b), "binding_hydrated", Abandon)
    ensures Untouched(v, u, v.residents.Keys) && SameLosses(v, u.owners) && Registered(u.owners, receipts[b := owner])
  {
    hide World.Valid, Quiet, LossBlocked, SameLosses;
    QuietUnion(v.owners, w.owners, u.owners, v.residents.Keys, {b});
    assert v.residents.Keys + {b} == v.residents.Keys;
    assert v.OwnerThread(b) == w.OwnerThread(b);
    SameLossesOneMore(v, w.owners, u.owners, b);
    RegisteredStay(w.owners, u.owners, {b}, receipts);
  }

  lemma QuietUnion(s: Owners, t: Owners, u: Owners, xs: set<BindingKey>, bs: set<BindingKey>)
    requires Quiet(s, t, xs) && Quiet(t, u, bs)
    ensures Quiet(s, u, xs + bs)
  {
  }

  // A replacement may go on: every candidate's loss is pending, nobody else's is.
  ghost predicate ReplaceSettled(v: World, s: Owners, losses: map<BindingKey, OwnerLoss>) {
    && losses.Keys == Candidates(v) && LossesPending(s, losses)
    && (forall b :: b in v.residents && b !in losses ==> Pending(s, b).None?)
    && (forall b :: ClaimsAttached(v.store, b) ==> b in losses)
  }

  lemma SettledResidents(v: World, s: Owners, losses: map<BindingKey, OwnerLoss>)
    requires ReplaceSettled(v, s, losses)
    ensures forall b :: b in v.residents ==> Pending(s, b) == LossOf(losses, b)
  {
  }

  lemma ThreadsRefused(v: World, w: World, bs: seq<BindingKey>, candidates: map<BindingKey, string>, threads: seq<string>,
                       settles: BindingKey -> bool)
    requires w == v.(owners := w.owners) && SameLosses(v, w.owners) && Members(bs) == Candidates(v)
    requires candidates.Keys == Candidates(v) && forall b :: b in candidates ==> candidates[b] == CandidateThread(v, b)
    requires |threads| == |bs| && forall i :: 0 <= i < |bs| ==> bs[i] in candidates && threads[i] == candidates[bs[i]]
    ensures (exists i :: 0 <= i < |bs| && ThreadRefused(w, bs[i], threads[i], "binding_hydrated", Abandon, settles))
            <==> exists b :: b in Candidates(v) && CandidateRefused(v, b, settles)
  {
    hide LossBlocked, CandidateThread, Pending;
    forall i | 0 <= i < |bs|
      ensures bs[i] in Candidates(v)
      ensures ThreadRefused(w, bs[i], threads[i], "binding_hydrated", Abandon, settles) <==> CandidateRefused(v, bs[i], settles)
    {
      assert bs[i] in Members(bs);
      CandidateHasThread(v, bs[i]);
      assert v.OwnerThread(bs[i]) == w.OwnerThread(bs[i]);
    }
    if b :| b in Candidates(v) && CandidateRefused(v, b, settles) {
      assert b in Members(bs);
      var i :| 0 <= i < |bs| && bs[i] == b;
      assert ThreadRefused(w, bs[i], threads[i], "binding_hydrated", Abandon, settles);
    }
  }

  lemma CandidateHasThread(v: World, b: BindingKey)
    requires b in Candidates(v)
    ensures CandidateThread(v, b) != ""
  {
  }

  // What one loss of a batch came to.
  lemma ThreadsPending(s: Owners, bs: seq<BindingKey>, threads: seq<string>, settlements: seq<SettlementReceipt>)
    requires |threads| == |bs| == |settlements|
    requires forall i :: 0 <= i < |bs| ==>
      SettledFor(s, bs[i], settlements[i].command, "binding_hydrated", Abandon, threads[i])
    ensures AllPending(s, bs, settlements)
  {
  }

  // The residents without a candidate thread are as they were before the settling.
  lemma OthersPending(v: World, s: Owners, t: Owners, bs: seq<BindingKey>, receipts: map<BindingKey, OwnerReceipt>)
    requires SameLosses(v, s) && Quiet(s, t, Members(bs)) && Members(bs) == Candidates(v)
    requires Registered(s, receipts) && receipts.Keys == v.residents.Keys
    ensures forall b :: b in v.residents && b !in Candidates(v) ==>
      Pending(t, b) == Pending(v.owners, b) && t.Current(receipts[b]) && receipts[b].binding == b
  {
    hide LossBlocked, World.OwnerThread, Candidates;
    forall b | b in v.residents && b !in Candidates(v)
      ensures Pending(t, b) == Pending(v.owners, b) && t.Current(receipts[b]) && receipts[b].binding == b
    {
      QuietKeepsPending(s, t, Members(bs), b);
    }
  }

  lemma ReplaceIsSettled(v: World, s: Owners, losses: map<BindingKey, OwnerLoss>)
    requires losses.Keys == Candidates(v) && LossesPending(s, losses)
    requires forall b :: b in v.residents && b !in Candidates(v) ==> Pending(s, b) == Pending(v.owners, b) && Pending(v.owners, b).None?
    requires forall b :: ClaimsAttached(v.store, b) ==> v.store[b].threadId != ""
    ensures ReplaceSettled(v, s, losses)
  {
  }

  lemma ReplacedBy(v: World, t: World, u: World, w: World, factory: Factory, downs: seq<BindingKey>)
    requires Quiet(v.owners, t.owners, Touched(v)) && t.handles == v.handles
    requires Members(downs) == AttachedRecords(v.store, v.store.Keys) && forall b :: b in downs ==> b in v.store
    requires forall b :: b in downs ==> Get(w.store, b) == Kept(factory.Stored(HydratedState(factory, v.store[b])))
    requires forall b :: b !in downs ==> Get(w.store, b) == Get(v.store, b)
    requires OwnersRetired(t.owners, u.owners, v.residents.Keys) && u.residents == map[] && u.handles.current == map[]
    requires S.Evolves(t.handles, u.handles) && S.Evolves(u.handles, w.handles)
    requires ResidentsHydrated(u.residents, v.store, w.residents, factory, v.store.Keys)
    requires OwnersMoved(u.owners, w.owners, AttachedRecords(v.store, v.store.Keys))
    requires w.Valid() && w.subscriptions == {}
    ensures Replaced(v, w, factory)
  {
    hide World.Valid, OwnersMoved, OwnersRetired, OwnersReplaced, S.Evolves, ResidentsHydrated, HydratedState, Factory.Stored,
         Quiet, S.Residents.Registered, Touched;
    var all := AttachedRecords(v.store, v.store.Keys);
    RetiredThenMoved(t.owners, u.owners, w.owners, v.residents.Keys, all);
    TouchedCovered(v);
    QuietThenReplaced(v.owners, t.owners, w.owners, Touched(v), v.residents.Keys, all);
    NoneRegistered(v.handles, u.handles, w.handles);
    forall b ensures b in downs <==> ClaimsAttached(v.store, b) {
      assert b in Members(downs) <==> b in all;
    }
  }

  // ------------------------------------------------------- retiring and installing

  // After the residents are retired, only the other candidates' losses are pending.
  lemma RetiredPending(v: World, s: Owners, t: Owners, losses: map<BindingKey, OwnerLoss>)
    requires ReplaceSettled(v, s, losses) && OwnersRetired(s, t, v.residents.Keys)
    ensures forall b :: ClaimsAttached(v.store, b) ==> Pending(t, b) == LossOf(losses - v.residents.Keys, b)
  {
    forall b | ClaimsAttached(v.store, b) ensures Pending(t, b) == LossOf(losses - v.residents.Keys, b) {
      if b !in v.residents {
        RetiredKeepsOthers(s, t, v.residents.Keys, b);
      }
    }
  }

  lemma RetiredThenMoved(s: Owners, t: Owners, u: Owners, residents: set<BindingKey>, downs: set<BindingKey>)
    requires OwnersRetired(s, t, residents) && OwnersMoved(t, u, downs)
    ensures OwnersReplaced(s, u, residents, downs)
  {
    OwnerAuthority.EvolvesComposes(s, t, u);
    assert u.generations - downs == t.generations - downs == (s.generations - residents) - downs;
    assert s.generations - (residents + downs) == (s.generations - residents) - downs;
    forall r | r in s.minted && r.binding in residents + downs ensures !u.Current(r) {
      if r.binding in downs {
        assert Left(t, u, r.binding);
      } else {
        assert Gone(s, t, r.binding) && !t.Current(r);
      }
    }
    forall d, b | d in s.mintedDetaches && b in residents + downs && Covers(d, b) ensures !u.Active(d) {
      if b in downs {
        assert Left(t, u, b);
      } else {
        assert Gone(s, t, b);
      }
    }
  }

  lemma QuietThenReplaced(s: Owners, t: Owners, u: Owners, touched: set<BindingKey>, residents: set<BindingKey>,
                          downs: set<BindingKey>)
    requires Quiet(s, t, touched) && touched <= residents + downs && OwnersReplaced(t, u, residents, downs)
    ensures OwnersReplaced(s, u, residents, downs)
  {
    OwnerAuthority.EvolvesComposes(s, t, u);
    CalmKeepsOthers(s, t, touched);
    var all := residents + downs;
    assert t.generations - all == (t.generations - touched) - all;
    assert s.generations - all == (s.generations - touched) - all;
    assert forall r :: r in s.minted ==> r in t.minted;
    assert forall d :: d in s.mintedDetaches ==> d in t.mintedDetaches;
  }

  lemma TouchedCovered(v: World)
    ensures Touched(v) <= v.residents.Keys + AttachedRecords(v.store, v.store.Keys)
  {
  }

  lemma NoneRegistered(s: S.Residents, t: S.Residents, u: S.Residents)
    requires S.Evolves(s, t) && t.current == map[] && S.Evolves(t, u)
    ensures S.Evolves(s, u) && forall h :: h in s.minted ==> !u.Registered(h)
  {
    forall h | h in s.minted ensures !u.Registered(h) {
      assert !t.Registered(h);
    }
  }
}
