// The four stores that the binding manager keeps in step, as one value, and what
// a mutation of them means (bot/binding_runtime_manager.py): resident states,
// durable records, thread subscriptions and the two authorities.
module BindingWorld {
  import opened Wrappers
  import opened BindingSessions
  import opened BindingRecords
  import opened OwnerAuthority
  import S = SessionAuthority

  datatype Resident = Resident(token: S.ResidentState, facts: State)

  datatype ManagerError =
    | StaleRuntime
    | TurnInflight
    | EmptyWorkingDir
    | UnresolvedPages
    | OwnerLossPending
    | LossNotSettled
    | NotPersisted
    | NoSuchBinding
    | NotBound
    | NotAvailable
    | StalePreflight
    | BindingChanged

  function Put(store: map<BindingKey, Record>, b: BindingKey, record: Record): map<BindingKey, Record> {
    if record.IsEmpty() then store - {b} else store[b := record]
  }

  // What a settled or refused owner loss may do to the authority: receipts are
  // issued and losses reserved for these bindings, and nothing moves on.
  ghost predicate Quiet(s: Owners, t: Owners, bs: set<BindingKey>) {
    Calm(s, t, bs) && t.detaches == s.detaches
  }

  ghost predicate Calm(s: Owners, t: Owners, bs: set<BindingKey>) {
    && Evolves(s, t) && s.generations.Keys <= t.generations.Keys
    && (forall b :: b in t.generations && b !in bs ==> b in s.generations && t.generations[b] == s.generations[b])
    && (forall b :: b in s.generations ==>
          && Revision(t, b) == Revision(s, b)
          && (s.generations[b].reserved.Some? ==> t.generations[b].reserved == s.generations[b].reserved))
  }

  // Another loss of this binding is pending.
  predicate LossBlocked(s: Owners, b: BindingKey, threadId: string, reason: string, disposition: Disposition) {
    && b in s.generations && s.generations[b].reserved.Some?
    && !(s.Reuses(s.generations[b], threadId)
         && s.generations[b].reserved.value == OwnerLoss(s.generations[b].receipt.value, reason, disposition))
  }

  // The loss is reserved, and its owner is the current one.
  predicate Pinned(s: Owners, loss: OwnerLoss, threadId: string) {
    Reserved(s, loss) && s.Accepts(loss.owner, threadId)
  }

  // What makes the settlement of b's owner raise, for a thread that need not be the
  // owner's.
  predicate ThreadRefused(v: World, b: BindingKey, threadId: string, reason: string, disposition: Disposition,
                          settles: BindingKey -> bool)
  {
    || threadId != v.OwnerThread(b) || LossBlocked(v.owners, b, threadId, reason, disposition)
    || (threadId != "" && !settles(b))
  }

  // Subscribed are exactly the residents attached to a thread.
  ghost predicate SubscriptionsAgree(residents: map<BindingKey, Resident>, subscriptions: set<(BindingKey, string)>) {
    forall b, t :: (b, t) in subscriptions <==> b in residents && residents[b].facts.AttachedTo(t)
  }

  // Every resident object has a current handle, and nothing else has.
  ghost predicate HandlesMatch(residents: map<BindingKey, Resident>, handles: S.Residents) {
    && handles.current.Keys == residents.Keys
    && forall b :: b in residents ==> handles.current[b].resident == residents[b].token
  }

  lemma FactsKeepHandles(residents: map<BindingKey, Resident>, handles: S.Residents, b: BindingKey, facts: State)
    requires HandlesMatch(residents, handles) && b in residents
    ensures HandlesMatch(residents[b := residents[b].(facts := facts)], handles)
  {
  }

  datatype World = World(
    residents: map<BindingKey, Resident>,
    store: map<BindingKey, Record>,
    subscriptions: set<(BindingKey, string)>,
    owners: Owners,
    handles: S.Residents)
  {
    ghost predicate Valid() {
      && owners.Valid() && handles.Valid() && HandlesMatch(residents, handles)
      && SubscriptionsAgree(residents, subscriptions) && PreflightsPinned(owners)
    }

    // `binding_owner_thread_id_locked`: the resident state decides, then the store.
    function OwnerThread(b: BindingKey): string {
      if b in residents then residents[b].facts.threadId
      else if b in store then store[b].threadId
      else ""
    }

    predicate Authorizes(h: RuntimeHandle) {
      h.binding in residents && handles.Authorizes(h, h.binding, residents[h.binding].token)
    }

    // Nobody else is subscribed to this binding's thread.
    ghost predicate LastSubscriber(b: BindingKey, t: string) {
      (b, t) in subscriptions && forall c :: (c, t) in subscriptions ==> c == b
    }
  }

  // What a mutation leaves alone when it fails.
  ghost predicate Untouched(v: World, w: World, bs: set<BindingKey>) {
    w == v.(owners := w.owners) && Quiet(v.owners, w.owners, bs) && w.Valid()
  }

  lemma WidenQuiet(s: Owners, t: Owners, done: set<BindingKey>, bs: set<BindingKey>)
    requires Quiet(s, t, done) && done <= bs
    ensures Quiet(s, t, bs)
  {
  }

  lemma QuietComposes(s: Owners, t: Owners, u: Owners, bs: set<BindingKey>)
    requires Quiet(s, t, bs) && Quiet(t, u, bs)
    ensures Quiet(s, u, bs)
  {
  }

  lemma QuietSelf(s: Owners, bs: set<BindingKey>)
    ensures Quiet(s, s, bs)
  {
  }

  // Issuing a receipt and reserving a loss are quiet.
  lemma IssueQuiet(s: Owners, e: OwnerEvent, bs: set<BindingKey>)
    requires s.Valid() && Mints(s, e) && (e.IssueOwner? || e.ReserveOwnerLoss?)
    requires (if e.IssueOwner? then e.binding else e.command.owner.binding) in bs
    ensures Quiet(s, Step(s, e), bs) && Step(s, e).Valid()
  {
    hide Owners.Valid;
    StepEvolves(s, e);
    StepKeepsValid(s, e);
  }

  // The handles of bs were replaced by new ones, and no other handle was.
  ghost predicate Rotated(s: S.Residents, t: S.Residents, bs: set<BindingKey>) {
    && S.Evolves(s, t) && t.current.Keys == s.current.Keys
    && (forall b :: b in bs && b in s.current ==> Renewed(s.current[b], t.current[b]))
    && forall c :: c in s.current && c !in bs ==> t.current[c] == s.current[c]
  }

  predicate Renewed(was: S.Incarnation, now: S.Incarnation) {
    now.handle != was.handle && now.resident == was.resident
  }

  lemma RotatedOneMore(s: S.Residents, t: S.Residents, u: S.Residents, bs: set<BindingKey>, b: BindingKey)
    requires Rotated(s, t, bs) && Rotated(t, u, {b}) && b !in bs
    ensures Rotated(s, u, bs + {b})
  {
  }

  // The loss pending for b, if any.
  function Pending(s: Owners, b: BindingKey): Option<OwnerLoss> {
    if b in s.generations then s.generations[b].reserved else None
  }

  // A receipt for the current thread changes neither what is pending for its
  // binding nor what may be reserved next.
  lemma IssueKeepsPending(s: Owners, b: BindingKey, threadId: string, receipt: OwnerReceipt,
                          reason: string, disposition: Disposition)
    requires s.Valid() && Mints(s, OwnerEvent.IssueOwner(b, threadId, threadId, receipt))
    ensures var t := Step(s, OwnerEvent.IssueOwner(b, threadId, threadId, receipt));
      && Pending(t, b) == Pending(s, b)
      && LossBlocked(t, b, threadId, reason, disposition) == LossBlocked(s, b, threadId, reason, disposition)
  {
  }

  // The current owner's loss may be reserved exactly when no other one is pending.
  lemma ReserveIfNotBlocked(s: Owners, loss: OwnerLoss, threadId: string)
    requires s.Valid() && s.Accepts(loss.owner, threadId)
    ensures var t := Step(s, OwnerEvent.ReserveOwnerLoss(loss));
      && Quiet(s, t, {loss.owner.binding}) && t.Valid()
      && (s.MayReserve(loss) <==> !LossBlocked(s, loss.owner.binding, threadId, loss.reason, loss.disposition))
      && (s.MayReserve(loss) ==> Pinned(t, loss, threadId))
  {
    IssueQuiet(s, OwnerEvent.ReserveOwnerLoss(loss), {loss.owner.binding});
  }

  // b's owner moved on by one revision: no reservation, receipt or preflight of
  // before survives it.
  ghost predicate Left(s: Owners, t: Owners, b: BindingKey) {
    && b in t.generations && t.generations[b].receipt.None? && t.generations[b].reserved.None?
    && (b in s.generations ==>
          t.generations[b].incarnation == s.generations[b].incarnation && t.generations[b].revision == s.generations[b].revision + 1)
    && (forall r :: r in s.minted && r.binding == b ==> !t.Current(r))
    && (forall d :: d in s.mintedDetaches && Covers(d, b) ==> !t.Active(d))
  }

  // These owners moved on, and no other.
  ghost predicate OwnersMoved(s: Owners, t: Owners, bs: set<BindingKey>) {
    && Evolves(s, t) && (forall b :: b in bs ==> Left(s, t, b))
    && t.generations - bs == s.generations - bs
  }

  lemma AdvancedIsLeft(s: Owners, b: BindingKey, settled: Option<OwnerLoss>)
    requires s.Valid() && Pending(s, b) == settled
    ensures var t := Step(s, OwnerEvent.AdvanceOwner(b, settled));
      Left(s, t, b) && Evolves(s, t) && t.generations - {b} == s.generations - {b}
  {
    StepEvolves(s, OwnerEvent.AdvanceOwner(b, settled));
  }

  lemma MovedOneMore(s: Owners, t: Owners, u: Owners, bs: set<BindingKey>, b: BindingKey)
    requires OwnersMoved(s, t, bs) && b !in bs
    requires Left(t, u, b) && Evolves(t, u) && u.generations - {b} == t.generations - {b}
    ensures OwnersMoved(s, u, bs + {b})
  {
    forall c | c in bs ensures Left(s, u, c) {
      assert c in t.generations - {b} && c in u.generations - {b};
      assert u.generations[c] == (u.generations - {b})[c] == (t.generations - {b})[c];
    }
    if b in s.generations {
      assert s.generations[b] == (s.generations - bs)[b] == (t.generations - bs)[b];
    }
    assert Left(s, u, b);
    assert u.generations - (bs + {b}) == (u.generations - {b}) - bs;
    assert s.generations - (bs + {b}) == (s.generations - bs) - {b};
    assert (t.generations - {b}) - bs == (t.generations - bs) - {b};
  }

  lemma CalmThenMoved(s: Owners, t: Owners, u: Owners, bs: set<BindingKey>)
    requires Calm(s, t, bs) && OwnersMoved(t, u, bs)
    ensures OwnersMoved(s, u, bs)
  {
    forall b | b in bs ensures Left(s, u, b) {
      if b in s.generations {
        assert Revision(t, b) == Revision(s, b);
      }
    }
    CalmKeepsOthers(s, t, bs);
  }

  lemma CalmKeepsOthers(s: Owners, t: Owners, bs: set<BindingKey>)
    requires Calm(s, t, bs)
    ensures t.generations - bs == s.generations - bs
  {
  }

  // An owner that has not moved yet is as it was.
  lemma MovedKeepsOthers(s: Owners, t: Owners, bs: set<BindingKey>, b: BindingKey)
    requires OwnersMoved(s, t, bs) && b !in bs
    ensures b in t.generations <==> b in s.generations
    ensures b in s.generations ==> t.generations[b] == s.generations[b]
  {
    assert b in t.generations - bs <==> b in s.generations - bs;
    if b in s.generations {
      assert (t.generations - bs)[b] == (s.generations - bs)[b];
    }
  }

  lemma NoneMoved(s: Owners)
    ensures OwnersMoved(s, s, {})
  {
  }

  lemma QuietThenAdvanced(s: Owners, t: Owners, b: BindingKey, settled: Option<OwnerLoss>)
    requires t.Valid() && Quiet(s, t, {b}) && b in t.generations && Pending(t, b) == settled
    ensures OwnersMoved(s, Step(t, OwnerEvent.AdvanceOwner(b, settled)), {b})
  {
    hide Owners.Valid, Calm, Evolves, Left, Step;
    AdvancedIsLeft(t, b, settled);
    CalmThenMoved(s, t, Step(t, OwnerEvent.AdvanceOwner(b, settled)), {b});
  }

  // What every good preflight covers is still reserved by its settlements.
  ghost predicate PreflightsPinned(s: Owners) {
    forall n :: n in s.detaches ==> PreflightPinned(s, s.detaches[n])
  }

  ghost predicate PreflightPinned(s: Owners, d: DetachReceipt) {
    && |d.settlements| == |d.owners|
    && forall i :: 0 <= i < |d.owners| ==> Pending(s, d.owners[i].binding) == Some(d.settlements[i].command)
  }

  lemma QuietKeepsPreflights(s: Owners, t: Owners, bs: set<BindingKey>)
    requires PreflightsPinned(s) && Quiet(s, t, bs)
    ensures PreflightsPinned(t)
  {
    forall n | n in t.detaches ensures PreflightPinned(t, t.detaches[n]) {
      var d := t.detaches[n];
      assert PreflightPinned(s, d);
      forall i | 0 <= i < |d.owners| ensures Pending(t, d.owners[i].binding) == Some(d.settlements[i].command) {
        assert d.owners[i].binding in s.generations;
      }
    }
  }

  lemma AdvanceKeepsPreflights(s: Owners, b: BindingKey, settled: Option<OwnerLoss>)
    requires PreflightsPinned(s) && Pending(s, b) == settled
    ensures PreflightsPinned(Step(s, OwnerEvent.AdvanceOwner(b, settled)))
  {
    var t := Step(s, OwnerEvent.AdvanceOwner(b, settled));
    forall n | n in t.detaches ensures PreflightPinned(t, t.detaches[n]) {
      var d := t.detaches[n];
      assert n in s.detaches && d == s.detaches[n] && !Covers(d, b);
      assert PreflightPinned(s, d);
      forall i | 0 <= i < |d.owners| ensures d.owners[i].binding != b {
        assert d.owners[i] in d.owners;
      }
    }
  }

  // One binding was changed: resident state, record, owner and handle.
  ghost predicate Moved(v: World, w: World, factory: Factory, b: BindingKey, facts: State) {
    && b in v.residents && w.Valid()
    && w.residents == v.residents[b := v.residents[b].(facts := facts)]
    && w.store == Put(v.store, b, factory.Stored(facts))
    && OwnersMoved(v.owners, w.owners, {b}) && Rotated(v.handles, w.handles, {b})
  }

  // The id names the thread exactly if its last subscriber has just left it.
  ghost predicate LetGo(v: World, w: World, b: BindingKey, threadId: string, id: string) {
    id == if (b, threadId) in v.subscriptions && forall c :: (c, threadId) !in w.subscriptions then threadId else ""
  }

  // One resident's subscriptions are replaced along with its state.
  ghost predicate Resubscribed(before: set<(BindingKey, string)>, after: set<(BindingKey, string)>, b: BindingKey, facts: State) {
    && (forall c, t :: c != b ==> ((c, t) in after <==> (c, t) in before))
    && (forall t :: (b, t) in after <==> facts.AttachedTo(t))
  }

  lemma ResubscribedAgrees(v: World, b: BindingKey, facts: State, after: set<(BindingKey, string)>)
    requires SubscriptionsAgree(v.residents, v.subscriptions) && b in v.residents && Resubscribed(v.subscriptions, after, b, facts)
    ensures SubscriptionsAgree(v.residents[b := v.residents[b].(facts := facts)], after)
  {
  }

  function Pair(b: BindingKey, threadId: string): set<(BindingKey, string)> {
    if threadId == "" then {} else {(b, threadId)}
  }

  // Leaving one thread and entering another, or staying.
  lemma RebindResubscribes(v: World, b: BindingKey, facts: State, after: set<(BindingKey, string)>)
    requires SubscriptionsAgree(v.residents, v.subscriptions) && b in v.residents && facts.attachment.Attached?
    requires var left, t := v.residents[b].facts.threadId, facts.threadId;
      after == (if left != t then v.subscriptions - Pair(b, left) else v.subscriptions) + Pair(b, t)
    ensures Resubscribed(v.subscriptions, after, b, facts)
  {
  }

  lemma RebindAgrees(v: World, w: World, b: BindingKey, facts: State, id: string)
    requires SubscriptionsAgree(v.residents, v.subscriptions) && b in v.residents && facts.attachment.Attached?
    requires w.residents == v.residents[b := v.residents[b].(facts := facts)]
    requires var left, t := v.residents[b].facts.threadId, facts.threadId;
      && w.subscriptions == (if left != t then v.subscriptions - Pair(b, left) else v.subscriptions) + Pair(b, t)
      && id == if left != t && left != "" && v.LastSubscriber(b, left) then left else ""
    ensures SubscriptionsAgree(w.residents, w.subscriptions) && LetGo(v, w, b, v.residents[b].facts.threadId, id)
  {
    hide SubscriptionsAgree, Resubscribed, World.LastSubscriber, LetGo;
    RebindResubscribes(v, b, facts, w.subscriptions);
    ResubscribedAgrees(v, b, facts, w.subscriptions);
    if v.residents[b].facts.threadId != facts.threadId {
      LetGoIffLast(v, w, b, facts, v.residents[b].facts.threadId);
    } else {
      StayedIsNotLetGo(v, w, b, facts);
    }
  }

  // Leaving a thread for none.
  lemma UnbindResubscribes(v: World, b: BindingKey, facts: State, after: set<(BindingKey, string)>)
    requires SubscriptionsAgree(v.residents, v.subscriptions) && b in v.residents && !facts.attachment.Attached?
    requires after == v.subscriptions - Pair(b, v.residents[b].facts.threadId)
    ensures Resubscribed(v.subscriptions, after, b, facts)
  {
  }

  // The id is asked for before the change and answers for the state after it.
  lemma LetGoIffLast(v: World, w: World, b: BindingKey, facts: State, threadId: string)
    requires SubscriptionsAgree(v.residents, v.subscriptions) && b in v.residents
    requires Resubscribed(v.subscriptions, w.subscriptions, b, facts) && !facts.AttachedTo(threadId)
    ensures LetGo(v, w, b, threadId, if threadId != "" && v.LastSubscriber(b, threadId) then threadId else "")
  {
  }

  lemma StayedIsNotLetGo(v: World, w: World, b: BindingKey, facts: State)
    requires Resubscribed(v.subscriptions, w.subscriptions, b, facts) && facts.attachment.Attached?
    ensures LetGo(v, w, b, facts.threadId, "")
  {
    if facts.threadId != "" {
      assert facts.AttachedTo(facts.threadId);
    }
  }

  function BoundState(s: State, threadId: string, title: string, dir: string): State {
    var moved := if s.threadId != threadId then s.ThreadReplaced() else s;
    moved.WithThread(if dir != "" then dir else s.workingDir, threadId, title, Attached).AfterBind()
  }

  // The order in which a bind executes what it staged.
  function Executed(s: State, threadId: string, title: string, dir: string): State {
    var bound := s.WithThread(if dir != "" then dir else s.workingDir, threadId, title, Attached);
    (if s.threadId != threadId then bound.ThreadReplaced() else bound).AfterBind()
  }

  // The staged record is that of the executed state.
  lemma StagedAsExecuted(s: State, threadId: string, title: string, dir: string)
    ensures Executed(s, threadId, title, dir) == BoundState(s, threadId, title, dir)
    ensures Executed(s, threadId, title, dir).threadId == threadId && Executed(s, threadId, title, dir).attachment.Attached?
  {
  }

  // ------------------------------------------- resident states, field by field

  // Nothing of a turn is left: no pages, no turn, no timers.
  ghost predicate TurnForgotten(turn: Turn) {
    && turn.pages == [] && turn.turnId == "" && !turn.running && !turn.awaitingTurnStarted
    && turn.patchTimer.None? && turn.watchdog.None?
  }

  // Bound to another thread, the turn and goal of the old one are forgotten; bound to
  // the same one again, they stay.
  ghost predicate BoundTo(was: State, now: State, threadId: string, title: string, dir: string) {
    && now.threadId == threadId && now.title == title && now.attachment == Attached
    && now.workingDir == (if dir == "" then was.workingDir else dir)
    && now.settings == was.settings && now.plan == ""
    && (was.threadId != threadId ==> TurnForgotten(now.turn) && now.goal == "")
    && (was.threadId == threadId ==> now.turn == was.turn && now.goal == was.goal)
  }

  ghost predicate ClearedFrom(was: State, now: State, dirAfter: Option<string>) {
    && now.threadId == "" && now.title == "" && now.attachment == NoRuntime
    && now.workingDir == (if dirAfter.None? then was.workingDir else dirAfter.value)
    && now.settings == was.settings && now.plan == "" && now.goal == "" && TurnForgotten(now.turn)
  }

  // A detached binding keeps its thread and turn, and loses its timers.
  ghost predicate DetachedFrom(was: State, now: State) {
    && now.attachment == Detached && now.threadId == was.threadId && now.title == was.title
    && now.workingDir == was.workingDir && now.settings == was.settings && now.goal == was.goal && now.plan == was.plan
    && now.turn.pages == was.turn.pages && now.turn.turnId == was.turn.turnId
    && now.turn.running == was.turn.running && now.turn.awaitingTurnStarted == was.turn.awaitingTurnStarted
    && now.turn.patchTimer.None? && now.turn.watchdog.None?
  }

  // The record of a state: the default directory and an unset profile are not its own,
  // without a thread it has no attachment, and one with nothing to say is not kept.
  ghost predicate RecordOf(factory: Factory, s: State, record: Option<Record>) {
    var dir := if s.workingDir == factory.workingDir then "" else s.workingDir;
    if dir == "" && s.threadId == "" && s.title == "" && s.settings.configured == [] then record.None?
    else
      && record.Some?
      && record.value.workingDir == dir && record.value.threadId == s.threadId && record.value.title == s.title
      && record.value.attachment == (if s.threadId == "" then NoRuntime else s.attachment)
      && record.value.settings.approvalPolicy == s.settings.approvalPolicy
      && record.value.settings.permissionsProfile ==
           (if s.settings.permissionsProfile == "" then factory.permissionsProfile else s.settings.permissionsProfile)
      && record.value.settings.model == s.settings.model
      && record.value.settings.reasoningEffort == s.settings.reasoningEffort
      && record.value.settings.configured == s.settings.configured
  }

  // A state made from a record: its fields, with defaults where it says nothing, never
  // attached, and with no turn, goal or plan.
  ghost predicate LoadedFrom(factory: Factory, record: Record, now: State) {
    && now.workingDir == (if record.workingDir == "" then factory.workingDir else record.workingDir)
    && now.threadId == record.threadId && now.title == record.title
    && now.attachment == (if record.attachment == NoRuntime then NoRuntime else Detached)
    && now.settings.approvalPolicy ==
         (if record.settings.approvalPolicy == "" then factory.approvalPolicy else record.settings.approvalPolicy)
    && now.settings.permissionsProfile ==
         (if record.settings.permissionsProfile == "" then factory.permissionsProfile else record.settings.permissionsProfile)
    && now.settings.model == record.settings.model && now.settings.reasoningEffort == record.settings.reasoningEffort
    && now.settings.configured == record.settings.configured
    && now.goal == "" && now.plan == "" && TurnForgotten(now.turn)
  }

  ghost predicate DefaultOf(factory: Factory, now: State) {
    && now.workingDir == factory.workingDir && now.threadId == "" && now.title == "" && now.attachment == NoRuntime
    && now.settings.approvalPolicy == factory.approvalPolicy && now.settings.permissionsProfile == factory.permissionsProfile
    && now.settings.model == factory.model && now.settings.reasoningEffort == factory.effort && now.settings.configured == []
    && now.goal == "" && now.plan == "" && TurnForgotten(now.turn)
  }

  lemma StatesOnFields(s: State, threadId: string, title: string, dir: string, dirAfter: Option<string>)
    ensures BoundTo(s, BoundState(s, threadId, title, dir), threadId, title, dir)
    ensures ClearedFrom(s, ClearedState(s, dirAfter), dirAfter)
    ensures DetachedFrom(s, DetachedState(s))
  {
  }

  lemma RecordsOnFields(factory: Factory, s: State, record: Record)
    ensures RecordOf(factory, s, Kept(factory.Stored(s)))
    ensures LoadedFrom(factory, record, HydratedState(factory, record))
    ensures DefaultOf(factory, factory.DefaultState())
  {
  }

  lemma PutKeeps(store: map<BindingKey, Record>, b: BindingKey, record: Record)
    ensures Get(Put(store, b, record), b) == Kept(record)
    ensures forall c :: c != b ==> Get(Put(store, b, record), c) == Get(store, c)
  {
  }

  // The last page's send is open.
  predicate SendOpen(s: State) {
    var n := |s.turn.pages|;
    n > 0 && (s.turn.pages[n - 1].status.Opening? || s.turn.pages[n - 1].status.SendUnknown?)
  }

  lemma ReplaceableUnlessOpen(s: State)
    ensures s.Replaceable() <==> !SendOpen(s)
  {
  }

  // What makes a bind of this resident raise, the record's write apart.
  predicate BindRefused(v: World, b: BindingKey, threadId: string, disposition: Disposition, settles: bool)
    requires b in v.residents
  {
    var s := v.residents[b].facts;
    if s.threadId == threadId then b in v.owners.generations && v.owners.generations[b].reserved.Some?
    else
      || SendOpen(s)
      || LossBlocked(v.owners, b, s.threadId, "binding_replaced", disposition)
      || (s.threadId != "" && !settles)
  }

  function ClearedState(s: State, dirAfter: Option<string>): State {
    s.ThreadCleared().WithThread(if dirAfter.Some? then dirAfter.value else s.workingDir, "", "", NoRuntime)
  }

  function DetachedState(s: State): State {
    s.TimersDetached().(attachment := Detached)
  }

  lemma DetachExecuted(s: State)
    ensures s.(attachment := Detached).TimersDetached() == DetachedState(s) && !DetachedState(s).attachment.Attached?
  {
  }

  // What makes a clear of this resident raise, the record's write apart.
  predicate ClearRefused(v: World, b: BindingKey, dirAfter: Option<string>, requireIdle: bool, disposition: Disposition,
                         settles: bool)
    requires b in v.residents
  {
    var s := v.residents[b].facts;
    || (requireIdle && (s.turn.running || s.turn.awaitingTurnStarted || s.turn.turnId != ""))
    || dirAfter == Some("")
    || SendOpen(s)
    || LossBlocked(v.owners, b, s.threadId, "binding_cleared", disposition)
    || (s.threadId != "" && !settles)
  }

  // A detach takes effect on an attached binding only.
  predicate Detachable(v: World, b: BindingKey) {
    b in v.residents && v.residents[b].facts.threadId != "" && v.residents[b].facts.attachment.Attached?
  }

  // ---------------------------------------------------------------- batches

  function Members(bs: seq<BindingKey>): set<BindingKey> {
    set b | b in bs
  }

  ghost predicate Distinct(bs: seq<BindingKey>) {
    forall i, j :: 0 <= i < j < |bs| ==> bs[i] != bs[j]
  }

  function AttachedBindings(residents: map<BindingKey, Resident>, threadId: string): set<BindingKey> {
    set b | b in residents && residents[b].facts.AttachedTo(threadId)
  }

  function BoundBindings(residents: map<BindingKey, Resident>, threadId: string): set<BindingKey> {
    set b | b in residents && threadId != "" && residents[b].facts.threadId == threadId
  }

  // A loss of this kind is reserved for the current owner of b.
  ghost predicate SettledFor(s: Owners, b: BindingKey, loss: OwnerLoss, reason: string, disposition: Disposition, threadId: string) {
    && loss.owner.binding == b && loss.reason == reason && loss.disposition == disposition
    && Pinned(s, loss, threadId)
  }

  lemma QuietWidens(s: Owners, t: Owners, u: Owners, done: set<BindingKey>, b: BindingKey)
    requires Quiet(s, t, done) && Quiet(t, u, {b})
    ensures Quiet(s, u, done + {b})
  {
  }

  // Settling one more owner leaves the ones settled before as they are.
  lemma SettledStays(s: Owners, t: Owners, b: BindingKey, c: BindingKey, loss: OwnerLoss,
                     reason: string, disposition: Disposition, threadId: string)
    requires Quiet(s, t, {b}) && c != b
    ensures SettledFor(s, c, loss, reason, disposition, threadId) ==> SettledFor(t, c, loss, reason, disposition, threadId)
  {
    if c in s.generations {
      assert c in t.generations;
      assert t.generations[c] == s.generations[c];
    }
  }

  lemma BlockedStays(s: Owners, t: Owners, done: set<BindingKey>, c: BindingKey, threadId: string, reason: string, disposition: Disposition)
    requires Quiet(s, t, done) && c !in done
    ensures LossBlocked(t, c, threadId, reason, disposition) == LossBlocked(s, c, threadId, reason, disposition)
  {
    if c in s.generations {
      assert c in t.generations;
    }
  }

  // The record a binding has, as the store keeps it: an empty one is dropped.
  function Kept(record: Record): Option<Record> {
    if record.IsEmpty() then None else Some(record)
  }

  function Get(store: map<BindingKey, Record>, b: BindingKey): Option<Record> {
    if b in store then Some(store[b]) else None
  }

  // The store after a batch of writes of which number `failed` raised, if any did.
  // The writes before it are rolled back, last one first, and so is the one that
  // raised; a rollback that raises leaves its binding as it is.
  ghost predicate Written(s: map<BindingKey, Record>, t: map<BindingKey, Record>, bs: seq<BindingKey>, records: seq<Record>,
                          originals: seq<Record>, writes: nat -> bool, failed: nat)
    requires |bs| == |records| == |originals| && failed <= |bs|
  {
    && (forall b :: b !in bs ==> Get(t, b) == Get(s, b))
    && if failed == |bs| then
         forall i :: 0 <= i < |bs| ==> Get(t, bs[i]) == Kept(records[i])
       else
         forall i :: 0 <= i < |bs| ==> Get(t, bs[i]) == AfterRollback(i, failed, Get(s, bs[i]), records[i], originals[i], writes)
  }

  function AfterRollback(i: nat, failed: nat, was: Option<Record>, record: Record, original: Record, writes: nat -> bool): Option<Record> {
    if i <= failed && writes(RollbackIndex(failed, i)) then Kept(original)
    else if i < failed then Kept(record)
    else was
  }

  // Write 0 to `failed` are the batch; the rollback of binding i comes after them,
  // last binding first.
  function RollbackIndex(failed: nat, i: nat): nat
    requires i <= failed
  {
    failed + 1 + (failed - i)
  }

  // The originals are what the store holds.
  predicate Canonical(s: map<BindingKey, Record>, bs: seq<BindingKey>, originals: seq<Record>)
    requires |bs| == |originals|
  {
    forall i :: 0 <= i < |bs| ==> Get(s, bs[i]) == Kept(originals[i])
  }

  lemma SameStore(s: map<BindingKey, Record>, t: map<BindingKey, Record>)
    requires forall b :: Get(t, b) == Get(s, b)
    ensures s == t
  {
    forall b ensures b in s <==> b in t {
      assert Get(t, b) == Get(s, b);
    }
    forall b | b in s ensures s[b] == t[b] {
      assert Get(t, b) == Get(s, b);
    }
  }

  // A failed batch leaves a canonical store as it was, exactly if the rollback of
  // every write that had changed something succeeded.
  lemma RollbackRestoresIff(s: map<BindingKey, Record>, t: map<BindingKey, Record>, bs: seq<BindingKey>, records: seq<Record>,
                            originals: seq<Record>, writes: nat -> bool, failed: nat)
    requires |bs| == |records| == |originals| && failed < |bs| && Distinct(bs)
    requires Written(s, t, bs, records, originals, writes, failed) && Canonical(s, bs, originals)
    ensures t == s <==>
      forall i :: 0 <= i < failed && Kept(records[i]) != Kept(originals[i]) ==> writes(RollbackIndex(failed, i))
  {
    if t == s {
      forall i | 0 <= i < failed && Kept(records[i]) != Kept(originals[i]) ensures writes(RollbackIndex(failed, i)) {
        assert Get(t, bs[i]) == Get(s, bs[i]) == Kept(originals[i]);
      }
    }
    if forall i :: 0 <= i < failed && Kept(records[i]) != Kept(originals[i]) ==> writes(RollbackIndex(failed, i)) {
      forall b ensures Get(t, b) == Get(s, b) {
        if b in bs {
          var i :| 0 <= i < |bs| && bs[i] == b;
          assert Get(s, bs[i]) == Kept(originals[i]);
        }
      }
      SameStore(s, t);
    }
  }

  // -------------------------------------------------------- two-phase detach

  // The listing names every binding of a set once, in some fixed order.
  ghost predicate Orders(listing: set<BindingKey> -> seq<BindingKey>) {
    forall s: set<BindingKey> :: Distinct(listing(s)) && Members(listing(s)) == s
  }

  lemma Listed(listing: set<BindingKey> -> seq<BindingKey>, s: set<BindingKey>)
    requires Orders(listing)
    ensures Distinct(listing(s)) && Members(listing(s)) == s && forall b :: b in listing(s) ==> b in s
  {
    forall b | b in listing(s) ensures b in s {
      assert b in Members(listing(s));
    }
  }

  lemma NothingAgrees(handles: S.Residents)
    requires handles.current == map[]
    ensures HandlesMatch(map[], handles) && SubscriptionsAgree(map[], {})
  {
  }

  ghost predicate SameRevisions(s: Owners, t: Owners) {
    forall b :: b in s.generations ==> Revision(t, b) == Revision(s, b)
  }

  // The detach receipt is good for exactly these bindings, whose owners are all
  // current and reserved for it.
  ghost predicate Preflighted(s: Owners, d: DetachReceipt, threadId: string, bs: seq<BindingKey>, disposition: Disposition) {
    && s.Redeems(d, threadId, bs, disposition)
    && (forall i :: 0 <= i < |d.owners| ==> s.Accepts(d.owners[i], threadId))
    && PreflightPinned(s, d)
  }

  function OwnersOf(settlements: seq<SettlementReceipt>): (os: seq<OwnerReceipt>)
    ensures |os| == |settlements|
    ensures forall i :: 0 <= i < |os| ==> os[i] == settlements[i].command.owner
  {
    seq(|settlements|, i requires 0 <= i < |settlements| => settlements[i].command.owner)
  }

  ghost predicate AllSettled(s: Owners, bs: seq<BindingKey>, settlements: seq<SettlementReceipt>, reason: string,
                             disposition: Disposition, threadId: string)
  {
    && |settlements| == |bs|
    && forall i :: 0 <= i < |bs| ==> SettledFor(s, bs[i], settlements[i].command, reason, disposition, threadId)
  }

  lemma IssuedIsPreflighted(s: Owners, threadId: string, bs: seq<BindingKey>, settlements: seq<SettlementReceipt>,
                            disposition: Disposition, d: DetachReceipt)
    requires s.Valid() && PreflightsPinned(s) && threadId != "" && bs != []
    requires AllSettled(s, bs, settlements, "binding_detached", disposition, threadId)
    requires Mints(s, OwnerEvent.IssueDetach(threadId, OwnersOf(settlements), settlements, d))
    ensures var t := Step(s, OwnerEvent.IssueDetach(threadId, OwnersOf(settlements), settlements, d));
      t.Valid() && PreflightsPinned(t) && Preflighted(t, d, threadId, bs, disposition)
      && Evolves(s, t) && t.generations == s.generations
  {
    hide Owners.Valid, Evolves, SettledFor, Covers;
    var e := OwnerEvent.IssueDetach(threadId, OwnersOf(settlements), settlements, d);
    var t := Step(s, e);
    StepKeepsValid(s, e);
    StepEvolves(s, e);
    DiscardAllKeeps(s.detaches, OwnersOf(settlements));
    SettledArePinned(s, bs, settlements, "binding_detached", disposition, threadId);
    assert BindingsOf(d.owners) == bs;
    assert PreflightPinned(t, d);
    forall n | n in t.detaches ensures PreflightPinned(t, t.detaches[n]) {
      assert t.detaches[n] == d || PreflightPinned(s, s.detaches[n]);
    }
  }

  lemma SettledArePinned(s: Owners, bs: seq<BindingKey>, settlements: seq<SettlementReceipt>, reason: string,
                         disposition: Disposition, threadId: string)
    requires AllSettled(s, bs, settlements, reason, disposition, threadId)
    ensures forall i :: 0 <= i < |bs| ==>
      && Pending(s, bs[i]) == Some(settlements[i].command)
      && settlements[i].command == OwnerLoss(settlements[i].command.owner, reason, disposition)
      && settlements[i].command.owner.binding == bs[i]
      && s.Accepts(settlements[i].command.owner, threadId)
  {
    forall i | 0 <= i < |bs| ensures Pending(s, bs[i]) == Some(settlements[i].command) {
      assert SettledFor(s, bs[i], settlements[i].command, reason, disposition, threadId);
    }
  }

  lemma StepKeepsPreflight(s: Owners, e: OwnerEvent, d: DetachReceipt)
    requires s.Valid() && Mints(s, e) && d in s.mintedDetaches && PreflightPinned(s, d)
    requires Step(s, e).Active(d)
    ensures s.Active(d) && PreflightPinned(Step(s, e), d)
  {
    StepEvolves(s, e);
    forall i | 0 <= i < |d.owners|
      ensures Pending(Step(s, e), d.owners[i].binding) == Some(d.settlements[i].command)
    {
      assert d.owners[i] in d.owners;
      PendingKept(s, e, d, d.owners[i].binding);
    }
  }

  lemma PendingKept(s: Owners, e: OwnerEvent, d: DetachReceipt, b: BindingKey)
    requires s.Valid() && s.Active(d) && Covers(d, b) && Pending(s, b).Some? && Step(s, e).Active(d)
    ensures Pending(Step(s, e), b) == Pending(s, b)
  {
  }

  // Between preflight and commit anything may happen.  If the receipt is still
  // good then, it is good for the same thread and bindings only, and every owner
  // it covers is at the same revision, with the same loss still reserved.
  lemma {:induction false} PreflightHolds(s: Owners, es: seq<OwnerEvent>, d: DetachReceipt, threadId: string,
                                          bs: seq<BindingKey>, disposition: Disposition,
                                          otherThread: string, others: seq<BindingKey>, otherDisposition: Disposition)
    requires s.Valid() && MintsAll(s, es) && d in s.mintedDetaches && Preflighted(s, d, threadId, bs, disposition)
    requires Run(s, es).Redeems(d, otherThread, others, otherDisposition)
    ensures otherThread == threadId && others == bs && otherDisposition == disposition
    ensures PreflightPinned(Run(s, es), d)
    ensures forall i :: 0 <= i < |bs| ==> Revision(Run(s, es), bs[i]) == Revision(s, bs[i])
  {
    RunKeepsPreflight(s, es, d);
    assert d.owners != [];
    assert SettlesDetach(d.settlements[0], d.owners[0], disposition);
    forall i | 0 <= i < |bs| ensures Revision(Run(s, es), bs[i]) == Revision(s, bs[i]) {
      assert d.owners[i] in d.owners && d.owners[i].binding == bs[i];
      assert s.Accepts(d.owners[i], threadId);
      DetachPinsOwners(s, es, d, bs[i]);
    }
  }

  lemma {:induction false} RunKeepsPreflight(s: Owners, es: seq<OwnerEvent>, d: DetachReceipt)
    requires s.Valid() && MintsAll(s, es) && d in s.mintedDetaches && PreflightPinned(s, d)
    requires Run(s, es).Active(d)
    ensures PreflightPinned(Run(s, es), d)
    decreases |es|
  {
    if es != [] {
      var t := Step(s, es[0]);
      StepKeepsValid(s, es[0]);
      StepEvolves(s, es[0]);
      EveryRunEvolves(t, es[1..]);
      assert t.Active(d);
      StepKeepsPreflight(s, es[0], d);
      RunKeepsPreflight(t, es[1..], d);
    }
  }

  lemma RevisionsCompose(s: Owners, t: Owners, u: Owners)
    requires Evolves(s, t) && SameRevisions(s, t) && Evolves(t, u) && SameRevisions(t, u)
    ensures Evolves(s, u) && SameRevisions(s, u)
    ensures s.mintedDetaches <= t.mintedDetaches
  {
    OwnerAuthority.EvolvesComposes(s, t, u);
    forall b | b in s.generations ensures Revision(u, b) == Revision(s, b) {
      assert Revision(t, b) == Revision(s, b);
    }
  }

  lemma CalmRevisions(s: Owners, t: Owners, bs: set<BindingKey>)
    requires Calm(s, t, bs)
    ensures SameRevisions(s, t) && Evolves(s, t)
  {
  }

  ghost predicate AllPending(s: Owners, bs: seq<BindingKey>, settlements: seq<SettlementReceipt>) {
    && |settlements| == |bs|
    && forall i :: 0 <= i < |bs| ==> bs[i] in s.generations && Pending(s, bs[i]) == Some(settlements[i].command)
  }

  predicate SameOwners(s: Owners, t: Owners) {
    t.issuer == s.issuer && t.generations == s.generations
  }

  predicate AcceptsAll(s: Owners, receipts: seq<OwnerReceipt>, threadId: string) {
    forall i :: 0 <= i < |receipts| ==> s.Accepts(receipts[i], threadId)
  }

  lemma SameOwnersAcceptAll(s: Owners, t: Owners, receipts: seq<OwnerReceipt>, threadId: string)
    requires SameOwners(s, t)
    ensures AcceptsAll(s, receipts, threadId) == AcceptsAll(t, receipts, threadId)
  {
    assert forall r: OwnerReceipt {:trigger s.Accepts(r, threadId)} :: r in receipts ==> s.Accepts(r, threadId) == t.Accepts(r, threadId);
    if AcceptsAll(s, receipts, threadId) {
      forall i | 0 <= i < |receipts| ensures t.Accepts(receipts[i], threadId) {
        assert s.Accepts(receipts[i], threadId);
      }
    }
    if AcceptsAll(t, receipts, threadId) {
      forall i | 0 <= i < |receipts| ensures s.Accepts(receipts[i], threadId) {
        assert t.Accepts(receipts[i], threadId);
      }
    }
  }

  lemma SameOwnersPending(s: Owners, t: Owners, bs: seq<BindingKey>, settlements: seq<SettlementReceipt>)
    requires SameOwners(s, t) && AllPending(s, bs, settlements)
    ensures AllPending(t, bs, settlements)
  {
  }

  // Redeeming a detach receipt takes it away and leaves every owner as it is.
  lemma ConsumedIsCalm(s: Owners, d: DetachReceipt, threadId: string, bs: seq<BindingKey>, disposition: Disposition)
    requires s.Valid() && PreflightsPinned(s)
    ensures var t := Step(s, OwnerEvent.ConsumeDetach(d, threadId, bs, disposition));
      && t.Valid() && PreflightsPinned(t) && Calm(s, t, Members(bs)) && SameOwners(s, t)
    ensures s.Redeems(d, threadId, bs, disposition) ==> AllPending(s, bs, d.settlements)
  {
    var e := OwnerEvent.ConsumeDetach(d, threadId, bs, disposition);
    StepKeepsValid(s, e);
    StepEvolves(s, e);
    var t := Step(s, e);
    forall n | n in t.detaches ensures PreflightPinned(t, t.detaches[n]) {
      assert PreflightPinned(s, s.detaches[n]);
    }
    if s.Redeems(d, threadId, bs, disposition) {
      assert PreflightPinned(s, s.detaches[d.nonce]);
      assert forall i :: 0 <= i < |bs| ==> d.owners[i].binding == bs[i];
    }
  }

  function DetachedAll(residents: map<BindingKey, Resident>, bs: set<BindingKey>): map<BindingKey, Resident> {
    map b | b in residents :: if b in bs then residents[b].(facts := DetachedState(residents[b].facts)) else residents[b]
  }

  lemma DetachedOneMore(residents: map<BindingKey, Resident>, done: set<BindingKey>, b: BindingKey)
    requires b in residents && b !in done
    ensures var now := DetachedAll(residents, done);
      && b in now && now[b] == residents[b]
      && DetachedAll(residents, done + {b}) == now[b := now[b].(facts := DetachedState(residents[b].facts))]
  {
  }

  lemma DetachedNone(residents: map<BindingKey, Resident>)
    ensures DetachedAll(residents, {}) == residents
  {
  }

  // Once all attached bindings of a thread are detached, nobody is subscribed to it.
  lemma NobodyLeft(residents: map<BindingKey, Resident>, subscriptions: set<(BindingKey, string)>, threadId: string)
    requires threadId != ""
    requires SubscriptionsAgree(DetachedAll(residents, AttachedBindings(residents, threadId)), subscriptions)
    ensures forall c :: (c, threadId) !in subscriptions
  {
  }

  // The records of a batch, staged and as they were.
  function DetachedRecords(factory: Factory, residents: map<BindingKey, Resident>, bs: seq<BindingKey>): (rs: seq<Record>)
    requires forall b :: b in bs ==> b in residents
    ensures |rs| == |bs| && forall i :: 0 <= i < |bs| ==> rs[i] == factory.Stored(DetachedState(residents[bs[i]].facts))
  {
    seq(|bs|, i requires 0 <= i < |bs| => factory.Stored(DetachedState(residents[bs[i]].facts)))
  }

  function OriginalRecords(factory: Factory, residents: map<BindingKey, Resident>, bs: seq<BindingKey>): (rs: seq<Record>)
    requires forall b :: b in bs ==> b in residents
    ensures |rs| == |bs| && forall i :: 0 <= i < |bs| ==> rs[i] == factory.Stored(residents[bs[i]].facts)
  {
    seq(|bs|, i requires 0 <= i < |bs| => factory.Stored(residents[bs[i]].facts))
  }

  // -------------------------------------------------------------- deactivation

  const EMPTY_RECORD := Record("", "", "", NoRuntime, Settings("", "", "", "", []))

  // b's owner is retired: no receipt and no preflight of before survives it.
  ghost predicate Gone(s: Owners, t: Owners, b: BindingKey) {
    && b !in t.generations
    && (forall d :: d in s.mintedDetaches && Covers(d, b) ==> !t.Active(d))
  }

  ghost predicate OwnersRetired(s: Owners, t: Owners, bs: set<BindingKey>) {
    && Evolves(s, t) && t.generations == s.generations - bs
    && (forall b :: b in bs ==> Gone(s, t, b))
  }

  lemma RetireKeepsPreflights(s: Owners, b: BindingKey, settled: Option<OwnerLoss>)
    requires PreflightsPinned(s) && Pending(s, b) == settled
    ensures PreflightsPinned(Step(s, OwnerEvent.RetireOwner(b, settled)))
  {
    var t := Step(s, OwnerEvent.RetireOwner(b, settled));
    forall n | n in t.detaches ensures PreflightPinned(t, t.detaches[n]) {
      var d := t.detaches[n];
      assert n in s.detaches && d == s.detaches[n] && !Covers(d, b);
      assert PreflightPinned(s, d);
      forall i | 0 <= i < |d.owners| ensures d.owners[i].binding != b {
        assert d.owners[i] in d.owners;
      }
    }
  }

  lemma RetiredOneMore(s: Owners, t: Owners, bs: set<BindingKey>, b: BindingKey, settled: Option<OwnerLoss>)
    requires t.Valid() && OwnersRetired(s, t, bs) && Pending(t, b) == settled
    ensures OwnersRetired(s, Step(t, OwnerEvent.RetireOwner(b, settled)), bs + {b})
  {
    var u := Step(t, OwnerEvent.RetireOwner(b, settled));
    StepEvolves(t, OwnerEvent.RetireOwner(b, settled));
    OwnerAuthority.EvolvesComposes(s, t, u);
    assert u.generations == s.generations - (bs + {b});
    forall c | c in bs + {b} ensures Gone(s, u, c) {
      assert forall d :: d in s.mintedDetaches ==> d in t.mintedDetaches;
    }
  }

  // The removal of a binding, and the thread to unsubscribe for it.
  datatype Removal = Removal(binding: BindingKey, threadId: string, unsubscribeId: string)

  // Nobody is subscribed to the thread, and no remaining record names it.
  ghost predicate Abandoned(w: World, threadId: string) {
    && (forall c :: (c, threadId) !in w.subscriptions)
    && (forall c :: c in w.residents ==> w.residents[c].facts.threadId != threadId)
    && (forall c :: c in w.store && c !in w.residents ==> w.store[c].threadId != threadId)
  }

  // Every thread that has lost its last subscriber so far is named.
  ghost predicate NamesLost(before: set<(BindingKey, string)>, after: set<(BindingKey, string)>, removals: seq<Removal>) {
    forall c, t :: (c, t) in before && t != "" && (forall d :: (d, t) !in after) ==> exists r :: r in removals && r.unsubscribeId == t
  }

  lemma LossNamed(before: set<(BindingKey, string)>, now: set<(BindingKey, string)>, removals: seq<Removal>,
                  b: BindingKey, threadId: string, removal: Removal)
    requires NamesLost(before, now, removals)
    requires (b, threadId) in now && threadId != "" && (forall c :: (c, threadId) in now ==> c == b) ==> removal.unsubscribeId == threadId
    ensures NamesLost(before, now - Pair(b, threadId), removals + [removal])
  {
    var after := now - Pair(b, threadId);
    forall c, t | (c, t) in before && t != "" && (forall d :: (d, t) !in after)
      ensures exists r :: r in removals + [removal] && r.unsubscribeId == t
    {
      if forall d :: (d, t) !in now {
        var r :| r in removals && r.unsubscribeId == t;
        assert r in removals + [removal];
      } else {
        var d :| (d, t) in now;
        assert (d, t) !in after;
        assert d == b && t == threadId;
        assert removal in removals + [removal];
      }
    }
  }

  lemma RemovedAgrees(v: World, b: BindingKey, after: set<(BindingKey, string)>)
    requires SubscriptionsAgree(v.residents, v.subscriptions) && b in v.residents
    requires after == v.subscriptions - Pair(b, v.residents[b].facts.threadId)
    ensures SubscriptionsAgree(v.residents - {b}, after)
  {
  }

  lemma RemovedHandles(residents: map<BindingKey, Resident>, handles: S.Residents, b: BindingKey)
    requires HandlesMatch(residents, handles)
    ensures HandlesMatch(residents - {b}, handles.(current := handles.current - {b}))
  {
  }

  lemma CalmThenRetired(s: Owners, t: Owners, u: Owners, bs: set<BindingKey>)
    requires Calm(s, t, bs) && OwnersRetired(t, u, bs)
    ensures OwnersRetired(s, u, bs)
  {
    CalmKeepsOthers(s, t, bs);
    OwnerAuthority.EvolvesComposes(s, t, u);
    forall b | b in bs ensures Gone(s, u, b) {
      assert forall d :: d in s.mintedDetaches ==> d in t.mintedDetaches;
    }
  }

  lemma NoneRetired(s: Owners)
    ensures OwnersRetired(s, s, {})
  {
    assert s.generations - {} == s.generations;
  }

  // A retired owner's generation is the only one that goes.
  lemma RetiredKeepsOthers(s: Owners, t: Owners, bs: set<BindingKey>, b: BindingKey)
    requires OwnersRetired(s, t, bs) && b !in bs
    ensures Pending(t, b) == Pending(s, b)
  {
  }

  function EmptyRecords(n: nat): (rs: seq<Record>)
    ensures |rs| == n && forall i :: 0 <= i < n ==> rs[i] == EMPTY_RECORD
  {
    seq(n, _ => EMPTY_RECORD)
  }

  // What a binding's record was: that of its resident state, or the stored one.
  function RecordsBefore(factory: Factory, residents: map<BindingKey, Resident>, store: map<BindingKey, Record>,
                         bs: seq<BindingKey>): (rs: seq<Record>)
    requires forall b :: b in bs ==> b in residents || b in store
    ensures |rs| == |bs|
  {
    seq(|bs|, i requires 0 <= i < |bs| =>
      if bs[i] in residents then factory.Stored(residents[bs[i]].facts) else store[bs[i]])
  }

  lemma WrittenIsCleared(s: map<BindingKey, Record>, t: map<BindingKey, Record>, bs: seq<BindingKey>, originals: seq<Record>,
                         writes: nat -> bool)
    requires |originals| == |bs| && Written(s, t, bs, EmptyRecords(|bs|), originals, writes, |bs|)
    ensures t == s - Members(bs)
  {
    forall b ensures Get(t, b) == Get(s - Members(bs), b) {
      if b in bs {
        var i :| 0 <= i < |bs| && bs[i] == b;
        assert Get(t, bs[i]) == Kept(EMPTY_RECORD);
      }
    }
    SameStore(s - Members(bs), t);
  }

  // ----------------------------------------------------------------- hydration

  function HydratedState(factory: Factory, record: Record): State {
    factory.Hydrated(factory.DefaultState(), record).0
  }

  // An attached record is never hydrated as attached: its owner is gone.
  lemma NeverHydratedAttached(factory: Factory, record: Record)
    ensures !HydratedState(factory, record).attachment.Attached?
    ensures factory.Hydrated(factory.DefaultState(), record).1 == record.attachment.Attached?
    ensures HydratedState(factory, record).threadId == record.threadId
  {
  }

  lemma InstalledAgrees(residents: map<BindingKey, Resident>, subscriptions: set<(BindingKey, string)>, b: BindingKey, r: Resident)
    requires SubscriptionsAgree(residents, subscriptions) && b !in residents && !r.facts.attachment.Attached?
    ensures SubscriptionsAgree(residents[b := r], subscriptions)
  {
  }

  lemma InstalledHandles(residents: map<BindingKey, Resident>, s: S.Residents, t: S.Residents, b: BindingKey, r: Resident)
    requires HandlesMatch(residents, s) && b in t.current && t.current == s.current[b := t.current[b]]
    requires t.current[b].resident == r.token
    ensures HandlesMatch(residents[b := r], t)
  {
  }

  // The plan was hydrated: its states are resident, its attached records are
  // detached, the owners they named moved on, and nothing else changed.
  ghost predicate BatchHydrated(v: World, w: World, factory: Factory, plan: seq<BindingKey>) {
    && w.Valid() && S.Evolves(v.handles, w.handles) && w.subscriptions == v.subscriptions
    && (forall b :: b in plan ==> b in v.store)
    && ResidentsHydrated(v.residents, v.store, w.residents, factory, Members(plan))
    && (forall b :: b in plan && v.store[b].attachment.Attached? ==>
          Get(w.store, b) == Kept(factory.Stored(HydratedState(factory, v.store[b]))))
    && (forall b :: !(b in plan && v.store[b].attachment.Attached?) ==> Get(w.store, b) == Get(v.store, b))
    && OwnersMoved(v.owners, w.owners, AttachedRecords(v.store, Members(plan)))
  }

  // These bindings are resident as their records say; a record that claimed to be
  // attached now says what the state is, and the others stay.
  ghost predicate StoreLoaded(store: map<BindingKey, Record>, residents: map<BindingKey, Resident>,
                              after: map<BindingKey, Record>, factory: Factory, bs: set<BindingKey>)
  {
    && (forall b :: b in bs ==>
          && b in store && b in residents && LoadedFrom(factory, store[b], residents[b].facts)
          && (store[b].attachment == Attached ==> RecordOf(factory, residents[b].facts, Get(after, b)))
          && (store[b].attachment != Attached ==> Get(after, b) == Get(store, b)))
    && (forall b :: b !in bs ==> Get(after, b) == Get(store, b))
  }

  lemma HydratedIsLoaded(v: World, w: World, factory: Factory, plan: seq<BindingKey>)
    requires BatchHydrated(v, w, factory, plan)
    ensures StoreLoaded(v.store, w.residents, w.store, factory, Members(plan))
    ensures w.residents.Keys == v.residents.Keys + Members(plan)
  {
    hide World.Valid, OwnersMoved, S.Evolves, LoadedFrom, RecordOf, Factory.Stored, HydratedState;
    forall b | b in Members(plan)
      ensures b in v.store && b in w.residents && LoadedFrom(factory, v.store[b], w.residents[b].facts)
      ensures v.store[b].attachment == Attached ==> RecordOf(factory, w.residents[b].facts, Get(w.store, b))
      ensures v.store[b].attachment != Attached ==> Get(w.store, b) == Get(v.store, b)
    {
      assert b in plan;
      RecordsOnFields(factory, HydratedState(factory, v.store[b]), v.store[b]);
    }
    forall b | b !in Members(plan) ensures Get(w.store, b) == Get(v.store, b) {
      assert b !in plan;
    }
  }

  // These bindings became resident from the records loaded for them.
  ghost predicate ResidentsHydrated(before: map<BindingKey, Resident>, loaded: map<BindingKey, Record>,
                                    after: map<BindingKey, Resident>, factory: Factory, bs: set<BindingKey>)
  {
    && after.Keys == before.Keys + bs
    && (forall b :: b in before && b !in bs ==> after[b] == before[b])
    && (forall b :: b in bs && b in loaded ==> after[b].facts == HydratedState(factory, loaded[b]))
  }

  lemma HydratedOneMore(before: map<BindingKey, Resident>, loaded: map<BindingKey, Record>, now: map<BindingKey, Resident>,
                        after: map<BindingKey, Resident>, factory: Factory, bs: set<BindingKey>, b: BindingKey)
    requires ResidentsHydrated(before, loaded, now, factory, bs) && b !in now && b in loaded
    requires after.Keys == now.Keys + {b} && after[b].facts == HydratedState(factory, loaded[b])
    requires forall c :: c in now ==> after[c] == now[c]
    ensures ResidentsHydrated(before, loaded, after, factory, bs + {b})
  {
  }

  lemma NoneHydrated(before: map<BindingKey, Resident>, loaded: map<BindingKey, Record>, factory: Factory)
    ensures ResidentsHydrated(before, loaded, before, factory, {})
  {
  }

  function AttachedRecords(store: map<BindingKey, Record>, bs: set<BindingKey>): set<BindingKey> {
    set b | b in bs && b in store && store[b].attachment.Attached?
  }

  function HydratedRecords(factory: Factory, store: map<BindingKey, Record>, bs: seq<BindingKey>): (rs: seq<Record>)
    requires forall b :: b in bs ==> b in store
    ensures |rs| == |bs| && forall i :: 0 <= i < |bs| ==> rs[i] == factory.Stored(HydratedState(factory, store[bs[i]]))
  {
    seq(|bs|, i requires 0 <= i < |bs| => factory.Stored(HydratedState(factory, store[bs[i]])))
  }

  function StoredRecords(store: map<BindingKey, Record>, bs: seq<BindingKey>): (rs: seq<Record>)
    requires forall b :: b in bs ==> b in store
    ensures |rs| == |bs| && forall i :: 0 <= i < |bs| ==> rs[i] == store[bs[i]]
  {
    seq(|bs|, i requires 0 <= i < |bs| => store[bs[i]])
  }

  // What the settlements of a batch left pending, by binding.
  ghost predicate LossesPending(s: Owners, losses: map<BindingKey, OwnerLoss>) {
    forall b :: b in losses ==> Pending(s, b) == Some(losses[b])
  }

  function LossOf(losses: map<BindingKey, OwnerLoss>, b: BindingKey): Option<OwnerLoss> {
    if b in losses then Some(losses[b]) else None
  }

  lemma WrittenIsHydrated(s: map<BindingKey, Record>, t: map<BindingKey, Record>, factory: Factory, downs: seq<BindingKey>,
                          originals: seq<Record>, writes: nat -> bool)
    requires (forall b :: b in downs ==> b in s) && |originals| == |downs|
    requires Written(s, t, downs, HydratedRecords(factory, s, downs), originals, writes, |downs|)
    ensures forall b :: b in downs ==> Get(t, b) == Kept(factory.Stored(HydratedState(factory, s[b])))
    ensures forall b :: b !in downs ==> Get(t, b) == Get(s, b)
  {
    hide Factory.Stored, HydratedState;
    forall b | b in downs ensures Get(t, b) == Kept(factory.Stored(HydratedState(factory, s[b]))) {
      var i :| 0 <= i < |downs| && downs[i] == b;
      assert Get(t, downs[i]) == Kept(HydratedRecords(factory, s, downs)[i]);
    }
  }

  lemma AttachedOneMore(store: map<BindingKey, Record>, bs: set<BindingKey>, b: BindingKey)
    requires b in store
    ensures AttachedRecords(store, bs + {b}) ==
      if store[b].attachment.Attached? then AttachedRecords(store, bs) + {b} else AttachedRecords(store, bs)
  {
  }
}
