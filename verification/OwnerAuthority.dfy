// Exact authority over binding owners (bot/binding_owner_authority.py).
//
// Receipts are compared with `is`, so they are objects; a command compares by
// value, with its owner by identity.  The authority's state is a value, every
// method one step of it, and what the authority promises is proved over runs.
module OwnerAuthority {
  import opened Wrappers
  import opened BindingSessions

  datatype Disposition = Abandon | Terminal

  class OwnerReceipt {
    const issuer: nat
    const binding: BindingKey
    const incarnation: nat
    const revision: nat
    const threadId: string

    constructor (issuer: nat, binding: BindingKey, incarnation: nat, revision: nat, threadId: string)
      ensures this.issuer == issuer && this.binding == binding && this.threadId == threadId
      ensures this.incarnation == incarnation && this.revision == revision
    {
      this.issuer, this.binding, this.threadId := issuer, binding, threadId;
      this.incarnation, this.revision := incarnation, revision;
    }
  }

  datatype OwnerLoss = OwnerLoss(owner: OwnerReceipt, reason: string, disposition: Disposition)

  class SettlementReceipt {
    const command: OwnerLoss

    constructor (command: OwnerLoss)
      ensures this.command == command
    {
      this.command := command;
    }
  }

  class DetachReceipt {
    const issuer: nat
    const nonce: nat
    const threadId: string
    const owners: seq<OwnerReceipt>
    const settlements: seq<SettlementReceipt>

    constructor (issuer: nat, nonce: nat, threadId: string, owners: seq<OwnerReceipt>, settlements: seq<SettlementReceipt>)
      ensures this.issuer == issuer && this.nonce == nonce && this.threadId == threadId
      ensures this.owners == owners && this.settlements == settlements
    {
      this.issuer, this.nonce, this.threadId := issuer, nonce, threadId;
      this.owners, this.settlements := owners, settlements;
    }
  }

  function BindingsOf(owners: seq<OwnerReceipt>): (bs: seq<BindingKey>)
    ensures |bs| == |owners|
    ensures forall i :: 0 <= i < |owners| ==> bs[i] == owners[i].binding
  {
    seq(|owners|, i requires 0 <= i < |owners| => owners[i].binding)
  }

  predicate Covers(d: DetachReceipt, b: BindingKey) {
    exists o :: o in d.owners && o.binding == b
  }

  function Discard(ds: map<nat, DetachReceipt>, b: BindingKey): map<nat, DetachReceipt> {
    map n | n in ds && !Covers(ds[n], b) :: ds[n]
  }

  // The receipts that cover the binding are gone, and the others are as they were.
  ghost predicate DroppedFor(before: map<nat, DetachReceipt>, after: map<nat, DetachReceipt>, b: BindingKey) {
    && (forall n :: n in after <==> n in before && forall o :: o in before[n].owners ==> o.binding != b)
    && (forall n :: n in after ==> after[n] == before[n])
  }

  function DiscardAll(ds: map<nat, DetachReceipt>, owners: seq<OwnerReceipt>): map<nat, DetachReceipt>
    decreases |owners|
  {
    if owners == [] then ds else Discard(DiscardAll(ds, owners[..|owners| - 1]), owners[|owners| - 1].binding)
  }

  lemma {:induction false} DiscardAllKeeps(ds: map<nat, DetachReceipt>, owners: seq<OwnerReceipt>)
    ensures forall n :: n in DiscardAll(ds, owners) <==>
              n in ds && forall o :: o in owners ==> !Covers(ds[n], o.binding)
    ensures forall n :: n in DiscardAll(ds, owners) ==> DiscardAll(ds, owners)[n] == ds[n]
    decreases |owners|
  {
    if owners != [] {
      var front := owners[..|owners| - 1];
      DiscardAllKeeps(ds, front);
      assert owners == front + [owners[|owners| - 1]];
    }
  }

  datatype Generation = Generation(
    incarnation: nat,
    revision: nat,
    receipt: Option<OwnerReceipt>,
    reserved: Option<OwnerLoss>)
  {
    function Advanced(): Generation {
      Generation(incarnation, revision + 1, None, None)
    }
  }

  datatype OwnerError = StaleThread | StaleReceipt | NotReserved | LossPending | IncompletePreflight | StaleDetach | SettlementMismatch

  // The whole authority.  `minted` and `mintedDetaches` remember every receipt it
  // ever handed out.
  datatype Owners = Owners(
    issuer: nat,
    nextIncarnation: nat,
    generations: map<BindingKey, Generation>,
    nextNonce: nat,
    detaches: map<nat, DetachReceipt>,
    minted: set<OwnerReceipt>,
    mintedDetaches: set<DetachReceipt>)
  {
    // The receipt is the registered one of its binding.
    predicate Current(r: OwnerReceipt) {
      r.binding in generations && generations[r.binding].receipt == Some(r)
    }

    predicate Active(d: DetachReceipt) {
      d.nonce in detaches && detaches[d.nonce] == d
    }

    ghost predicate Valid() {
      && (forall b :: b in generations ==> GenerationOk(b, generations[b]))
      && (forall b, c :: b in generations && c in generations && b != c ==>
            generations[b].incarnation != generations[c].incarnation)
      && (forall r :: r in minted ==> r.incarnation <= nextIncarnation)
      && (forall r :: r in minted && r.binding in generations ==> !Later(r, generations[r.binding]))
      && (forall n :: n in detaches ==>
            && detaches[n].nonce == n && n <= nextNonce && detaches[n] in mintedDetaches
            && detaches[n].owners != [] && |detaches[n].settlements| == |detaches[n].owners|)
      && (forall d :: d in mintedDetaches ==> d.nonce <= nextNonce)
      && (forall d, e :: d in mintedDetaches && e in mintedDetaches && d.nonce == e.nonce ==> d == e)
      && (forall n, m, b :: n in detaches && m in detaches && Covers(detaches[n], b) && Covers(detaches[m], b) ==> n == m)
    }

    // The receipt belongs to a later incarnation or revision.
    predicate Later(r: OwnerReceipt, g: Generation) {
      r.incarnation > g.incarnation || (r.incarnation == g.incarnation && r.revision > g.revision)
    }

    ghost predicate GenerationOk(b: BindingKey, g: Generation) {
      && 1 <= g.incarnation <= nextIncarnation
      && (g.receipt.Some? ==> g.receipt.value in minted && IssuedFor(g.receipt.value, b, g))
      && (g.reserved.Some? ==> g.reserved.value.owner in minted && IssuedFor(g.reserved.value.owner, b, g))
    }

    predicate IssuedFor(r: OwnerReceipt, b: BindingKey, g: Generation) {
      r.issuer == issuer && r.binding == b && r.incarnation == g.incarnation && r.revision == g.revision
    }

    // `require_owner_current` does not raise.
    predicate Accepts(r: OwnerReceipt, currentThread: string) {
      && r.issuer == issuer && Current(r)
      && generations[r.binding].incarnation == r.incarnation && generations[r.binding].revision == r.revision
      && currentThread == r.threadId
    }

    // `require_owner_loss_not_pending` does not raise.
    predicate NotPending(r: OwnerReceipt) {
      Current(r) && generations[r.binding].reserved.None?
    }

    // `_ensure_generation`.
    function Ensured(b: BindingKey): Owners {
      if b in generations then this
      else this.(nextIncarnation := nextIncarnation + 1,
                 generations := generations[b := Generation(nextIncarnation + 1, 0, None, None)])
    }

    // A reservation is consumed by an equal command, and only by that.
    predicate Consumes(g: Generation, settled: Option<OwnerLoss>) {
      g.reserved == settled
    }

    // The registered receipt serves once more.
    predicate Reuses(g: Generation, threadId: string) {
      g.receipt.Some? && g.receipt.value.threadId == threadId && g.receipt.value.revision == g.revision
    }

    predicate MayReserve(command: OwnerLoss) {
      && Current(command.owner)
      && (generations[command.owner.binding].reserved.None? || generations[command.owner.binding].reserved == Some(command))
    }

    predicate Redeems(d: DetachReceipt, threadId: string, bindings: seq<BindingKey>, disposition: Disposition) {
      && Active(d) && d.issuer == issuer && d.threadId == threadId
      && BindingsOf(d.owners) == bindings && |d.settlements| == |d.owners|
      && forall i :: 0 <= i < |d.owners| ==> SettlesDetach(d.settlements[i], d.owners[i], disposition)
    }
  }

  predicate SettlesDetach(s: SettlementReceipt, owner: OwnerReceipt, disposition: Disposition) {
    s.command == OwnerLoss(owner, "binding_detached", disposition)
  }

  datatype OwnerEvent =
    | IssueOwner(binding: BindingKey, expected: string, current: string, receipt: OwnerReceipt)
    | ReserveOwnerLoss(command: OwnerLoss)
    | AdvanceOwner(binding: BindingKey, settled: Option<OwnerLoss>)
    | RetireOwner(binding: BindingKey, settled: Option<OwnerLoss>)
    | IssueDetach(threadId: string, owners: seq<OwnerReceipt>, settlements: seq<SettlementReceipt>, detach: DetachReceipt)
    | ConsumeDetach(detach: DetachReceipt, threadId: string, bindings: seq<BindingKey>, disposition: Disposition)
    | DiscardDetach(detach: DetachReceipt)

  function Step(s: Owners, e: OwnerEvent): Owners {
    match e
    case IssueOwner(b, expected, current, receipt) =>
      if expected != current then s
      else
        var t := s.Ensured(b);
        var g := t.generations[b];
        if t.Reuses(g, expected) then t
        else t.(generations := t.generations[b := g.(receipt := Some(receipt))], minted := t.minted + {receipt})
    case ReserveOwnerLoss(command) =>
      if !s.MayReserve(command) then s
      else
        var b := command.owner.binding;
        s.(generations := s.generations[b := s.generations[b].(reserved := Some(command))])
    case AdvanceOwner(b, settled) =>
      var t := s.Ensured(b);
      if !t.Consumes(t.generations[b], settled) then t
      else t.(generations := t.generations[b := t.generations[b].Advanced()], detaches := Discard(t.detaches, b))
    case RetireOwner(b, settled) =>
      if b in s.generations && !s.Consumes(s.generations[b], settled) then s
      else s.(generations := s.generations - {b}, detaches := Discard(s.detaches, b))
    case IssueDetach(threadId, owners, settlements, detach) =>
      if threadId == "" || owners == [] || |owners| != |settlements| then s
      else s.(nextNonce := s.nextNonce + 1,
              detaches := DiscardAll(s.detaches, owners)[s.nextNonce + 1 := detach],
              mintedDetaches := s.mintedDetaches + {detach})
    case ConsumeDetach(detach, threadId, bindings, disposition) =>
      if s.Redeems(detach, threadId, bindings, disposition) then s.(detaches := s.detaches - {detach.nonce}) else s
    case DiscardDetach(detach) =>
      if s.Active(detach) && detach.issuer == s.issuer then s.(detaches := s.detaches - {detach.nonce}) else s
  }

  // What an event mints is a new object with the fields the authority gives it.
  ghost predicate Mints(s: Owners, e: OwnerEvent) {
    match e
    case IssueOwner(b, expected, current, receipt) =>
      expected == current && !s.Ensured(b).Reuses(s.Ensured(b).generations[b], expected) ==>
        && receipt !in s.minted
        && s.Ensured(b).IssuedFor(receipt, b, s.Ensured(b).generations[b]) && receipt.threadId == expected
    case IssueDetach(threadId, owners, settlements, detach) =>
      && detach !in s.mintedDetaches && detach.nonce == s.nextNonce + 1 && detach.issuer == s.issuer
      && detach.threadId == threadId && detach.owners == owners && detach.settlements == settlements
    case _ => true
  }

  // --------------------------------------------------- one step of the authority

  // Issuer, minted receipts and generations stay in order.
  lemma EnsuredKeepsValid(s: Owners, b: BindingKey)
    requires s.Valid()
    ensures s.Ensured(b).Valid() && b in s.Ensured(b).generations
  {
  }

  lemma DetachesShrink(s: Owners, ds: map<nat, DetachReceipt>)
    requires s.Valid() && forall n :: n in ds ==> n in s.detaches && ds[n] == s.detaches[n]
    ensures s.(detaches := ds).Valid()
  {
  }

  // One generation of a valid authority changes without going back.
  lemma GenerationUpdated(s: Owners, b: BindingKey, g: Generation, minted: set<OwnerReceipt>)
    requires s.Valid() && b in s.generations
    requires g.incarnation == s.generations[b].incarnation && g.revision >= s.generations[b].revision
    requires s.minted <= minted
    requires s.(minted := minted).GenerationOk(b, g)
    requires forall r :: r in minted && r !in s.minted ==> r.binding == b && r.incarnation == g.incarnation && r.revision == g.revision
    ensures s.(generations := s.generations[b := g], minted := minted).Valid()
  {
    var t := s.(generations := s.generations[b := g], minted := minted);
    forall r | r in minted && r.binding in t.generations ensures !t.Later(r, t.generations[r.binding]) {
      if r in s.minted {
        assert !s.Later(r, s.generations[r.binding]);
      }
    }
    assert forall c :: c in s.generations ==> t.generations[c].incarnation == s.generations[c].incarnation;
  }

  lemma DetachAdded(s: Owners, ds: map<nat, DetachReceipt>, d: DetachReceipt)
    requires s.Valid() && forall n :: n in ds ==> n in s.detaches && ds[n] == s.detaches[n]
    requires d.nonce == s.nextNonce + 1 && d.owners != [] && |d.owners| == |d.settlements|
    requires forall n, b :: n in ds && Covers(d, b) ==> !Covers(ds[n], b)
    ensures s.(nextNonce := s.nextNonce + 1, detaches := ds[s.nextNonce + 1 := d],
               mintedDetaches := s.mintedDetaches + {d}).Valid()
  {
    DetachesShrink(s, ds);
  }

  lemma IssueKeepsValid(s: Owners, e: OwnerEvent)
    requires s.Valid() && Mints(s, e) && e.IssueOwner?
    ensures Step(s, e).Valid()
  {
    EnsuredKeepsValid(s, e.binding);
    var t := s.Ensured(e.binding);
    var g := t.generations[e.binding];
    if e.expected == e.current && !t.Reuses(g, e.expected) {
      GenerationUpdated(t, e.binding, g.(receipt := Some(e.receipt)), t.minted + {e.receipt});
    }
  }

  lemma ReserveKeepsValid(s: Owners, command: OwnerLoss)
    requires s.Valid()
    ensures Step(s, ReserveOwnerLoss(command)).Valid()
  {
    if s.MayReserve(command) {
      var b := command.owner.binding;
      GenerationUpdated(s, b, s.generations[b].(reserved := Some(command)), s.minted);
    }
  }

  lemma AdvanceKeepsValid(s: Owners, b: BindingKey, settled: Option<OwnerLoss>)
    requires s.Valid()
    ensures Step(s, AdvanceOwner(b, settled)).Valid()
  {
    EnsuredKeepsValid(s, b);
    var t := s.Ensured(b);
    if t.Consumes(t.generations[b], settled) {
      GenerationUpdated(t, b, t.generations[b].Advanced(), t.minted);
      DetachesShrink(t.(generations := t.generations[b := t.generations[b].Advanced()]), Discard(t.detaches, b));
    }
  }

  lemma StepKeepsValid(s: Owners, e: OwnerEvent)
    requires s.Valid() && Mints(s, e)
    ensures Step(s, e).Valid()
  {
    hide Owners.Valid;
    match e
    case IssueOwner(_, _, _, _) => IssueKeepsValid(s, e);
    case ReserveOwnerLoss(command) => ReserveKeepsValid(s, command);
    case AdvanceOwner(b, settled) => AdvanceKeepsValid(s, b, settled);
    case RetireOwner(b, settled) =>
      if b in s.generations ==> s.Consumes(s.generations[b], settled) {
        GenerationRetired(s, b);
        DetachesShrink(s.(generations := s.generations - {b}), Discard(s.detaches, b));
      }
    case IssueDetach(threadId, owners, settlements, detach) =>
      if threadId != "" && owners != [] && |owners| == |settlements| {
        DiscardAllKeeps(s.detaches, owners);
        DetachAdded(s, DiscardAll(s.detaches, owners), detach);
      }
    case ConsumeDetach(detach, _, _, _) => DetachesShrink(s, s.detaches - {detach.nonce});
    case DiscardDetach(detach) => DetachesShrink(s, s.detaches - {detach.nonce});
  }

  lemma GenerationRetired(s: Owners, b: BindingKey)
    requires s.Valid()
    ensures s.(generations := s.generations - {b}).Valid()
  {
  }

  // ----------------------------------------------------------------- whole runs

  // What was gone stays gone, and counters only grow.
  ghost predicate Evolves(s: Owners, t: Owners) {
    && s.issuer == t.issuer && s.minted <= t.minted && s.mintedDetaches <= t.mintedDetaches
    && s.nextIncarnation <= t.nextIncarnation && s.nextNonce <= t.nextNonce
    && (forall r :: r in s.minted && !s.Current(r) ==> !t.Current(r))
    && (forall d :: d in s.mintedDetaches && !s.Active(d) ==> !t.Active(d))
  }

  lemma StepEvolves(s: Owners, e: OwnerEvent)
    requires s.Valid() && Mints(s, e)
    ensures Evolves(s, Step(s, e))
  {
    if e.IssueDetach? {
      DiscardAllKeeps(s.detaches, e.owners);
    }
  }

  function Run(s: Owners, es: seq<OwnerEvent>): Owners
    decreases |es|
  {
    if es == [] then s else Run(Step(s, es[0]), es[1..])
  }

  ghost predicate MintsAll(s: Owners, es: seq<OwnerEvent>)
    decreases |es|
  {
    es == [] || (Mints(s, es[0]) && MintsAll(Step(s, es[0]), es[1..]))
  }

  lemma EvolvesComposes(s: Owners, t: Owners, u: Owners)
    requires Evolves(s, t) && Evolves(t, u)
    ensures Evolves(s, u)
  {
  }

  // Once a receipt lost its registration, or a detach receipt was consumed or
  // dropped, no run brings it back.
  lemma {:induction false} EveryRunEvolves(s: Owners, es: seq<OwnerEvent>)
    requires s.Valid() && MintsAll(s, es)
    ensures Run(s, es).Valid() && Evolves(s, Run(s, es))
    decreases |es|
  {
    if es != [] {
      var t := Step(s, es[0]);
      StepKeepsValid(s, es[0]);
      StepEvolves(s, es[0]);
      EveryRunEvolves(t, es[1..]);
      EvolvesComposes(s, t, Run(t, es[1..]));
    }
  }

  // The event advances or retires this binding.
  predicate Revokes(s: Owners, e: OwnerEvent, b: BindingKey) {
    match e
    case AdvanceOwner(c, settled) => c == b && s.Ensured(b).Consumes(s.Ensured(b).generations[b], settled)
    case RetireOwner(c, settled) => c == b && (b in s.generations ==> s.Consumes(s.generations[b], settled))
    case _ => false
  }

  // Freedom from ABA: after an owner was advanced or retired, no receipt issued
  // for its binding before is ever accepted again, whatever thread it returns to.
  lemma RevokedForever(s: Owners, e: OwnerEvent, b: BindingKey, es: seq<OwnerEvent>, r: OwnerReceipt, threadId: string)
    requires s.Valid() && Revokes(s, e, b) && MintsAll(Step(s, e), es)
    requires r in s.minted && r.binding == b
    ensures !Run(Step(s, e), es).Accepts(r, threadId) && !Run(Step(s, e), es).Current(r)
  {
    StepKeepsValid(s, e);
    EveryRunEvolves(Step(s, e), es);
    assert r in Step(s, e).minted && !Step(s, e).Current(r);
  }

  // The event settles this very loss.
  predicate Settles(e: OwnerEvent, command: OwnerLoss) {
    e in {AdvanceOwner(command.owner.binding, Some(command)), RetireOwner(command.owner.binding, Some(command))}
  }

  predicate Reserved(s: Owners, command: OwnerLoss) {
    command.owner.binding in s.generations && s.generations[command.owner.binding].reserved == Some(command)
  }

  function Revision(s: Owners, b: BindingKey): Option<(nat, nat)> {
    if b in s.generations then Some((s.generations[b].incarnation, s.generations[b].revision)) else None
  }

  lemma StepKeepsReservation(s: Owners, e: OwnerEvent, command: OwnerLoss)
    requires Reserved(s, command) && !Settles(e, command)
    ensures Reserved(Step(s, e), command)
    ensures Revision(Step(s, e), command.owner.binding) == Revision(s, command.owner.binding)
  {
  }

  // While a loss is reserved, only settling an equal command moves its owner on.
  lemma {:induction false} ReservedUntilSettled(s: Owners, es: seq<OwnerEvent>, command: OwnerLoss)
    requires Reserved(s, command)
    requires forall e :: e in es ==> !Settles(e, command)
    ensures Reserved(Run(s, es), command)
    ensures Revision(Run(s, es), command.owner.binding) == Revision(s, command.owner.binding)
    decreases |es|
  {
    if es != [] {
      StepKeepsReservation(s, es[0], command);
      ReservedUntilSettled(Step(s, es[0]), es[1..], command);
    }
  }

  lemma StepPinsOwners(s: Owners, e: OwnerEvent, d: DetachReceipt, b: BindingKey)
    requires s.Valid() && Mints(s, e) && d in s.mintedDetaches && Covers(d, b) && b in s.generations
    requires Step(s, e).Active(d)
    ensures s.Active(d) && Revision(Step(s, e), b) == Revision(s, b)
  {
    StepEvolves(s, e);
  }

  // As long as a detach receipt is good, every owner it covers is still at the
  // revision it had when the receipt was issued.
  lemma {:induction false} DetachPinsOwners(s: Owners, es: seq<OwnerEvent>, d: DetachReceipt, b: BindingKey)
    requires s.Valid() && MintsAll(s, es) && d in s.mintedDetaches && Covers(d, b) && b in s.generations
    requires Run(s, es).Active(d)
    ensures s.Active(d) && Revision(Run(s, es), b) == Revision(s, b)
    decreases |es|
  {
    if es != [] {
      StepKeepsValid(s, es[0]);
      StepEvolves(s, es[0]);
      var t := Step(s, es[0]);
      EveryRunEvolves(t, es[1..]);
      assert t.Active(d);
      StepPinsOwners(s, es[0], d, b);
      DetachPinsOwners(t, es[1..], d, b);
    }
  }

  // A detach receipt is redeemed at most once.
  lemma DetachRedeemedOnce(s: Owners, d: DetachReceipt, threadId: string, bindings: seq<BindingKey>,
                           disposition: Disposition, es: seq<OwnerEvent>)
    requires s.Valid() && s.Redeems(d, threadId, bindings, disposition)
    requires MintsAll(Step(s, ConsumeDetach(d, threadId, bindings, disposition)), es)
    ensures forall t, bs, x :: !Run(Step(s, ConsumeDetach(d, threadId, bindings, disposition)), es).Redeems(d, t, bs, x)
  {
    var e := ConsumeDetach(d, threadId, bindings, disposition);
    StepKeepsValid(s, e);
    EveryRunEvolves(Step(s, e), es);
    assert d in Step(s, e).mintedDetaches && !Step(s, e).Active(d);
  }

  // -------------------------------------------------------- the authority itself

  class BindingOwnerAuthority {
    const issuer: nat
    var nextIncarnation: nat
    var generations: map<BindingKey, Generation>
    var nextNonce: nat
    var detaches: map<nat, DetachReceipt>
    ghost var minted: set<OwnerReceipt>
    ghost var mintedDetaches: set<DetachReceipt>

    ghost function Now(): Owners
      reads this
    {
      Owners.Owners(issuer, nextIncarnation, generations, nextNonce, detaches, minted, mintedDetaches)
    }

    constructor (issuer: nat)
      ensures Now() == Owners.Owners(issuer, 0, map[], 0, map[], {}, {}) && Now().Valid()
    {
      this.issuer, nextIncarnation, generations, nextNonce, detaches := issuer, 0, map[], 0, map[];
      minted, mintedDetaches := {}, {};
    }

    method EnsureGeneration(b: BindingKey)
      modifies this
      ensures Now() == old(Now()).Ensured(b)
    {
      if b !in generations {
        nextIncarnation := nextIncarnation + 1;
        generations := generations[b := Generation(nextIncarnation, 0, None, None)];
      }
    }

    // Every receipt ever minted is an allocated object, so a new one is not among them.
    method IssueOwner(b: BindingKey, expected: string, current: string) returns (r: Result<OwnerReceipt, OwnerError>)
      requires Now().Valid()
      modifies this
      ensures r.Ok? <==> expected == current
      ensures r.Err? ==> Now() == old(Now())
      ensures r.Ok? ==>
        && Mints(old(Now()), OwnerEvent.IssueOwner(b, expected, current, r.value))
        && Now() == Step(old(Now()), OwnerEvent.IssueOwner(b, expected, current, r.value))
        && r.value.binding == b && Now().Accepts(r.value, current)
      ensures r.Ok? ==>
        && b in generations && generations[b].receipt == Some(r.value)
        && (r.value.issuer, r.value.threadId) == (issuer, current)
        && (r.value.incarnation, r.value.revision) == (generations[b].incarnation, generations[b].revision)
        && generations[b].(receipt := None) ==
             (if b in old(generations) then old(generations)[b].(receipt := None) else Generation(old(nextIncarnation) + 1, 0, None, None))
        && generations - {b} == old(generations) - {b} && detaches == old(detaches)
      ensures r.Ok? ==>
        if b in old(generations) && old(generations)[b].receipt.Some?
           && old(generations)[b].receipt.value.threadId == expected
           && old(generations)[b].receipt.value.revision == old(generations)[b].revision
        then Some(r.value) == old(generations)[b].receipt
        else fresh(r.value)
    {
      if expected != current {
        return Err(StaleThread);
      }
      EnsuredKeepsValid(Now(), b);
      EnsureGeneration(b);
      var g := generations[b];
      if g.receipt.Some? && g.receipt.value.threadId == expected && g.receipt.value.revision == g.revision {
        return Ok(g.receipt.value);
      }
      var receipt := new OwnerReceipt(issuer, b, g.incarnation, g.revision, expected);
      generations := generations[b := g.(receipt := Some(receipt))];
      minted := minted + {receipt};
      r := Ok(receipt);
    }

    method RequireOwnerCurrent(receipt: OwnerReceipt, currentThread: string) returns (ok: bool)
      ensures ok <==> Now().Accepts(receipt, currentThread)
      ensures ok <==>
        && receipt.issuer == issuer && receipt.binding in generations && generations[receipt.binding].receipt == Some(receipt)
        && receipt.incarnation == generations[receipt.binding].incarnation
        && receipt.revision == generations[receipt.binding].revision && receipt.threadId == currentThread
    {
      if receipt.issuer != issuer || receipt.binding !in generations {
        return false;
      }
      var g := generations[receipt.binding];
      ok := g.receipt == Some(receipt) && g.incarnation == receipt.incarnation && g.revision == receipt.revision
            && currentThread == receipt.threadId;
    }

    method ReserveOwnerLoss(command: OwnerLoss) returns (r: Option<OwnerError>)
      modifies this
      ensures r.None? <==>
        && command.owner.binding in old(generations)
        && old(generations)[command.owner.binding].receipt == Some(command.owner)
        && (old(generations)[command.owner.binding].reserved.None?
            || old(generations)[command.owner.binding].reserved == Some(command))
      ensures r.None? ==>
        generations == old(generations)[command.owner.binding :=
                         old(generations)[command.owner.binding].(reserved := Some(command))]
      ensures r.Some? ==> generations == old(generations)
      ensures r.None? <==> old(Now()).MayReserve(command)
      ensures Now() == Step(old(Now()), OwnerEvent.ReserveOwnerLoss(command))
    {
      var b := command.owner.binding;
      if b !in generations || generations[b].receipt != Some(command.owner) {
        return Some(StaleReceipt);
      }
      var reserved := generations[b].reserved;
      if reserved.Some? && reserved != Some(command) {
        return Some(LossPending);
      }
      generations := generations[b := generations[b].(reserved := Some(command))];
      r := None;
    }

    method RequireLossNotPending(receipt: OwnerReceipt) returns (ok: bool)
      ensures ok <==> Now().NotPending(receipt)
      ensures ok <==>
        && receipt.binding in generations && generations[receipt.binding].receipt == Some(receipt)
        && generations[receipt.binding].reserved.None?
    {
      ok := receipt.binding in generations && generations[receipt.binding].receipt == Some(receipt)
            && generations[receipt.binding].reserved.None?;
    }

    // A refused advance of an unknown binding still leaves it a generation.
    method AdvanceOwner(b: BindingKey, settled: Option<OwnerLoss>) returns (ok: bool)
      modifies this
      ensures ok <==> Revokes(old(Now()), OwnerEvent.AdvanceOwner(b, settled), b)
      ensures Now() == Step(old(Now()), OwnerEvent.AdvanceOwner(b, settled))
      ensures ok <==> (if b in old(generations) then old(generations)[b].reserved == settled else settled.None?)
      ensures b in generations && generations - {b} == old(generations) - {b}
      ensures generations[b].incarnation ==
        if b in old(generations) then old(generations)[b].incarnation else old(nextIncarnation) + 1
      ensures ok ==>
        && generations[b].revision == (if b in old(generations) then old(generations)[b].revision else 0) + 1
        && generations[b].receipt.None? && generations[b].reserved.None?
      ensures ok ==> DroppedFor(old(detaches), detaches, b)
      ensures !ok ==> detaches == old(detaches) && (b in old(generations) ==> generations[b] == old(generations)[b])
    {
      EnsureGeneration(b);
      if !MayConsume(generations[b], settled) {
        return false;
      }
      generations := generations[b := Generation(generations[b].incarnation, generations[b].revision + 1, None, None)];
      DiscardForBinding(b);
      ok := true;
    }

    static function MayConsume(g: Generation, settled: Option<OwnerLoss>): (ok: bool)
      ensures ok <==> g.reserved == settled
    {
      if g.reserved.None? then settled.None? else settled.Some? && g.reserved.value == settled.value
    }

    method RetireOwner(b: BindingKey, settled: Option<OwnerLoss>) returns (ok: bool)
      modifies this
      ensures ok <==> Revokes(old(Now()), OwnerEvent.RetireOwner(b, settled), b)
      ensures Now() == Step(old(Now()), OwnerEvent.RetireOwner(b, settled))
      ensures ok <==> b !in old(generations) || old(generations)[b].reserved == settled
      ensures ok ==> generations == old(generations) - {b} && DroppedFor(old(detaches), detaches, b)
      ensures !ok ==> generations == old(generations) && detaches == old(detaches)
    {
      if b in generations && !MayConsume(generations[b], settled) {
        return false;
      }
      generations := generations - {b};
      DiscardForBinding(b);
      ok := true;
    }

    method DiscardForBinding(b: BindingKey)
      modifies this`detaches
      ensures detaches == Discard(old(detaches), b)
    {
      var nonces := detaches.Keys;
      while nonces != {}
        invariant nonces <= old(detaches).Keys
        invariant detaches == map n | n in old(detaches) && (n in nonces || !Covers(old(detaches)[n], b)) :: old(detaches)[n]
      {
        var n :| n in nonces;
        if exists o :: o in detaches[n].owners && o.binding == b {
          detaches := detaches - {n};
        }
        nonces := nonces - {n};
      }
    }

    method IssueDetach(threadId: string, owners: seq<OwnerReceipt>, settlements: seq<SettlementReceipt>)
      returns (r: Result<DetachReceipt, OwnerError>)
      modifies this
      ensures r.Ok? <==> threadId != "" && owners != [] && |owners| == |settlements|
      ensures r.Err? ==> Now() == old(Now())
      ensures r.Ok? ==>
        && fresh(r.value)
        && Now() == Step(old(Now()), OwnerEvent.IssueDetach(threadId, owners, settlements, r.value))
        && Mints(old(Now()), OwnerEvent.IssueDetach(threadId, owners, settlements, r.value))
      ensures r.Ok? ==>
        && r.value.issuer == issuer && r.value.threadId == threadId && r.value.owners == owners
        && r.value.settlements == settlements && r.value.nonce == nextNonce == old(nextNonce) + 1
        && generations == old(generations) && nextNonce in detaches && detaches[nextNonce] == r.value
      ensures r.Ok? ==> forall n :: n != nextNonce ==>
        (n in detaches <==> n in old(detaches) && forall o, p :: o in owners && p in old(detaches)[n].owners ==> o.binding != p.binding)
    {
      if threadId == "" || owners == [] || |owners| != |settlements| {
        return Err(IncompletePreflight);
      }
      for i := 0 to |owners|
        invariant detaches == DiscardAll(old(detaches), owners[..i])
        invariant nextNonce == old(nextNonce) && nextIncarnation == old(nextIncarnation) && generations == old(generations)
        invariant minted == old(minted) && mintedDetaches == old(mintedDetaches)
      {
        DiscardForBinding(owners[i].binding);
        assert owners[..i + 1][..i] == owners[..i];
      }
      assert owners[..|owners|] == owners;
      DiscardAllKeeps(old(detaches), owners);
      nextNonce := nextNonce + 1;
      var receipt := new DetachReceipt(issuer, nextNonce, threadId, owners, settlements);
      detaches := detaches[nextNonce := receipt];
      mintedDetaches := mintedDetaches + {receipt};
      r := Ok(receipt);
    }

    method ConsumeDetach(detach: DetachReceipt, threadId: string, bindings: seq<BindingKey>, disposition: Disposition)
      returns (r: Result<seq<OwnerReceipt>, OwnerError>)
      modifies this
      ensures r.Ok? <==> old(Now()).Redeems(detach, threadId, bindings, disposition)
      ensures r.Ok? ==> r.value == detach.owners
      ensures r.Ok? <==>
        && detach.nonce in old(detaches) && old(detaches)[detach.nonce] == detach && detach.issuer == issuer
        && detach.threadId == threadId && |detach.owners| == |bindings| == |detach.settlements|
        && forall i :: 0 <= i < |bindings| ==>
             && detach.owners[i].binding == bindings[i] && detach.settlements[i].command.owner == detach.owners[i]
             && detach.settlements[i].command.reason == "binding_detached"
             && detach.settlements[i].command.disposition == disposition
      ensures generations == old(generations) && detaches == if r.Ok? then old(detaches) - {detach.nonce} else old(detaches)
      ensures Now() == Step(old(Now()), OwnerEvent.ConsumeDetach(detach, threadId, bindings, disposition))
    {
      if detach.issuer != issuer || detach.nonce !in detaches || detaches[detach.nonce] != detach ||
         detach.threadId != threadId || BindingsOf(detach.owners) != bindings || |detach.owners| != |detach.settlements| {
        return Err(StaleDetach);
      }
      for i := 0 to |detach.owners|
        invariant forall k :: 0 <= k < i ==> SettlesDetach(detach.settlements[k], detach.owners[k], disposition)
      {
        var command := detach.settlements[i].command;
        if command.owner != detach.owners[i] || command.disposition != disposition || command.reason != "binding_detached" {
          assert !SettlesDetach(detach.settlements[i], detach.owners[i], disposition);
          return Err(SettlementMismatch);
        }
      }
      detaches := detaches - {detach.nonce};
      r := Ok(detach.owners);
    }

    method DiscardDetach(detach: DetachReceipt)
      modifies this
      ensures Now() == Step(old(Now()), OwnerEvent.DiscardDetach(detach))
    {
      if detach.nonce in detaches && detaches[detach.nonce] == detach && detach.issuer == issuer {
        detaches := detaches - {detach.nonce};
      }
    }
  }
}
