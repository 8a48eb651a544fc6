// The connection-generation gate (bot/adapter_ingress_gate.py).
//
// Every method runs under one lock and is one step of the gate's state.  Only the
// wait for outbound writes to drain lets others in; what they do there are guard
// calls, given as rounds of a wait that ends when its rounds are used up.  Ports
// do not call back into the gate.
module IngressGate {
  import opened Wrappers

  // A registered transport write; entered and left once.
  type Lease = nat

  datatype GuardCall = Enter(epoch: int, lease: Lease) | Exit(lease: Lease)

  datatype GateState = GateState(
    latest: int,
    lastDisconnected: int,
    blocked: bool,
    invalidated: bool,
    cleanupRequired: bool,
    pendingDisconnect: int,
    epoch: int,
    active: int,
    live: bool,
    held: set<Lease>)
  {
    // `_ordinary_ingress_closed_locked`.
    predicate Closed() {
      blocked || cleanupRequired || pendingDisconnect > 0
    }

    ghost predicate Valid() {
      && 0 <= lastDisconnected <= latest
      && (pendingDisconnect == 0 || (0 < pendingDisconnect == latest == lastDisconnected))
      && (cleanupRequired ==> blocked)
      && (invalidated ==> blocked && !cleanupRequired && pendingDisconnect == 0 && !live)
      && (!Closed() ==> (live <==> latest > lastDisconnected))
      && epoch >= 1 && active == |held|
    }

    // This generation is the live connection.
    predicate Admits(generation: int) {
      !Closed() && live && latest == generation > lastDisconnected
    }

    function EpochAdvanced(): GateState {
      this.(epoch := epoch + 1)
    }

    // Stay closed until an explicit reset cleans up.
    function Stuck(): GateState {
      this.(cleanupRequired := true, blocked := true)
    }

    function Guarded(call: GuardCall): GateState {
      match call
      case Enter(e, lease) => if Closed() || e != epoch then this else this.(active := active + 1, held := held + {lease})
      case Exit(lease) => this.(active := active - 1, held := held - {lease})
    }

    // A new lease is entered, a held one is left.
    predicate Legal(call: GuardCall) {
      match call
      case Enter(_, lease) => lease !in held
      case Exit(lease) => lease in held
    }
  }

  const INITIAL := GateState(0, 0, false, false, false, 0, 1, 0, false, {})

  function GuardedAll(s: GateState, calls: seq<GuardCall>): GateState
    decreases |calls|
  {
    if calls == [] then s else GuardedAll(s.Guarded(calls[0]), calls[1..])
  }

  ghost predicate LegalAll(s: GateState, calls: seq<GuardCall>)
    decreases |calls|
  {
    calls == [] || (s.Legal(calls[0]) && LegalAll(s.Guarded(calls[0]), calls[1..]))
  }

  type Waits = seq<seq<GuardCall>>

  // `_drain_outbound_transports_locked`: the state afterwards, and whether every
  // write had left before the time was up.
  function Drained(s: GateState, waits: Waits): (GateState, bool)
    decreases |waits|
  {
    if s.active == 0 then (s, true)
    else if waits == [] then (s.Stuck(), false)
    else Drained(GuardedAll(s, waits[0]), waits[1..])
  }

  ghost predicate LegalWaits(s: GateState, waits: Waits)
    decreases |waits|
  {
    s.active == 0 || waits == [] || (LegalAll(s, waits[0]) && LegalWaits(GuardedAll(s, waits[0]), waits[1..]))
  }

  // `_invalidate_connection_facts_locked`: the state afterwards, and whether it
  // committed; `ok` is what the invalidation port does.
  function Invalidated(s: GateState, waits: Waits, ok: bool): (GateState, bool) {
    var (t, drained) := Drained(s.EpochAdvanced().(cleanupRequired := true), waits);
    if !drained then (t, false)
    else if !ok then (t.(blocked := true), false)
    else (t.(live := false, cleanupRequired := false), true)
  }

  function Activated(s: GateState, ok: bool): GateState {
    if ok then s else s.EpochAdvanced().Stuck().(live := true)
  }

  datatype GateEvent =
    | Accept(generation: int, waits: Waits, invalidates: bool, activates: bool)
    | FenceDisconnect(generation: int)
    | ObserveDisconnect(generation: int, waits: Waits, invalidates: bool)
    | BeginReset(waits: Waits, invalidates: bool)
    | FenceReset(expected: Option<int>, waits: Waits)
    | AdmitReplacement(generation: int, publishes: bool)
    | Guard(call: GuardCall)

  predicate Ignores(s: GateState, generation: int) {
    s.blocked || s.pendingDisconnect != 0 || generation <= s.lastDisconnected || generation < s.latest
  }

  // Whether the gate fences this disconnect, and the state afterwards.
  function Fenced(s: GateState, generation: int): (GateState, bool) {
    if s.blocked || generation <= s.lastDisconnected then (s, false)
    else
      var t := s.(lastDisconnected := generation);
      if generation < s.latest then (t, false)
      else
        var u := t.(latest := generation);
        (if generation > u.pendingDisconnect then u.EpochAdvanced().(pendingDisconnect := generation) else u, true)
  }

  // The disconnect this call has to clean up after, if any.
  predicate Observes(s: GateState, generation: int) {
    && !s.blocked
    && if s.pendingDisconnect != 0 then generation == s.pendingDisconnect else Fenced(s, generation).1
  }

  predicate ResetRefused(s: GateState, expected: Option<int>) {
    expected.Some? && (s.latest != expected.value || s.Closed())
  }

  predicate ReplacementAdmitted(s: GateState, generation: int) {
    && !s.cleanupRequired && s.blocked && s.invalidated
    && generation > s.latest && generation > s.lastDisconnected
  }

  function Step(s: GateState, e: GateEvent): GateState {
    match e
    case Accept(g, waits, invalidates, activates) =>
      if Ignores(s, g) then s
      else if g == s.latest then Activated(s, activates)
      else
        var (t, ok) := if s.live then Invalidated(s, waits, invalidates) else (s, true);
        if !ok then t else Activated(t.(latest := g, live := true), activates)
    case FenceDisconnect(g) => Fenced(s, g).0
    case ObserveDisconnect(g, waits, invalidates) =>
      var t := if !s.blocked && s.pendingDisconnect == 0 then Fenced(s, g).0 else s;
      if !Observes(s, g) then t else Invalidated(t, waits, invalidates).0.(pendingDisconnect := 0)
    case BeginReset(waits, invalidates) =>
      if s.cleanupRequired && !s.blocked then s
      else
        var (t, ok) := Invalidated(if s.cleanupRequired then s else s.(blocked := true, invalidated := false), waits, invalidates);
        if ok then t.(pendingDisconnect := 0, invalidated := true) else t
    case FenceReset(expected, waits) =>
      if ResetRefused(s, expected) then s
      else Drained(s.EpochAdvanced().(invalidated := false, blocked := true), waits).0
    case AdmitReplacement(g, publishes) =>
      if !ReplacementAdmitted(s, g) || !publishes then s
      else s.(lastDisconnected := if s.lastDisconnected > g - 1 then s.lastDisconnected else g - 1,
              latest := g, live := true, pendingDisconnect := 0, blocked := false, invalidated := false)
    case Guard(call) => s.Guarded(call)
  }

  // The state the wait of this event starts in, and its rounds.
  function WaitOf(s: GateState, e: GateEvent): (GateState, Waits) {
    match e
    case Accept(g, waits, _, _) => (s.EpochAdvanced().(cleanupRequired := true), waits)
    case ObserveDisconnect(g, waits, _) =>
      var t := if s.pendingDisconnect == 0 then Fenced(s, g).0 else s;
      (t.EpochAdvanced().(cleanupRequired := true), waits)
    case BeginReset(waits, _) =>
      ((if s.cleanupRequired then s else s.(blocked := true, invalidated := false)).EpochAdvanced().(cleanupRequired := true), waits)
    case FenceReset(_, waits) => (s.EpochAdvanced().(invalidated := false, blocked := true), waits)
    case _ => (s, [])
  }

  // Guards are entered under a new lease and left while they hold it.
  ghost predicate LegalEvent(s: GateState, e: GateEvent) {
    if e.Guard? then s.Legal(e.call) else LegalWaits(WaitOf(s, e).0, WaitOf(s, e).1)
  }

  // ------------------------------------------------------- guards and drains

  // Apart from its leases a guard call changes nothing.
  predicate SameButLeases(s: GateState, t: GateState) {
    t == s.(active := t.active, held := t.held)
  }

  lemma {:induction false} GuardsKeep(s: GateState, calls: seq<GuardCall>)
    requires s.active == |s.held| && LegalAll(s, calls)
    ensures var t := GuardedAll(s, calls);
      && SameButLeases(s, t) && t.active == |t.held|
      && (s.Closed() ==> t.held <= s.held && t.active <= s.active)
    decreases |calls|
  {
    if calls != [] {
      GuardKeeps(s, calls[0]);
      GuardsKeep(s.Guarded(calls[0]), calls[1..]);
    }
  }

  lemma GuardKeeps(s: GateState, call: GuardCall)
    requires s.active == |s.held| && s.Legal(call)
    ensures var t := s.Guarded(call);
      && SameButLeases(s, t) && t.active == |t.held|
      && (s.Closed() ==> t.held <= s.held && t.active <= s.active)
  {
  }

  // While a drain waits no write gets in; it succeeds only when all have left.
  lemma {:induction false} DrainKeeps(s: GateState, waits: Waits)
    requires s.active == |s.held| && s.Closed() && LegalWaits(s, waits)
    ensures var (t, drained) := Drained(s, waits);
      && t.active == |t.held| && t.held <= s.held && t.active <= s.active
      && SameButLeases(if drained then s else s.Stuck(), t)
      && (drained <==> t.active == 0)
    decreases |waits|
  {
    if s.active != 0 && waits != [] {
      GuardsKeep(s, waits[0]);
      DrainKeeps(GuardedAll(s, waits[0]), waits[1..]);
    }
  }

  // ---------------------------------------------------- one step and whole runs

  // What an invalidation may leave, from a state in order.
  lemma InvalidatedKeeps(s: GateState, waits: Waits, ok: bool)
    requires s.active == |s.held| && LegalWaits(s.EpochAdvanced().(cleanupRequired := true), waits)
    ensures var (t, done) := Invalidated(s, waits, ok);
      && t == s.(epoch := s.epoch + 1, cleanupRequired := !done, blocked := s.blocked || !done, live := s.live && !done,
                 active := t.active, held := t.held)
      && t.active == |t.held| && (done ==> t.active == 0)
  {
    DrainKeeps(s.EpochAdvanced().(cleanupRequired := true), waits);
  }

  lemma InvalidatedKeepsIfLegal(s: GateState, waits: Waits, ok: bool)
    requires s.active == |s.held|
    ensures LegalWaits(s.EpochAdvanced().(cleanupRequired := true), waits) ==>
      var (t, done) := Invalidated(s, waits, ok);
      && t == s.(epoch := s.epoch + 1, cleanupRequired := !done, blocked := s.blocked || !done, live := s.live && !done,
                 active := t.active, held := t.held)
  {
    if LegalWaits(s.EpochAdvanced().(cleanupRequired := true), waits) {
      InvalidatedKeeps(s, waits, ok);
    }
  }

  lemma StepKeepsValid(s: GateState, e: GateEvent)
    requires s.Valid() && LegalEvent(s, e)
    ensures Step(s, e).Valid()
  {
    hide Drained, Invalidated, GuardedAll, LegalWaits;
    match e
    case Accept(g, waits, invalidates, _) => if !Ignores(s, g) && g != s.latest && s.live { InvalidatedKeeps(s, waits, invalidates); }
    case FenceDisconnect(g) =>
    case ObserveDisconnect(g, waits, invalidates) =>
      var t := if !s.blocked && s.pendingDisconnect == 0 then Fenced(s, g).0 else s;
      if Observes(s, g) { InvalidatedKeeps(t, waits, invalidates); }
    case BeginReset(waits, invalidates) =>
      InvalidatedKeeps(if s.cleanupRequired then s else s.(blocked := true, invalidated := false), waits, invalidates);
    case FenceReset(_, waits) => DrainKeeps(s.EpochAdvanced().(invalidated := false, blocked := true), waits);
    case AdmitReplacement(_, _) =>
    case Guard(call) => GuardKeeps(s, call);
  }

  function Run(s: GateState, es: seq<GateEvent>): GateState
    decreases |es|
  {
    if es == [] then s else Run(Step(s, es[0]), es[1..])
  }

  ghost predicate LegalRun(s: GateState, es: seq<GateEvent>)
    decreases |es|
  {
    es == [] || (LegalEvent(s, es[0]) && LegalRun(Step(s, es[0]), es[1..]))
  }

  // In every run the gate's facts are in order and no lease is counted twice.
  lemma {:induction false} EveryRunIsValid(s: GateState, es: seq<GateEvent>)
    requires s.Valid() && LegalRun(s, es)
    ensures Run(s, es).Valid()
    decreases |es|
  {
    if es != [] {
      StepKeepsValid(s, es[0]);
      EveryRunIsValid(Step(s, es[0]), es[1..]);
    }
  }

  // The event closes the gate or begins to throw its connection facts away: a
  // disconnect fence, a reset fence, an invalidation, a failed activation.
  predicate Closes(s: GateState, e: GateEvent) {
    match e
    case Accept(g, _, _, activates) =>
      && !s.blocked && s.pendingDisconnect == 0 && g > s.lastDisconnected && g >= s.latest
      && ((g > s.latest && s.live) || !activates)
    case FenceDisconnect(g) => !s.blocked && g > s.lastDisconnected && g >= s.latest && g > s.pendingDisconnect
    case ObserveDisconnect(g, _, _) =>
      !s.blocked && if s.pendingDisconnect != 0 then g == s.pendingDisconnect else g > s.lastDisconnected && g >= s.latest
    case BeginReset(_, _) => true
    case FenceReset(expected, _) => expected.None? || (!s.Closed() && expected == Some(s.latest))
    case AdmitReplacement(_, _) => false
    case Guard(_) => false
  }

  // The epoch counts exactly these events, and nothing else closes an open gate.
  lemma EpochCounts(s: GateState, e: GateEvent)
    requires s.Valid() && LegalEvent(s, e)
    ensures Step(s, e).epoch >= s.epoch
    ensures Step(s, e).epoch > s.epoch <==> Closes(s, e)
    ensures !s.Closed() && !Closes(s, e) ==> !Step(s, e).Closed()
  {
    hide Drained, Invalidated, GuardedAll, LegalWaits;
    match e
    case Accept(g, waits, invalidates, _) => if !Ignores(s, g) && g != s.latest && s.live { InvalidatedKeeps(s, waits, invalidates); }
    case ObserveDisconnect(g, waits, invalidates) =>
      var t := if !s.blocked && s.pendingDisconnect == 0 then Fenced(s, g).0 else s;
      if Observes(s, g) { InvalidatedKeeps(t, waits, invalidates); }
    case BeginReset(waits, invalidates) =>
      InvalidatedKeeps(if s.cleanupRequired then s else s.(blocked := true, invalidated := false), waits, invalidates);
    case FenceReset(_, waits) => DrainKeeps(s.EpochAdvanced().(invalidated := false, blocked := true), waits);
    case Guard(call) => GuardKeeps(s, call);
    case _ =>
  }

  // Some event of the run closed the gate.
  predicate ClosesIn(s: GateState, es: seq<GateEvent>)
    decreases |es|
  {
    es != [] && (Closes(s, es[0]) || ClosesIn(Step(s, es[0]), es[1..]))
  }

  // Epoch fence: a permit issued while the gate was open is confirmed later exactly
  // if the gate was not closed in between, however often it has reopened since.
  lemma {:induction false} ConfirmedIffNeverClosed(s: GateState, es: seq<GateEvent>)
    requires s.Valid() && !s.Closed() && LegalRun(s, es)
    ensures Run(s, es).epoch >= s.epoch
    ensures (!Run(s, es).Closed() && Run(s, es).epoch == s.epoch) <==> !ClosesIn(s, es)
    decreases |es|
  {
    if es != [] {
      var t := Step(s, es[0]);
      StepKeepsValid(s, es[0]);
      EpochCounts(s, es[0]);
      if Closes(s, es[0]) {
        EpochNeverFalls(t, es[1..]);
      } else {
        ConfirmedIffNeverClosed(t, es[1..]);
      }
    }
  }

  lemma {:induction false} EpochNeverFalls(s: GateState, es: seq<GateEvent>)
    requires s.Valid() && LegalRun(s, es)
    ensures Run(s, es).epoch >= s.epoch
    decreases |es|
  {
    if es != [] {
      StepKeepsValid(s, es[0]);
      EpochCounts(s, es[0]);
      EpochNeverFalls(Step(s, es[0]), es[1..]);
    }
  }

  // The event ends the live generation g, whatever the gate was like before: a later
  // connection or a failed activation, a disconnect of g or of a later one, a reset.
  predicate Ends(e: GateEvent, g: int) {
    match e
    case Accept(h, _, _, activates) => h > g || (h == g && !activates)
    case FenceDisconnect(h) => h >= g
    case ObserveDisconnect(h, _, _) => h >= g
    case BeginReset(_, _) => true
    case FenceReset(expected, _) => expected.None? || expected == Some(g)
    case AdmitReplacement(_, _) => false
    case Guard(_) => false
  }

  predicate EndsIn(es: seq<GateEvent>, g: int) {
    exists e :: e in es && Ends(e, g)
  }

  lemma AdmittedUntilEnded(s: GateState, e: GateEvent, g: int)
    requires s.Valid() && LegalEvent(s, e) && s.latest >= g
    ensures Step(s, e).latest >= g
    ensures !s.Admits(g) ==> !Step(s, e).Admits(g)
    ensures s.Admits(g) ==> (Step(s, e).Admits(g) <==> !Ends(e, g))
  {
    hide Drained, Invalidated, GuardedAll, LegalWaits;
    match e
    case Accept(h, waits, invalidates, _) => if !Ignores(s, h) && h != s.latest && s.live { InvalidatedKeeps(s, waits, invalidates); }
    case ObserveDisconnect(h, waits, invalidates) =>
      var t := if !s.blocked && s.pendingDisconnect == 0 then Fenced(s, h).0 else s;
      if Observes(s, h) { InvalidatedKeeps(t, waits, invalidates); }
    case BeginReset(waits, invalidates) =>
      InvalidatedKeeps(if s.cleanupRequired then s else s.(blocked := true, invalidated := false), waits, invalidates);
    case FenceReset(_, waits) => DrainKeeps(s.EpochAdvanced().(invalidated := false, blocked := true), waits);
    case Guard(call) => GuardKeeps(s, call);
    case _ =>
  }

  // Generation bracket: a generation captured now passes the check of a later local
  // settle exactly if nothing in between has ended it.
  lemma {:induction false} GenerationBracket(s: GateState, es: seq<GateEvent>, g: int)
    requires s.Valid() && s.Admits(g) && LegalRun(s, es)
    ensures Run(s, es).Admits(g) <==> !EndsIn(es, g)
    decreases |es|
  {
    if es != [] {
      var t := Step(s, es[0]);
      StepKeepsValid(s, es[0]);
      AdmittedUntilEnded(s, es[0], g);
      EndsInFirst(es, g);
      if t.Admits(g) {
        GenerationBracket(t, es[1..], g);
      } else {
        EndedForever(t, es[1..], g);
      }
    }
  }

  lemma EndsInFirst(es: seq<GateEvent>, g: int)
    requires es != []
    ensures EndsIn(es, g) <==> Ends(es[0], g) || EndsIn(es[1..], g)
  {
    assert es == [es[0]] + es[1..];
    assert forall e :: e in es <==> e == es[0] || e in es[1..];
  }

  // A callback of generation g is dropped: the gate is closed, or the generation was
  // superseded or has been disconnected.
  predicate Drops(s: GateState, g: int) {
    s.blocked || s.cleanupRequired || s.pendingDisconnect > 0 || g < s.latest || g <= s.lastDisconnected
  }

  // Once generation g is live, its callbacks are admitted, each of them, until it is
  // ended, and none of them is afterwards.
  lemma CallbacksAdmittedUntilEnded(s: GateState, es: seq<GateEvent>, g: int)
    requires s.Valid() && s.Admits(g) && LegalRun(s, es)
    ensures Drops(Run(s, es), g) <==> EndsIn(es, g)
    ensures !EndsIn(es, g) ==> Step(Run(s, es), GateEvent.Accept(g, [], true, true)) == Run(s, es)
  {
    GenerationBracket(s, es, g);
    EveryRunIsValid(s, es);
    LatestNeverFalls(s, es, g);
  }

  lemma {:induction false} LatestNeverFalls(s: GateState, es: seq<GateEvent>, g: int)
    requires s.Valid() && s.latest >= g && LegalRun(s, es)
    ensures Run(s, es).latest >= g
    decreases |es|
  {
    if es != [] {
      StepKeepsValid(s, es[0]);
      AdmittedUntilEnded(s, es[0], g);
      LatestNeverFalls(Step(s, es[0]), es[1..], g);
    }
  }

  // The same from a replacement on: the generation it publishes is live at once.
  lemma ReplacementAdmitsCallbacks(s: GateState, es: seq<GateEvent>, g: int)
    requires s.Valid() && s.blocked && s.invalidated && g > s.latest
    requires LegalRun(Step(s, AdmitReplacement(g, true)), es)
    ensures Drops(Run(Step(s, AdmitReplacement(g, true)), es), g) <==> EndsIn(es, g)
  {
    StepKeepsValid(s, AdmitReplacement(g, true));
    CallbacksAdmittedUntilEnded(Step(s, AdmitReplacement(g, true)), es, g);
  }

  lemma {:induction false} EndedForever(s: GateState, es: seq<GateEvent>, g: int)
    requires s.Valid() && s.latest >= g && !s.Admits(g) && LegalRun(s, es)
    ensures !Run(s, es).Admits(g)
    decreases |es|
  {
    if es != [] {
      StepKeepsValid(s, es[0]);
      AdmittedUntilEnded(s, es[0], g);
      EndedForever(Step(s, es[0]), es[1..], g);
    }
  }

  // ------------------------------------------------------------ the gate itself

  class AuthorityToken {
    constructor () { }
  }

  datatype OutboundPermit = OutboundPermit(epoch: int, requestMethod: string, authority: AuthorityToken)

  datatype GateError =
    | EmptyMethod
    | IngressClosed
    | DrainTimedOut
    | InvalidationFailed
    | ActivationFailed
    | CleanupWithoutFence
    | GenerationMismatch
    | CleanupIncomplete
    | NoResetFence
    | NotInvalidated
    | NotNewer
    | PublicationFailed

  class AdapterIngressGate {
    var latest: int
    var lastDisconnected: int
    var blocked: bool
    var invalidated: bool
    var cleanupRequired: bool
    var pendingDisconnect: int
    var epoch: int
    var active: int
    var live: bool
    ghost var held: set<Lease>
    const authority: AuthorityToken

    ghost function Now(): GateState
      reads this
    {
      GateState.GateState(latest, lastDisconnected, blocked, invalidated, cleanupRequired, pendingDisconnect, epoch, active, live, held)
    }

    constructor ()
      ensures Now() == INITIAL && Now().Valid()
    {
      latest, lastDisconnected, blocked, invalidated, cleanupRequired := 0, 0, false, false, false;
      pendingDisconnect, epoch, active, live, held := 0, 1, 0, false, {};
      authority := new AuthorityToken();
    }

    function Closed(): (closed: bool)
      reads this
      ensures closed == Now().Closed()
    {
      blocked || cleanupRequired || pendingDisconnect > 0
    }

    method IssueOutboundRequest(requestMethod: string) returns (r: Result<OutboundPermit, GateError>)
      ensures r.Ok? <==> requestMethod != "" && !Closed()
      ensures r.Ok? ==> r.value == OutboundPermit(epoch, requestMethod, authority)
    {
      if requestMethod == "" {
        return Err(EmptyMethod);
      }
      if Closed() {
        return Err(IngressClosed);
      }
      r := Ok(OutboundPermit(epoch, requestMethod, authority));
    }

    // The gate still stands as it did when it issued the permit.
    predicate Confirms(permit: OutboundPermit)
      reads this
    {
      permit.authority == authority && !Closed() && permit.epoch == epoch
    }

    method ConfirmOutboundRequest(permit: OutboundPermit) returns (ok: bool)
      ensures ok <==> Confirms(permit)
    {
      ok := permit.authority == authority && !(Closed() || permit.epoch != epoch);
    }

    method EnterGuard(permit: OutboundPermit, ghost lease: Lease) returns (entered: bool)
      requires lease !in held
      modifies this
      ensures entered <==> old(Confirms(permit))
      ensures active == old(active) + if entered then 1 else 0
      ensures Now() == if permit.authority == authority then Step(old(Now()), Guard(Enter(permit.epoch, lease))) else old(Now())
    {
      if permit.authority != authority || Closed() || permit.epoch != epoch {
        return false;
      }
      active := active + 1;
      held := held + {lease};
      entered := true;
    }

    method ExitGuard(ghost lease: Lease)
      requires lease in held
      modifies this
      ensures Now() == Step(old(Now()), Guard(Exit(lease)))
      ensures active == old(active) - 1
    {
      active := active - 1;
      held := held - {lease};
    }

    method CaptureGeneration() returns (g: Option<int>)
      ensures g.Some? ==> Now().Admits(g.value)
      ensures g.None? ==> !Now().Admits(latest)
    {
      if Closed() || !live || latest <= lastDisconnected {
        return None;
      }
      g := Some(latest);
    }

    // The check of `run_if_connection_generation`; the settle runs under the lock.
    method RunIfGeneration(expected: int) returns (runs: bool)
      ensures runs <==> Now().Admits(expected)
    {
      runs := !(Closed() || !live || expected != latest || expected <= lastDisconnected);
    }

    // What others do while a drain has released the lock.
    method Wait(calls: seq<GuardCall>)
      modifies this
      ensures Now() == GuardedAll(old(Now()), calls)
    {
      ghost var s := Now();
      for i := 0 to |calls|
        invariant GuardedAll(Now(), calls[i..]) == GuardedAll(s, calls)
      {
        assert calls[i..][0] == calls[i] && calls[i..][1..] == calls[i + 1..];
        match calls[i] {
          case Enter(e, lease) =>
            if !Closed() && e == epoch {
              active := active + 1;
              held := held + {lease};
            }
          case Exit(lease) =>
            active := active - 1;
            held := held - {lease};
        }
      }
    }

    method DrainOutboundTransports(waits: Waits) returns (drained: bool)
      modifies this
      ensures (Now(), drained) == Drained(old(Now()), waits)
      ensures drained ==> active == 0
    {
      ghost var s := Now();
      var i := 0;
      while active != 0
        invariant 0 <= i <= |waits|
        invariant Drained(Now(), waits[i..]) == Drained(s, waits)
        decreases |waits| - i
      {
        if i == |waits| {
          cleanupRequired, blocked := true, true;
          return false;
        }
        Wait(waits[i]);
        i := i + 1;
      }
      drained := true;
    }

    // The invalidation port runs with no write under way.
    method InvalidateConnectionFacts(waits: Waits, invalidates: bool) returns (r: Result<(), GateError>)
      modifies this
      ensures (Now(), r.Ok?) == Invalidated(old(Now()), waits, invalidates)
      ensures r.Ok? ==> active == 0
      ensures r.Err? ==> r.error in {DrainTimedOut, InvalidationFailed}
    {
      epoch := epoch + 1;
      cleanupRequired := true;
      var drained := DrainOutboundTransports(waits);
      if !drained {
        return Err(DrainTimedOut);
      }
      assert active == 0;
      if !invalidates {
        blocked := true;
        return Err(InvalidationFailed);
      }
      live, cleanupRequired := false, false;
      r := Ok(());
    }

    method Accept(generation: int, waits: Waits, invalidates: bool, activates: bool) returns (r: Result<bool, GateError>)
      requires Now().Valid() && LegalEvent(Now(), GateEvent.Accept(generation, waits, invalidates, activates))
      modifies this
      ensures Now() == Step(old(Now()), GateEvent.Accept(generation, waits, invalidates, activates))
      ensures r == Ok(false) <==> Drops(old(Now()), generation)
      ensures r == Ok(false) ==> Now() == old(Now())
      ensures old(Now()).Admits(generation) && activates ==> r == Ok(true) && Now() == old(Now())
      ensures r == Ok(true) ==>
        && latest == generation && live && lastDisconnected == old(lastDisconnected) && !Closed()
        && epoch == old(epoch) + if generation > old(latest) && old(live) then 1 else 0
      ensures r.Err? ==> blocked && cleanupRequired && live && epoch > old(epoch)
      ensures Now().Valid() && (r == Ok(true) ==> Now().Admits(generation))
    {
      hide Drained, Invalidated, GuardedAll, LegalWaits;
      StepKeepsValid(Now(), GateEvent.Accept(generation, waits, invalidates, activates));
      InvalidatedKeepsIfLegal(Now(), waits, invalidates);
      if blocked || pendingDisconnect != 0 || generation <= lastDisconnected || generation < latest {
        return Ok(false);
      }
      if generation > latest {
        if live {
          var done := InvalidateConnectionFacts(waits, invalidates);
          if done.Err? {
            return Err(done.error);
          }
        }
        latest, live := generation, true;
      }
      if !activates {
        epoch := epoch + 1;
        cleanupRequired, blocked, live := true, true, true;
        return Err(ActivationFailed);
      }
      r := Ok(true);
    }

    method FenceDisconnect(generation: int) returns (fenced: bool)
      modifies this
      ensures (Now(), fenced) == Fenced(old(Now()), generation)
      ensures fenced <==> !old(blocked) && generation > old(lastDisconnected) && generation >= old(latest)
      ensures lastDisconnected == if !old(blocked) && generation > old(lastDisconnected) then generation else old(lastDisconnected)
      ensures latest == if fenced then generation else old(latest)
      ensures fenced && generation > old(pendingDisconnect) ==> pendingDisconnect == generation && epoch == old(epoch) + 1
      ensures !(fenced && generation > old(pendingDisconnect)) ==>
        pendingDisconnect == old(pendingDisconnect) && epoch == old(epoch)
      ensures (live, active, blocked, cleanupRequired) == old((live, active, blocked, cleanupRequired))
      ensures old(Now()).Valid() ==> Now().Valid()
    {
      if blocked || generation <= lastDisconnected {
        return false;
      }
      lastDisconnected := generation;
      if generation < latest {
        return false;
      }
      latest := generation;
      if generation > pendingDisconnect {
        epoch := epoch + 1;
        pendingDisconnect := generation;
      }
      fenced := true;
    }

    method ObserveDisconnect(generation: int, waits: Waits, invalidates: bool) returns (r: Result<bool, GateError>)
      requires Now().Valid() && LegalEvent(Now(), GateEvent.ObserveDisconnect(generation, waits, invalidates))
      modifies this
      ensures Now() == Step(old(Now()), GateEvent.ObserveDisconnect(generation, waits, invalidates))
      ensures r == Ok(false) <==>
        || old(blocked)
        || (if old(pendingDisconnect) != 0 then generation != old(pendingDisconnect)
            else generation <= old(lastDisconnected) || generation < old(latest))
      ensures r != Ok(false) ==> lastDisconnected == generation == latest && pendingDisconnect == 0 && epoch > old(epoch)
      ensures r == Ok(true) ==> !live && !Closed() && active == 0
      ensures r.Err? ==> blocked && cleanupRequired
      ensures Now().Valid()
    {
      hide Drained, Invalidated, GuardedAll, LegalWaits;
      StepKeepsValid(Now(), GateEvent.ObserveDisconnect(generation, waits, invalidates));
      if blocked {
        return Ok(false);
      }
      if pendingDisconnect != 0 {
        if generation != pendingDisconnect {
          return Ok(false);
        }
      } else {
        var fenced := FenceDisconnect(generation);
        if !fenced {
          return Ok(false);
        }
      }
      InvalidatedKeepsIfLegal(Now(), waits, invalidates);
      var done := InvalidateConnectionFacts(waits, invalidates);
      pendingDisconnect := 0;
      r := if done.Ok? then Ok(true) else Err(done.error);
    }

    // The refusal of a cleanup without a fence is never reached.
    method BeginBackendReset(waits: Waits, invalidates: bool) returns (r: Result<(), GateError>)
      requires Now().Valid() && LegalEvent(Now(), BeginReset(waits, invalidates))
      modifies this
      ensures Now() == Step(old(Now()), BeginReset(waits, invalidates))
      ensures r != Err(CleanupWithoutFence)
      ensures epoch == old(epoch) + 1 && latest == old(latest) && lastDisconnected == old(lastDisconnected) && blocked
      ensures r.Ok? ==> invalidated && !cleanupRequired && !live && pendingDisconnect == 0 && active == 0
      ensures r.Err? ==> cleanupRequired
      ensures Now().Valid()
    {
      hide Drained, Invalidated, GuardedAll, LegalWaits;
      StepKeepsValid(Now(), BeginReset(waits, invalidates));
      if cleanupRequired {
        r := if blocked then Ok(()) else Err(CleanupWithoutFence);
        if r.Err? {
          return;
        }
      } else {
        blocked, invalidated := true, false;
      }
      InvalidatedKeepsIfLegal(Now(), waits, invalidates);
      r := InvalidateConnectionFacts(waits, invalidates);
      if r.Ok? {
        pendingDisconnect, invalidated := 0, true;
      }
    }

    method FenceBackendReset(expected: Option<int>, waits: Waits) returns (r: Result<(), GateError>)
      requires Now().Valid() && LegalEvent(Now(), FenceReset(expected, waits))
      modifies this
      ensures Now() == Step(old(Now()), FenceReset(expected, waits))
      ensures (r == Err(DrainTimedOut) || r.Ok?) <==>
        expected.None? || (expected.value == old(latest) && !old(Closed()))
      ensures r.Err? && r.error != DrainTimedOut ==> Now() == old(Now())
      ensures r.Ok? || r == Err(DrainTimedOut) ==> blocked && !invalidated && epoch == old(epoch) + 1
      ensures (latest, lastDisconnected, live, pendingDisconnect) == old((latest, lastDisconnected, live, pendingDisconnect))
      ensures r.Ok? ==> active == 0 && cleanupRequired == old(cleanupRequired)
      ensures r == Err(DrainTimedOut) ==> cleanupRequired
      ensures Now().Valid()
    {
      StepKeepsValid(Now(), FenceReset(expected, waits));
      DrainKeeps(Now().EpochAdvanced().(invalidated := false, blocked := true), waits);
      if expected.Some? {
        if latest != expected.value {
          return Err(GenerationMismatch);
        }
        if Closed() {
          return Err(IngressClosed);
        }
      }
      epoch := epoch + 1;
      invalidated, blocked := false, true;
      var drained := DrainOutboundTransports(waits);
      r := if drained then Ok(()) else Err(DrainTimedOut);
    }

    method AdmitBackendReplacement(generation: int, publishes: bool) returns (r: Result<(), GateError>)
      modifies this
      ensures Now() == Step(old(Now()), AdmitReplacement(generation, publishes))
      ensures r.Ok? <==>
        && !old(cleanupRequired) && old(blocked) && old(invalidated)
        && generation > old(latest) && generation > old(lastDisconnected) && publishes
      ensures r.Err? ==> Now() == old(Now())
      ensures r.Ok? ==>
        && latest == generation && live && !Closed() && !invalidated && epoch == old(epoch)
        && lastDisconnected == generation - 1
      ensures r.Ok? ==> Now().Admits(generation)
    {
      if cleanupRequired {
        return Err(CleanupIncomplete);
      }
      if !blocked {
        return Err(NoResetFence);
      }
      if !invalidated {
        return Err(NotInvalidated);
      }
      if generation <= (if latest > lastDisconnected then latest else lastDisconnected) {
        return Err(NotNewer);
      }
      if !publishes {
        return Err(PublicationFailed);
      }
      lastDisconnected := if lastDisconnected > generation - 1 then lastDisconnected else generation - 1;
      latest, live, pendingDisconnect := generation, true, 0;
      blocked, invalidated := false, false;
      r := Ok(());
    }
  }
}
