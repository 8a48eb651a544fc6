// Handles of resident bindings (bot/binding_runtime_session_authority.py).
//
// A resident object, and the handle that stands for one incarnation of it, are
// compared with `is`.  An object that returns to its binding gets a new handle.
module SessionAuthority {
  import opened Wrappers
  import opened BindingSessions

  // The mutable state of one resident binding; the authority knows nothing of it.
  class ResidentState {
    constructor () { }
  }

  datatype Incarnation = Incarnation(resident: ResidentState, handle: RuntimeHandle)

  datatype SessionError = InstalledElsewhere | StaleHandle

  // The whole authority; `minted` remembers every handle it ever handed out.
  datatype Residents = Residents(
    issuer: nat, nextIncarnation: nat, current: map<BindingKey, Incarnation>, minted: set<RuntimeHandle>)
  {
    ghost predicate Valid() {
      && (forall b :: b in current ==> current[b].handle in minted && current[b].handle.binding == b)
      && (forall b, c :: b in current && c in current && current[b].resident == current[c].resident ==> b == c)
      && (forall h :: h in minted ==> h.issuer == issuer && 1 <= h.incarnation <= nextIncarnation)
      && (forall h, k :: h in minted && k in minted && h.incarnation == k.incarnation ==> h == k)
    }

    predicate Registered(h: RuntimeHandle) {
      h.binding in current && current[h.binding].handle == h
    }

    // `require` does not raise.
    predicate Authorizes(h: RuntimeHandle, b: BindingKey, resident: ResidentState) {
      && h.issuer == issuer && h.binding == b
      && b in current && current[b] == Incarnation(resident, h)
    }

    predicate Elsewhere(b: BindingKey, resident: ResidentState) {
      exists c :: c in current && c != b && current[c].resident == resident
    }

    predicate Reinstalls(b: BindingKey, resident: ResidentState) {
      b in current && current[b].resident == resident
    }

    // A new incarnation of this object.
    function Incarnated(b: BindingKey, resident: ResidentState, h: RuntimeHandle): Residents {
      Residents(issuer, nextIncarnation + 1, current[b := Incarnation(resident, h)], minted + {h})
    }

    predicate Mintable(b: BindingKey, h: RuntimeHandle) {
      h !in minted && h.issuer == issuer && h.binding == b && h.incarnation == nextIncarnation + 1
    }
  }

  datatype SessionEvent =
    | Install(binding: BindingKey, resident: ResidentState, handle: RuntimeHandle)
    | Advance(handle: RuntimeHandle, binding: BindingKey, resident: ResidentState, successor: RuntimeHandle)
    | Retire(handle: RuntimeHandle, binding: BindingKey, resident: ResidentState)
    | RetireAll

  function Step(s: Residents, e: SessionEvent): Residents {
    match e
    case Install(b, resident, h) =>
      if s.Reinstalls(b, resident) || s.Elsewhere(b, resident) then s else s.Incarnated(b, resident, h)
    case Advance(h, b, resident, k) => if s.Authorizes(h, b, resident) then s.Incarnated(b, resident, k) else s
    case Retire(h, b, resident) => if s.Authorizes(h, b, resident) then s.(current := s.current - {b}) else s
    case RetireAll => s.(current := map[])
  }

  // What an event mints is a new handle with the fields the authority gives it.
  ghost predicate Mints(s: Residents, e: SessionEvent) {
    match e
    case Install(b, resident, h) => s.Reinstalls(b, resident) || s.Elsewhere(b, resident) || s.Mintable(b, h)
    case Advance(h, b, resident, k) => s.Authorizes(h, b, resident) ==> s.Mintable(b, k)
    case _ => true
  }

  function Run(s: Residents, es: seq<SessionEvent>): Residents
    decreases |es|
  {
    if es == [] then s else Run(Step(s, es[0]), es[1..])
  }

  ghost predicate MintsAll(s: Residents, es: seq<SessionEvent>)
    decreases |es|
  {
    es == [] || (Mints(s, es[0]) && MintsAll(Step(s, es[0]), es[1..]))
  }

  ghost predicate Evolves(s: Residents, t: Residents) {
    && s.issuer == t.issuer && s.minted <= t.minted && s.nextIncarnation <= t.nextIncarnation
    && (forall h :: h in s.minted && !s.Registered(h) ==> !t.Registered(h))
    && (forall h :: h in t.minted && h !in s.minted ==> h.incarnation > s.nextIncarnation)
  }

  lemma IncarnatedKeepsValid(s: Residents, b: BindingKey, resident: ResidentState, h: RuntimeHandle)
    requires s.Valid() && s.Mintable(b, h)
    requires !s.Elsewhere(b, resident)
    ensures s.Incarnated(b, resident, h).Valid() && Evolves(s, s.Incarnated(b, resident, h))
  {
    var t := s.Incarnated(b, resident, h);
    assert forall c :: c in t.current && c != b ==> t.current[c] == s.current[c];
  }

  lemma StepKeepsAuthority(s: Residents, e: SessionEvent)
    requires s.Valid() && Mints(s, e)
    ensures Step(s, e).Valid() && Evolves(s, Step(s, e))
  {
    match e
    case Install(b, resident, h) =>
      if !s.Reinstalls(b, resident) && !s.Elsewhere(b, resident) { IncarnatedKeepsValid(s, b, resident, h); }
    case Advance(h, b, resident, k) =>
      if s.Authorizes(h, b, resident) { IncarnatedKeepsValid(s, b, resident, k); }
    case Retire(h, b, resident) =>
    case RetireAll =>
  }

  // In every run a resident object belongs to one binding at most, handles that
  // lost authority never regain it, and later handles have later incarnations.
  lemma {:induction false} EveryRunEvolves(s: Residents, es: seq<SessionEvent>)
    requires s.Valid() && MintsAll(s, es)
    ensures Run(s, es).Valid() && Evolves(s, Run(s, es))
    decreases |es|
  {
    if es != [] {
      StepKeepsAuthority(s, es[0]);
      EveryRunEvolves(Step(s, es[0]), es[1..]);
    }
  }

  // The event takes this handle's authority away.
  predicate Withdraws(s: Residents, e: SessionEvent, h: RuntimeHandle) {
    match e
    case Install(b, resident, _) => b == h.binding && !s.Reinstalls(b, resident) && !s.Elsewhere(b, resident)
    case Advance(k, b, resident, _) => k == h && s.Authorizes(h, b, resident)
    case Retire(k, b, resident) => k == h && s.Authorizes(h, b, resident)
    case RetireAll => true
  }

  // Freedom from ABA: a handle that was replaced, rotated or retired is refused
  // from then on, even for the same object back in the same binding.
  lemma WithdrawnForever(s: Residents, e: SessionEvent, h: RuntimeHandle, es: seq<SessionEvent>,
                         b: BindingKey, resident: ResidentState)
    requires s.Valid() && h in s.minted && Mints(s, e) && Withdraws(s, e, h) && MintsAll(Step(s, e), es)
    ensures !Run(Step(s, e), es).Authorizes(h, b, resident)
  {
    StepKeepsAuthority(s, e);
    EveryRunEvolves(Step(s, e), es);
    assert !Step(s, e).Registered(h);
  }

  class BindingRuntimeSessionAuthority {
    const issuer: nat
    var nextIncarnation: nat
    var current: map<BindingKey, Incarnation>
    ghost var minted: set<RuntimeHandle>

    ghost function Now(): Residents
      reads this
    {
      Residents.Residents(issuer, nextIncarnation, current, minted)
    }

    constructor (issuer: nat)
      ensures Now() == Residents.Residents(issuer, 0, map[], {}) && Now().Valid()
    {
      this.issuer, nextIncarnation, current, minted := issuer, 0, map[], {};
    }

    method Install(b: BindingKey, resident: ResidentState) returns (r: Result<RuntimeHandle, SessionError>)
      requires Now().Valid()
      modifies this
      ensures r.Err? <==> !old(Now()).Reinstalls(b, resident) && old(Now()).Elsewhere(b, resident)
      ensures r.Err? ==> Now() == old(Now())
      ensures r.Ok? ==>
        && Mints(old(Now()), SessionEvent.Install(b, resident, r.value))
        && Now() == Step(old(Now()), SessionEvent.Install(b, resident, r.value))
        && Now().Authorizes(r.value, b, resident)
      ensures r.Err? <==>
        && !(b in old(current) && old(current)[b].resident == resident)
        && exists c :: c in old(current) && c != b && old(current)[c].resident == resident
      ensures r.Ok? ==>
        && b in current && current[b].resident == resident && current[b].handle == r.value
        && current - {b} == old(current) - {b} && r.value.issuer == issuer && r.value.binding == b
      ensures r.Ok? ==>
        if b in old(current) && old(current)[b].resident == resident then r.value == old(current)[b].handle
        else fresh(r.value) && r.value.incarnation == nextIncarnation == old(nextIncarnation) + 1
    {
      if b in current && current[b].resident == resident {
        return Ok(current[b].handle);
      }
      var others := current.Keys;
      while others != {}
        invariant others <= current.Keys
        invariant forall c :: c in current && c !in others && c != b ==> current[c].resident != resident
      {
        var c :| c in others;
        if c != b && current[c].resident == resident {
          return Err(InstalledElsewhere);
        }
        others := others - {c};
      }
      nextIncarnation := nextIncarnation + 1;
      var handle := new RuntimeHandle(issuer, b, nextIncarnation);
      current := current[b := Incarnation(resident, handle)];
      minted := minted + {handle};
      r := Ok(handle);
    }

    // Rotate the handle of an object that stays: the old one is popped first, so
    // the object is found nowhere and gets a new incarnation.
    method Advance(handle: RuntimeHandle, b: BindingKey, resident: ResidentState) returns (r: Result<RuntimeHandle, SessionError>)
      requires Now().Valid()
      modifies this
      ensures r.Ok? <==> old(Now()).Authorizes(handle, b, resident)
      ensures r.Err? ==> Now() == old(Now())
      ensures r.Ok? ==>
        && Mints(old(Now()), SessionEvent.Advance(handle, b, resident, r.value))
        && Now() == Step(old(Now()), SessionEvent.Advance(handle, b, resident, r.value))
        && Now().Authorizes(r.value, b, resident) && !Now().Registered(handle)
      ensures r.Ok? ==>
        && fresh(r.value) && r.value.incarnation == old(nextIncarnation) + 1
        && b in current && current[b].resident == resident && current[b].handle == r.value
        && current - {b} == old(current) - {b}
    {
      var ok := Require(handle, b, resident);
      if !ok {
        return Err(StaleHandle);
      }
      ghost var before := current;
      current := current - {b};
      r := Install(b, resident);
      assert before - {b} + map[b := current[b]] == before[b := current[b]];
    }

    function Current(b: BindingKey, resident: ResidentState): (h: Option<RuntimeHandle>)
      reads this
      ensures h.Some? <==> Now().Reinstalls(b, resident)
    {
      if b in current && current[b].resident == resident then Some(current[b].handle) else None
    }

    method Require(handle: RuntimeHandle, b: BindingKey, resident: ResidentState) returns (ok: bool)
      ensures ok <==> Now().Authorizes(handle, b, resident)
      ensures ok <==>
        && handle.issuer == issuer && handle.binding == b && b in current
        && current[b].handle == handle && current[b].resident == resident
    {
      ok := handle.issuer == issuer && handle.binding == b && b in current
            && current[b].handle == handle && current[b].resident == resident;
    }

    method Retire(handle: RuntimeHandle, b: BindingKey, resident: ResidentState) returns (ok: bool)
      modifies this
      ensures ok <==> old(Now()).Authorizes(handle, b, resident)
      ensures Now() == Step(old(Now()), SessionEvent.Retire(handle, b, resident))
      ensures current == if ok then old(current) - {b} else old(current)
    {
      ok := Require(handle, b, resident);
      if ok {
        current := current - {b};
      }
    }

    method RetireAll()
      modifies this
      ensures Now() == Step(old(Now()), SessionEvent.RetireAll)
      ensures current == map[]
    {
      current := map[];
    }
  }
}
