// Choosing the terminal reply of a turn (bot/execution_recovery_controller.py): from
// the snapshot of a thread, and from what was observed locally.
module TerminalReply {
  import opened Wrappers

  // An item of a turn.  An agent message may lack its text; its phase may not
  // allow it to be terminal, and it may still be in progress.
  datatype Item =
    | AgentMessage(text: Option<string>, phaseAllowsTerminal: bool, inProgress: bool, id: string)
    | InvalidatingWork
    | OtherItem

  datatype Turn = Turn(id: string, inProgress: bool, items: seq<Item>, errorText: string)

  datatype Kind = Unavailable | AgentEmpty | TurnError | AgentText {
    function Rank(): nat {
      match this
      case Unavailable => 0
      case AgentEmpty => 1
      case TurnError => 2
      case AgentText => 3
    }

    predicate FromAgent() {
      AgentEmpty? || AgentText?
    }
  }

  datatype Projection = Projection(kind: Kind, finalText: string, turnId: string, invalidatesLocal: bool)

  predicate Blank(s: string) {
    forall i :: 0 <= i < |s| ==> s[i] in {' ', '\t', '\n', '\r'}
  }

  function TextOf(item: Item): string {
    if item.AgentMessage? && item.text.Some? then item.text.value else ""
  }

  // Index of the last agent message, -1 when there is none.
  function LastAgent(items: seq<Item>): (i: int)
    ensures -1 <= i < |items|
    ensures i >= 0 ==> items[i].AgentMessage?
    ensures forall j :: i < j < |items| ==> !items[j].AgentMessage?
  {
    if items == [] then -1
    else if items[|items| - 1].AgentMessage? then |items| - 1
    else LastAgent(items[..|items| - 1])
  }

  predicate HasWork(items: seq<Item>) {
    InvalidatingWork in items
  }

  // The last agent message may be the turn's reply.
  predicate Candidate(t: Turn) {
    var i := LastAgent(t.items);
    && i >= 0 && !t.inProgress && !t.items[i].inProgress
    && !HasWork(t.items[i + 1..]) && t.items[i].text.Some? && t.items[i].phaseAllowsTerminal
  }

  // What was observed locally of this turn's agent messages is superseded.
  predicate Invalidates(t: Turn) {
    var i := LastAgent(t.items);
    if i < 0 then HasWork(t.items)
    else
      var previous := LastAgent(t.items[..i]);
      || HasWork(t.items[i + 1..]) || t.items[i].text.None? || !t.items[i].phaseAllowsTerminal
      || (previous >= 0 && Blank(TextOf(t.items[i]))
          && (HasWork(t.items[previous + 1..i]) || !Blank(TextOf(t.items[previous]))))
      || (Candidate(t) && Blank(TextOf(t.items[i])))
  }

  // What one turn says, if it says anything: an agent's text, an error, an empty
  // reply, or that its agent's message is not the reply.
  function Verdict(t: Turn): Option<Projection> {
    var i := LastAgent(t.items);
    if Candidate(t) && !Blank(TextOf(t.items[i])) then Some(Projection(AgentText, TextOf(t.items[i]), t.id, Invalidates(t)))
    else if t.errorText != "" && !t.inProgress then Some(Projection(TurnError, t.errorText, t.id, Invalidates(t)))
    else if Candidate(t) then Some(Projection(AgentEmpty, "", t.id, Invalidates(t)))
    else if i >= 0 then Some(Projection(Unavailable, "", t.id, Invalidates(t)))
    else None
  }

  // The last turn that says something decides; if none does, the last turn only
  // tells whether local evidence holds, under the last turn id there is.
  function LastVerdict(turns: seq<Turn>): Option<Projection> {
    if turns == [] then None
    else if Verdict(turns[|turns| - 1]).Some? then Verdict(turns[|turns| - 1])
    else LastVerdict(turns[..|turns| - 1])
  }

  function LastTurnId(turns: seq<Turn>): string {
    if turns == [] then "" else if turns[|turns| - 1].id != "" then turns[|turns| - 1].id
    else LastTurnId(turns[..|turns| - 1])
  }

  function Projected(turns: seq<Turn>): Projection {
    if LastVerdict(turns).Some? then LastVerdict(turns).value
    else Projection(Unavailable, "", LastTurnId(turns), turns != [] && Invalidates(turns[|turns| - 1]))
  }

  // The last turn with this id.
  function Matched(turns: seq<Turn>, id: string): (m: Option<Turn>)
    ensures m.Some? ==> m.value in turns && m.value.id == id
    ensures m.None? ==> forall t :: t in turns ==> t.id != id
  {
    if turns == [] then None
    else if turns[|turns| - 1].id == id then Some(turns[|turns| - 1])
    else Matched(turns[..|turns| - 1], id)
  }

  function SnapshotProjection(turns: seq<Turn>, turnId: string): Projection {
    if turnId == "" then Projected(turns)
    else
      match Matched(turns, turnId)
      case None => Projection(Unavailable, "", "", false)
      case Some(t) => Projected([t])
  }

  // ------------------------------------------------ what the verdict means

  ghost predicate LastAgentAt(t: Turn, i: int) {
    && 0 <= i < |t.items| && t.items[i].AgentMessage?
    && forall j :: i < j < |t.items| ==> !t.items[j].AgentMessage?
  }

  // The agent message before the last one.
  ghost predicate AgentBefore(t: Turn, p: int, i: int) {
    && 0 <= p < i <= |t.items| && t.items[p].AgentMessage?
    && forall j :: p < j < i ==> !t.items[j].AgentMessage?
  }

  ghost predicate NoWork(t: Turn, from: int, to: int) {
    forall j :: 0 <= from <= j < to <= |t.items| ==> !t.items[j].InvalidatingWork?
  }

  // The message has a text with something to read in it.
  ghost predicate Speaks(item: Item) {
    && item.AgentMessage? && item.text.Some?
    && exists k :: 0 <= k < |item.text.value| && item.text.value[k] !in {' ', '\t', '\n', '\r'}
  }

  // The message is finished, in a finished turn, in a terminal phase, with a text, and
  // no work comes after it.
  ghost predicate Terminal(t: Turn, i: int) {
    && LastAgentAt(t, i) && !t.inProgress && !t.items[i].inProgress
    && t.items[i].text.Some? && t.items[i].phaseAllowsTerminal && NoWork(t, i + 1, |t.items|)
  }

  ghost predicate EndsWithText(t: Turn, i: int) {
    Terminal(t, i) && Speaks(t.items[i])
  }

  ghost predicate Failed(t: Turn) {
    t.errorText != "" && !t.inProgress
  }

  lemma LastAgentIs(t: Turn, i: int)
    ensures LastAgentAt(t, i) <==> i == LastAgent(t.items) >= 0
  {
  }

  lemma WorkAfter(t: Turn, from: int, to: int)
    requires 0 <= from <= to <= |t.items|
    ensures HasWork(t.items[from..to]) <==> !NoWork(t, from, to)
  {
    if j :| from <= j < to && t.items[j].InvalidatingWork? {
      assert t.items[from..to][j - from] == InvalidatingWork;
    }
  }

  lemma BlankIs(item: Item)
    requires item.AgentMessage?
    ensures Blank(TextOf(item)) <==> !Speaks(item)
  {
  }

  // The last agent message may be the reply exactly if it is terminal.
  lemma CandidateIs(t: Turn, i: int)
    requires LastAgentAt(t, i)
    ensures Candidate(t) <==> Terminal(t, i)
  {
    LastAgentIs(t, i);
    WorkAfter(t, i + 1, |t.items|);
    assert t.items[i + 1..|t.items|] == t.items[i + 1..];
  }

  // What a turn says: its last agent message if that is terminal and speaks; or else the
  // error it failed with; or an empty reply if the message is terminal; or, with any
  // other agent message, that there is no reply; or nothing.
  lemma VerdictOnFields(t: Turn)
    ensures Verdict(t).Some? && Verdict(t).value.kind.AgentText? <==> exists i :: EndsWithText(t, i)
    ensures forall i :: EndsWithText(t, i) ==> Verdict(t).value.finalText == t.items[i].text.value
    ensures Verdict(t).Some? && Verdict(t).value.kind.TurnError? <==> Failed(t) && forall i :: !EndsWithText(t, i)
    ensures Verdict(t).Some? && Verdict(t).value.kind.TurnError? ==> Verdict(t).value.finalText == t.errorText
    ensures Verdict(t).Some? && Verdict(t).value.kind.AgentEmpty? <==>
      t.errorText == "" && exists i :: Terminal(t, i) && !Speaks(t.items[i])
    ensures Verdict(t).Some? <==> Failed(t) || exists i :: LastAgentAt(t, i)
    ensures Verdict(t).Some? ==> Verdict(t).value.turnId == t.id && Verdict(t).value.invalidatesLocal == Invalidates(t)
  {
    hide Invalidates, Candidate, HasWork;
    var i := LastAgent(t.items);
    forall j ensures LastAgentAt(t, j) <==> j == i >= 0 {
      LastAgentIs(t, j);
    }
    if i >= 0 {
      CandidateIs(t, i);
      BlankIs(t.items[i]);
      assert EndsWithText(t, i) <==> Terminal(t, i) && Speaks(t.items[i]);
    } else {
      NoAgentNoCandidate(t);
    }
  }

  lemma NoAgentNoCandidate(t: Turn)
    requires LastAgent(t.items) < 0
    ensures !Candidate(t)
  {
  }

  // What was observed locally of this turn's agent stands: nothing superseded it.
  ghost predicate LocalStands(t: Turn) {
    && ((forall i :: !LastAgentAt(t, i)) ==> NoWork(t, 0, |t.items|))
    && forall i :: LastAgentAt(t, i) ==> StandsAt(t, i)
  }

  ghost predicate StandsAt(t: Turn, i: int)
    requires 0 <= i < |t.items| && t.items[i].AgentMessage?
  {
    && NoWork(t, i + 1, |t.items|) && t.items[i].text.Some? && t.items[i].phaseAllowsTerminal
    && (!Speaks(t.items[i]) ==>
          && (t.inProgress || t.items[i].inProgress)
          && forall p :: AgentBefore(t, p, i) ==> NoWork(t, p + 1, i) && !Speaks(t.items[p]))
  }

  lemma InvalidatesOnFields(t: Turn)
    ensures Invalidates(t) <==> !LocalStands(t)
  {
    hide Invalidates, LocalStands, LastAgentAt;
    var i := LastAgent(t.items);
    LastAgentIs(t, i);
    if i < 0 {
      SilentInvalidates(t);
    } else {
      SpokenInvalidates(t, i);
    }
  }

  lemma SilentInvalidates(t: Turn)
    requires LastAgent(t.items) < 0
    ensures Invalidates(t) <==> !LocalStands(t)
  {
    hide Candidate, HasWork, Blank, Speaks, NoWork;
    forall j ensures !LastAgentAt(t, j) {
      LastAgentIs(t, j);
    }
    WorkAfter(t, 0, |t.items|);
    assert t.items[0..|t.items|] == t.items;
  }

  lemma SpokenInvalidates(t: Turn, i: int)
    requires LastAgentAt(t, i) && LastAgent(t.items) == i
    ensures Invalidates(t) <==> !LocalStands(t)
  {
    hide Invalidates, LocalStands, StandsAt, Candidate, HasWork, Blank, Speaks, NoWork, AgentBefore, LastAgent, Terminal;
    var q := LastAgent(t.items[..i]);
    StandsIfLastStands(t, i);
    CandidateIs(t, i);
    TerminalAt(t, i);
    BlankIs(t.items[i]);
    WorkBehind(t, i);
    InvalidatesAt(t, i, q);
    StandsAfter(t, i, q);
    if q >= 0 {
      BlankIs(t.items[q]);
      WorkAfter(t, q + 1, i);
    }
  }

  lemma StandsIfLastStands(t: Turn, i: int)
    requires LastAgentAt(t, i)
    ensures LocalStands(t) <==> StandsAt(t, i)
  {
    hide StandsAt, NoWork;
  }

  lemma TerminalAt(t: Turn, i: int)
    requires LastAgentAt(t, i)
    ensures Terminal(t, i) <==>
      && !t.inProgress && !t.items[i].inProgress && t.items[i].text.Some? && t.items[i].phaseAllowsTerminal
      && NoWork(t, i + 1, |t.items|)
  {
    hide NoWork;
  }

  lemma WorkBehind(t: Turn, i: int)
    requires 0 <= i < |t.items|
    ensures HasWork(t.items[i + 1..]) <==> !NoWork(t, i + 1, |t.items|)
  {
    hide HasWork, NoWork;
    WorkAfter(t, i + 1, |t.items|);
    assert t.items[i + 1..|t.items|] == t.items[i + 1..];
  }

  // What supersedes the last agent message, and what the one before it adds.
  lemma InvalidatesAt(t: Turn, i: int, q: int)
    requires LastAgentAt(t, i) && i == LastAgent(t.items) && q == LastAgent(t.items[..i])
    ensures -1 <= q < i && (q >= 0 ==> t.items[q].AgentMessage?)
    ensures Invalidates(t) <==>
      || HasWork(t.items[i + 1..]) || t.items[i].text.None? || !t.items[i].phaseAllowsTerminal
      || (q >= 0 && Blank(TextOf(t.items[i])) && (HasWork(t.items[q + 1..i]) || !Blank(TextOf(t.items[q]))))
      || (Candidate(t) && Blank(TextOf(t.items[i])))
  {
    hide HasWork, Blank, Candidate, TextOf;
    assert q >= 0 ==> t.items[..i][q] == t.items[q];
  }

  lemma StandsAfter(t: Turn, i: int, q: int)
    requires 0 <= i < |t.items| && t.items[i].AgentMessage? && q == LastAgent(t.items[..i]) && q < i
    ensures StandsAt(t, i) <==>
      && NoWork(t, i + 1, |t.items|) && t.items[i].text.Some? && t.items[i].phaseAllowsTerminal
      && (!Speaks(t.items[i]) ==>
            && (t.inProgress || t.items[i].inProgress)
            && (q >= 0 ==> NoWork(t, q + 1, i) && !Speaks(t.items[q])))
  {
    hide NoWork, Speaks, AgentBefore;
    forall p ensures AgentBefore(t, p, i) <==> p == q >= 0 {
      BeforeIs(t, p, i);
    }
  }

  lemma BeforeIs(t: Turn, p: int, i: int)
    requires 0 <= i <= |t.items|
    ensures AgentBefore(t, p, i) <==> p == LastAgent(t.items[..i]) >= 0
  {
    if AgentBefore(t, p, i) {
      assert t.items[..i][p].AgentMessage?;
    }
  }

  lemma OneTurn(t: Turn)
    ensures LastVerdict([t]) == Verdict(t)
  {
    assert [t][..0] == [];
  }

  // Turn k is the last one that says anything.
  predicate Decides(turns: seq<Turn>, k: int) {
    0 <= k < |turns| && Verdict(turns[k]).Some? && forall m :: k < m < |turns| ==> Verdict(turns[m]).None?
  }

  lemma {:induction false} LastVerdictDecides(turns: seq<Turn>)
    ensures LastVerdict(turns).Some? <==> exists k :: Decides(turns, k)
    ensures forall k :: Decides(turns, k) ==> LastVerdict(turns) == Verdict(turns[k])
  {
    hide Verdict;
    if turns != [] {
      var front, n := turns[..|turns| - 1], |turns| - 1;
      LastVerdictDecides(front);
      if Verdict(turns[n]).Some? {
        assert Decides(turns, n);
      } else {
        assert forall k :: Decides(turns, k) ==> k < n && Decides(front, k);
        assert forall k :: Decides(front, k) ==> Decides(turns, k);
      }
    }
  }

  // The turn that answers for a snapshot: the last one with the id asked for, or, when
  // none is asked for, the last one that has an agent message or failed.
  ghost predicate Answers(turns: seq<Turn>, turnId: string, k: int) {
    && 0 <= k < |turns|
    && if turnId != "" then turns[k].id == turnId && forall m :: k < m < |turns| ==> turns[m].id != turnId
       else Tells(turns[k]) && forall m :: k < m < |turns| ==> !Tells(turns[m])
  }

  ghost predicate Tells(t: Turn) {
    Failed(t) || exists i :: LastAgentAt(t, i)
  }

  // The answer of one turn, on its fields.
  ghost predicate AnswerOf(t: Turn, r: Projection) {
    && (r.kind.AgentText? <==> exists i :: EndsWithText(t, i))
    && (forall i :: EndsWithText(t, i) ==> r.finalText == t.items[i].text.value)
    && (r.kind.TurnError? <==> Failed(t) && forall i :: !EndsWithText(t, i))
    && (r.kind.TurnError? ==> r.finalText == t.errorText)
    && (r.kind.AgentEmpty? <==> t.errorText == "" && exists i :: Terminal(t, i) && !Speaks(t.items[i]))
    && r.turnId == t.id && (r.invalidatesLocal <==> !LocalStands(t))
  }

  // Without a turn that answers there is no reply; of all turns the last one still says
  // whether local evidence stands.
  ghost predicate Unanswered(turns: seq<Turn>, turnId: string, r: Projection) {
    && r.kind.Unavailable? && r.finalText == ""
    && (r.invalidatesLocal <==> turnId == "" && turns != [] && !LocalStands(turns[|turns| - 1]))
  }

  lemma VerdictAnswers(t: Turn)
    ensures Verdict(t).Some? <==> Tells(t)
    ensures Verdict(t).Some? ==> AnswerOf(t, Verdict(t).value)
    ensures Verdict(t).None? ==> AnswerOf(t, Projection(Unavailable, "", t.id, Invalidates(t)))
  {
    hide Verdict, EndsWithText, Terminal, LocalStands, Speaks, LastAgentAt, Invalidates;
    VerdictOnFields(t);
    InvalidatesOnFields(t);
    if Verdict(t).None? {
      SilentTurn(t);
    }
  }

  lemma SilentTurn(t: Turn)
    requires !Tells(t)
    ensures forall i :: !EndsWithText(t, i) && !Terminal(t, i)
  {
  }

  // The projection of a snapshot is the answer of the turn that answers for it; without
  // one it is unavailable.
  lemma ProjectionAnswers(turns: seq<Turn>, turnId: string)
    ensures forall k :: Answers(turns, turnId, k) ==> AnswerOf(turns[k], SnapshotProjection(turns, turnId))
    ensures (forall k :: !Answers(turns, turnId, k)) ==> Unanswered(turns, turnId, SnapshotProjection(turns, turnId))
  {
    hide Verdict, AnswerOf, Tells, Invalidates, LocalStands, LastTurnId;
    if turns != [] {
      InvalidatesOnFields(turns[|turns| - 1]);
    }
    if turnId == "" {
      LastVerdictDecides(turns);
      forall k | 0 <= k < |turns|
        ensures Verdict(turns[k]).Some? <==> Tells(turns[k])
        ensures Verdict(turns[k]).Some? ==> AnswerOf(turns[k], Verdict(turns[k]).value)
      {
        VerdictAnswers(turns[k]);
      }
      forall k ensures Answers(turns, turnId, k) <==> Decides(turns, k) {
      }
    } else {
      MatchedIsLast(turns, turnId);
      var t := Matched(turns, turnId);
      if t.Some? {
        OneTurn(t.value);
        OneTurnId(t.value);
        VerdictAnswers(t.value);
      }
    }
  }

  lemma OneTurnId(t: Turn)
    ensures LastTurnId([t]) == t.id
  {
    assert [t][..0] == [];
  }

  lemma {:induction false} MatchedIsLast(turns: seq<Turn>, id: string)
    requires id != ""
    ensures Matched(turns, id).Some? <==> exists k :: Answers(turns, id, k)
    ensures forall k :: Answers(turns, id, k) ==> Matched(turns, id) == Some(turns[k])
  {
    if turns != [] {
      var front, n := turns[..|turns| - 1], |turns| - 1;
      MatchedIsLast(front, id);
      if turns[n].id == id {
        assert Answers(turns, id, n);
      } else {
        assert forall k :: Answers(turns, id, k) ==> k < n && Answers(front, id, k);
        assert forall k :: Answers(front, id, k) ==> Answers(turns, id, k);
      }
    }
  }

  // A snapshot offers an agent's text exactly if the turn that answers for it is
  // finished and ends with a finished message in a terminal phase that says something,
  // with no work after it.
  lemma AgentTextIff(turns: seq<Turn>, turnId: string)
    ensures SnapshotProjection(turns, turnId).kind.AgentText? <==>
      exists k, i {:trigger Answers(turns, turnId, k), turns[k].items[i]} ::
        && Answers(turns, turnId, k)
        && !turns[k].inProgress && LastAgentAt(turns[k], i) && !turns[k].items[i].inProgress
        && turns[k].items[i].phaseAllowsTerminal && Speaks(turns[k].items[i])
        && forall j :: i < j < |turns[k].items| ==> !turns[k].items[j].InvalidatingWork?
  {
    hide Verdict, Speaks, Invalidates, LocalStands, SnapshotProjection;
    ProjectionAnswers(turns, turnId);
    var p := SnapshotProjection(turns, turnId);
    forall k, i | Answers(turns, turnId, k) && LastAgentAt(turns[k], i)
      ensures EndsWithText(turns[k], i) <==>
        && !turns[k].inProgress && !turns[k].items[i].inProgress && turns[k].items[i].phaseAllowsTerminal
        && Speaks(turns[k].items[i]) && forall j :: i < j < |turns[k].items| ==> !turns[k].items[j].InvalidatingWork?
    {
      SpeakingHasText(turns[k].items[i]);
    }
    if p.kind.AgentText? {
      var k :| Answers(turns, turnId, k);
      var i :| EndsWithText(turns[k], i);
    }
  }

  lemma SpeakingHasText(item: Item)
    ensures Speaks(item) ==> item.AgentMessage? && item.text.Some?
  {
  }

  method FindMatched(turns: seq<Turn>, id: string) returns (m: Option<Turn>)
    ensures m == Matched(turns, id)
  {
    m := None;
    for i := 0 to |turns|
      invariant m == Matched(turns[..i], id)
    {
      assert turns[..i + 1][..i] == turns[..i];
      if turns[i].id == id {
        m := Some(turns[i]);
      }
    }
    assert turns[..|turns|] == turns;
  }

  // The loop over the turns of a snapshot, last one first.
  method SnapshotReply(turns: seq<Turn>, turnId: string) returns (r: Projection)
    ensures r == SnapshotProjection(turns, turnId)
    ensures forall k :: Answers(turns, turnId, k) ==> AnswerOf(turns[k], r)
    ensures (forall k :: !Answers(turns, turnId, k)) ==> Unanswered(turns, turnId, r)
  {
    hide Answers, AnswerOf, Unanswered;
    ProjectionAnswers(turns, turnId);
    if turnId == "" {
      r := ProjectTurns(turns);
    } else {
      var matched := FindMatched(turns, turnId);
      if matched.None? {
        return Projection(Unavailable, "", "", false);
      }
      r := ProjectTurns([matched.value]);
    }
  }

  method ProjectTurns(targets: seq<Turn>) returns (r: Projection)
    ensures r == Projected(targets)
  {
    hide Invalidates, HasWork, Blank;
    var fallbackId, fallbackInvalidates, fallbackSet := "", false, false;
    var i := |targets|;
    assert targets[..i] == targets;
    while i > 0
      invariant 0 <= i <= |targets|
      invariant LastVerdict(targets) == LastVerdict(targets[..i])
      invariant LastTurnId(targets) == if fallbackId != "" then fallbackId else LastTurnId(targets[..i])
      invariant fallbackSet <==> i < |targets|
      invariant fallbackInvalidates <==> fallbackSet && Invalidates(targets[|targets| - 1])
    {
      assert targets[..i][..i - 1] == targets[..i - 1];
      i := i - 1;
      var turn := targets[i];
      if fallbackId == "" {
        fallbackId := turn.id;
      }
      var last := LastAgent(turn.items);
      var candidate := Candidate(turn);
      var invalidates := Invalidates(turn);
      if !fallbackSet {
        fallbackInvalidates, fallbackSet := invalidates, true;
      }
      if candidate && !Blank(TextOf(turn.items[last])) {
        return Projection(AgentText, TextOf(turn.items[last]), turn.id, invalidates);
      }
      if turn.errorText != "" && !turn.inProgress {
        return Projection(TurnError, turn.errorText, turn.id, invalidates);
      }
      if candidate {
        return Projection(AgentEmpty, "", turn.id, invalidates);
      }
      if last >= 0 {
        return Projection(Unavailable, "", turn.id, invalidates);
      }
    }
    r := Projection(Unavailable, "", fallbackId, fallbackInvalidates);
  }

  // --------------------------------------------------------------- selection

  datatype LocalEvidence = NoEvidence | AgentEvidence(text: string) | ErrorEvidence(text: string)

  datatype Source = FromSnapshot | FromLocal | FromNone

  datatype Selection = Selection(kind: Kind, source: Source, finalText: string)

  function LocalKind(e: LocalEvidence): Kind {
    match e
    case NoEvidence => Unavailable
    case ErrorEvidence(_) => TurnError
    case AgentEvidence(text) => if Blank(text) then AgentEmpty else AgentText
  }

  // What remains of the local evidence beside this projection.
  function Surviving(p: Projection, e: LocalEvidence): LocalEvidence {
    if p.invalidatesLocal && e.AgentEvidence? then NoEvidence else e
  }

  function LocalText(e: LocalEvidence): string {
    if e.NoEvidence? then "" else e.text
  }

  ghost predicate Readable(s: string) {
    exists k :: 0 <= k < |s| && s[k] !in {' ', '\t', '\n', '\r'}
  }

  // Which answer is chosen, case by case: a text first, the snapshot's before the local
  // one; then an error, then an empty reply, in the same order.  Local agent text or
  // emptiness counts only while the snapshot does not supersede it.
  ghost predicate Chosen(p: Projection, e: LocalEvidence, r: Selection) {
    var localText := e.AgentEvidence? && Readable(e.text) && !p.invalidatesLocal;
    var localEmpty := e.AgentEvidence? && !Readable(e.text) && !p.invalidatesLocal;
    if p.kind.AgentText? then r == Selection(AgentText, FromSnapshot, p.finalText)
    else if localText then r == Selection(AgentText, FromLocal, e.text)
    else if p.kind.TurnError? then r == Selection(TurnError, FromSnapshot, p.finalText)
    else if e.ErrorEvidence? then r == Selection(TurnError, FromLocal, e.text)
    else if p.kind.AgentEmpty? then r == Selection(AgentEmpty, FromSnapshot, p.finalText)
    else if localEmpty then r == Selection(AgentEmpty, FromLocal, e.text)
    else r == Selection(Unavailable, FromNone, "")
  }

  // The better of two answers, the snapshot's if they are equal.
  method SelectTerminalReply(p: Projection, e: LocalEvidence) returns (r: Selection)
    ensures r.kind.Rank() >= p.kind.Rank() && r.kind.Rank() >= LocalKind(Surviving(p, e)).Rank()
    ensures r.source.FromNone? <==> r.kind.Unavailable?
    ensures r.source.FromSnapshot? <==> !p.kind.Unavailable? && p.kind.Rank() >= LocalKind(Surviving(p, e)).Rank()
    ensures r.source.FromSnapshot? ==> r.kind == p.kind && r.finalText == p.finalText
    ensures r.source.FromLocal? ==> r.kind == LocalKind(Surviving(p, e)) && r.finalText == LocalText(Surviving(p, e))
    ensures r.source.FromNone? ==> r.finalText == ""
    ensures Chosen(p, e, r)
  {
    var localKind := LocalKind(e);
    var localText := LocalText(e);
    if p.invalidatesLocal && localKind.FromAgent() {
      localKind, localText := Unavailable, "";
    }
    if !p.kind.Unavailable? && p.kind.Rank() >= localKind.Rank() {
      return Selection(p.kind, FromSnapshot, p.finalText);
    }
    if !localKind.Unavailable? {
      return Selection(localKind, FromLocal, localText);
    }
    r := Selection(Unavailable, FromNone, "");
  }

  // The last agent message of this turn is followed by work that supersedes it,
  // or has no text, or a phase that is not terminal.
  ghost predicate Superseded(t: Turn) {
    exists i :: 0 <= i < |t.items| && t.items[i].AgentMessage?
      && (forall j :: i < j < |t.items| ==> !t.items[j].AgentMessage?)
      && (t.items[i].text.None? || !t.items[i].phaseAllowsTerminal || exists j :: i < j < |t.items| && t.items[j].InvalidatingWork?)
  }

  lemma SupersededInvalidates(t: Turn)
    requires Superseded(t)
    ensures !Candidate(t) && Invalidates(t) && LastAgent(t.items) >= 0
  {
    var i :| 0 <= i < |t.items| && t.items[i].AgentMessage?
      && (forall j :: i < j < |t.items| ==> !t.items[j].AgentMessage?)
      && (t.items[i].text.None? || !t.items[i].phaseAllowsTerminal || exists j :: i < j < |t.items| && t.items[j].InvalidatingWork?);
    assert LastAgent(t.items) == i;
    if j :| i < j < |t.items| && t.items[j].InvalidatingWork? {
      assert t.items[i + 1..][j - i - 1] == InvalidatingWork;
    }
  }

  // Once the matched turn's agent message is superseded, no agent text is chosen,
  // neither the snapshot's nor the local one: it is its error, or a local error,
  // or nothing.
  lemma SupersededIsNotChosen(turns: seq<Turn>, turnId: string, t: Turn, e: LocalEvidence)
    requires turnId != "" && Matched(turns, turnId) == Some(t) && Superseded(t)
    ensures var p := SnapshotProjection(turns, turnId);
      && !p.kind.FromAgent() && p.invalidatesLocal && p.turnId == turnId
      && !LocalKind(Surviving(p, e)).FromAgent()
      && (p.kind.TurnError? <==> t.errorText != "" && !t.inProgress)
  {
    SupersededInvalidates(t);
    OneTurn(t);
  }
}
