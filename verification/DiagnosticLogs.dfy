// Bounded diagnostic logs (bot/diagnostic_logs.py): rotation, appending, pruning.
// The directory is a map; a file that is not a regular one counts as present but
// is not a log.  All of this runs under the log lock.
module DiagnosticLogs {
  import opened Wrappers

  type Byte = x: int | 0 <= x < 256

  datatype Policy = Policy(name: string, maxBytes: nat, backups: nat)

  const POLICIES := [
    Policy("focus.log", 2 * 1024 * 1024, 3),
    Policy("fcodex.log", 512 * 1024, 31),
    Policy("service.stdout.log", 2 * 1024 * 1024, 3),
    Policy("service.stderr.log", 2 * 1024 * 1024, 3)]

  const MAX_RECORD_BYTES := 64 * 1024
  const TRUNCATION_NOTE_BYTES := 31
  const SECONDS_PER_DAY := 86400

  datatype Entry = Regular(content: seq<Byte>, modified: nat) | Irregular

  // A log is named by its policy's name and an index; 0 is the current file.
  type Path = (string, nat)
  type Directory = map<Path, Entry>

  function At(d: Directory, p: Policy, i: nat): Option<Entry> {
    if (p.name, i) in d then Some(d[(p.name, i)]) else None
  }

  // `_metadata`: only a regular file has any.
  predicate IsLog(e: Option<Entry>) {
    e.Some? && e.value.Regular?
  }

  // ----------------------------------------------------------------- rotation

  // `source.replace(target)`.
  function Moved(d: Directory, p: Policy, i: nat): Directory
    requires IsLog(At(d, p, i))
  {
    (d - {(p.name, i)})[(p.name, i + 1) := d[(p.name, i)]]
  }

  predicate Blocked(d: Directory, p: Policy, i: nat) {
    IsLog(At(d, p, i)) && At(d, p, i + 1) == Some(Irregular)
  }

  // Moves backups number `index` - 1 down to 0 up by one; stops when a target is
  // not a log.
  function Shifted(d: Directory, p: Policy, index: nat): (Directory, bool)
    decreases index
  {
    if index == 0 then (d, true)
    else if !IsLog(At(d, p, index - 1)) then Shifted(d, p, index - 1)
    else if Blocked(d, p, index - 1) then (d, false)
    else Shifted(Moved(d, p, index - 1), p, index - 1)
  }

  function Tail(content: seq<Byte>, n: nat): seq<Byte> {
    if |content| <= n then content else content[|content| - n..]
  }

  // An oversized capture of an older installation keeps its end.
  function Bounded(d: Directory, p: Policy, now: nat): Directory {
    var previous := At(d, p, 1);
    if IsLog(previous) && |previous.value.content| > p.maxBytes
    then d[(p.name, 1) := Regular(Tail(previous.value.content, p.maxBytes), now)] else d
  }

  function Rotated(d: Directory, p: Policy, now: nat): (Directory, bool) {
    var (t, done) := Shifted(d, p, p.backups);
    if done then (Bounded(t, p, now), true) else (t, false)
  }

  // What the shift of the lower indices leaves at an index.
  function Expected(d: Directory, p: Policy, index: nat, i: nat): Option<Entry> {
    if i > index then At(d, p, i)
    else if i > 0 && IsLog(At(d, p, i - 1)) then At(d, p, i - 1)
    else if i < index && IsLog(At(d, p, i)) then None
    else At(d, p, i)
  }

  // After a shift that was not blocked, backup i is the old file i - 1.
  lemma {:induction false} ShiftedExactly(d: Directory, p: Policy, index: nat)
    requires Shifted(d, p, index).1
    ensures forall i :: At(Shifted(d, p, index).0, p, i) == Expected(d, p, index, i)
    decreases index
  {
    if index > 0 {
      if IsLog(At(d, p, index - 1)) {
        var t := Moved(d, p, index - 1);
        MovedExactly(d, p, index - 1);
        ShiftedExactly(t, p, index - 1);
        forall i ensures At(Shifted(d, p, index).0, p, i) == Expected(d, p, index, i) {
          assert At(Shifted(t, p, index - 1).0, p, i) == Expected(t, p, index - 1, i);
        }
      } else {
        ShiftedExactly(d, p, index - 1);
      }
    }
  }

  lemma BoundedExactly(d: Directory, p: Policy, now: nat)
    ensures forall i {:trigger At(Bounded(d, p, now), p, i)} :: i != 1 ==> At(Bounded(d, p, now), p, i) == At(d, p, i)
    ensures IsLog(At(Bounded(d, p, now), p, 1)) <==> IsLog(At(d, p, 1))
    ensures IsLog(At(d, p, 1)) ==>
      At(Bounded(d, p, now), p, 1).value.content == Tail(At(d, p, 1).value.content, p.maxBytes)
    ensures forall q, i :: q != p.name ==> ((q, i) in Bounded(d, p, now) <==> (q, i) in d)
    ensures forall q, i :: q != p.name && (q, i) in d ==> Bounded(d, p, now)[(q, i)] == d[(q, i)]
  {
  }

  // What a move leaves at an index.
  function AfterMove(d: Directory, p: Policy, k: nat, i: nat): Option<Entry> {
    if i == k + 1 then At(d, p, k) else if i == k then None else At(d, p, i)
  }

  lemma MovedExactly(d: Directory, p: Policy, k: nat)
    requires IsLog(At(d, p, k))
    ensures forall i :: At(Moved(d, p, k), p, i) == AfterMove(d, p, k, i)
    ensures forall q, i :: q != p.name ==> ((q, i) in Moved(d, p, k) <==> (q, i) in d)
    ensures forall q, i :: q != p.name && (q, i) in d ==> Moved(d, p, k)[(q, i)] == d[(q, i)]
  {
  }

  // A rotation moves every log up by one and loses at most the last backup, which
  // stays when there is none to replace it; other policies' files are not touched.
  lemma RotationExactly(d: Directory, p: Policy, now: nat)
    requires p.backups >= 2 && Rotated(d, p, now).1
    ensures var t := Rotated(d, p, now).0;
      && (forall i :: 2 <= i <= p.backups && IsLog(At(d, p, i - 1)) ==> At(t, p, i) == At(d, p, i - 1))
      && (IsLog(At(d, p, 0)) ==>
            && IsLog(At(t, p, 1)) && At(t, p, 1).value.content == Tail(At(d, p, 0).value.content, p.maxBytes))
      && !IsLog(At(t, p, 0))
      && (forall i :: 1 <= i < p.backups && !IsLog(At(d, p, i - 1)) ==> !IsLog(At(t, p, i)))
      && (!IsLog(At(d, p, p.backups - 1)) ==> At(t, p, p.backups) == At(d, p, p.backups))
  {
    ShiftedExactly(d, p, p.backups);
    var s := Shifted(d, p, p.backups).0;
    BoundedExactly(s, p, now);
    assert forall i: nat :: i <= p.backups ==> At(s, p, i) == Expected(d, p, p.backups, i);
  }

  lemma {:induction false} ShiftedElsewhere(d: Directory, p: Policy, index: nat, q: string, i: nat)
    requires q != p.name
    ensures var t := Shifted(d, p, index).0;
      ((q, i) in t <==> (q, i) in d) && ((q, i) in d ==> t[(q, i)] == d[(q, i)])
    decreases index
  {
    if index > 0 {
      if IsLog(At(d, p, index - 1)) && !Blocked(d, p, index - 1) {
        MovedExactly(d, p, index - 1);
        ShiftedElsewhere(Moved(d, p, index - 1), p, index - 1, q, i);
      } else if !IsLog(At(d, p, index - 1)) {
        ShiftedElsewhere(d, p, index - 1, q, i);
      }
    }
  }

  // ---------------------------------------------------------------- appending

  // A record that is too long is cut and says so.
  function Rendered(record: seq<Byte>, note: seq<Byte>): (r: seq<Byte>)
    requires |note| == TRUNCATION_NOTE_BYTES
    ensures |r| <= MAX_RECORD_BYTES
  {
    if |record| > MAX_RECORD_BYTES then record[..MAX_RECORD_BYTES - 48] + note else record
  }

  predicate MustRotate(e: Entry, p: Policy, size: nat, now: nat)
    requires e.Regular?
  {
    || |e.content| + size > p.maxBytes
    || (p.name == "fcodex.log" && e.modified / SECONDS_PER_DAY != now / SECONDS_PER_DAY)
  }

  // The directory after an append, and whether the record was written.
  function Appended(d: Directory, p: Policy, record: seq<Byte>, now: nat): (Directory, bool) {
    var current := At(d, p, 0);
    var (t, ok) := if IsLog(current) && MustRotate(current.value, p, |record|, now) then Rotated(d, p, now) else (d, true);
    if !ok || At(t, p, 0) == Some(Irregular) then (t, false)
    else
      var written := if IsLog(At(t, p, 0)) then At(t, p, 0).value.content else [];
      (t[(p.name, 0) := Regular(written + record, now)], true)
  }

  // The record does not fit behind what is there, or the client log begins a new day.
  predicate BeginsFile(was: Entry, p: Policy, size: nat, now: nat) {
    && was.Regular?
    && (|was.content| + size > p.maxBytes
        || (p.name == "fcodex.log" && was.modified / (24 * 60 * 60) != now / (24 * 60 * 60)))
  }

  // What an append that succeeded leaves.  Where the record fits, it comes behind all
  // that was there and no other file changes; otherwise, what was there has become the
  // first backup and the record begins a new file.
  ghost predicate WroteBehind(d: Directory, t: Directory, p: Policy, record: seq<Byte>, now: nat) {
    var path := (p.name, 0);
    && path in t && t[path].Regular? && t[path].modified == now
    && (forall q: Path :: q.0 != p.name ==> (q in t <==> q in d) && (q in d ==> t[q] == d[q]))
    && if path in d && BeginsFile(d[path], p, |record|, now) then
         && t[path].content == record && (p.name, 1) in t && t[(p.name, 1)].Regular?
         && var was := d[path].content;
            t[(p.name, 1)].content == if |was| > p.maxBytes then was[|was| - p.maxBytes..] else was
       else
         && t[path].content == (if path in d && d[path].Regular? then d[path].content + record else record)
         && t == d[path := t[path]]
  }

  lemma RotatesToBegin(e: Entry, p: Policy, size: nat, now: nat)
    requires e.Regular?
    ensures MustRotate(e, p, size, now) <==> BeginsFile(e, p, size, now)
  {
  }

  lemma RotatedElsewhere(d: Directory, p: Policy, now: nat, q: Path)
    requires q.0 != p.name
    ensures var t := Rotated(d, p, now).0; (q in t <==> q in d) && (q in d ==> t[q] == d[q])
  {
    hide Shifted, Bounded;
    ShiftedElsewhere(d, p, p.backups, q.0, q.1);
    BoundedExactly(Shifted(d, p, p.backups).0, p, now);
    assert (q.0, q.1) == q;
  }

  lemma AppendedBehind(d: Directory, p: Policy, record: seq<Byte>, now: nat)
    requires p in POLICIES && Appended(d, p, record, now).1
    ensures WroteBehind(d, Appended(d, p, record, now).0, p, record, now)
  {
    hide MustRotate, BeginsFile, Rotated;
    PolicySizes(p);
    var t := Appended(d, p, record, now).0;
    assert [] + record == record;
    if IsLog(At(d, p, 0)) {
      RotatesToBegin(At(d, p, 0).value, p, |record|, now);
      if MustRotate(At(d, p, 0).value, p, |record|, now) {
        RotationExactly(d, p, now);
        assert At(t, p, 1) == At(Rotated(d, p, now).0, p, 1);
        forall q: Path | q.0 != p.name ensures (q in t <==> q in d) && (q in d ==> t[q] == d[q]) {
          RotatedElsewhere(d, p, now, q);
        }
      }
    } else {
      NothingBegins(d, p, |record|, now);
    }
  }

  lemma NothingBegins(d: Directory, p: Policy, size: nat, now: nat)
    requires !IsLog(At(d, p, 0))
    ensures (p.name, 0) in d ==> !BeginsFile(d[(p.name, 0)], p, size, now)
  {
  }

  ghost predicate HasIrregular(d: Directory, p: Policy, to: nat) {
    exists i: nat :: i <= to && (p.name, i) in d && d[(p.name, i)].Irregular?
  }

  lemma {:induction false} BlockedByIrregular(d: Directory, p: Policy, index: nat)
    requires !Shifted(d, p, index).1
    ensures HasIrregular(d, p, index)
    decreases index
  {
    if IsLog(At(d, p, index - 1)) && !Blocked(d, p, index - 1) {
      var t := Moved(d, p, index - 1);
      MovedExactly(d, p, index - 1);
      BlockedByIrregular(t, p, index - 1);
      var i: nat :| i <= index - 1 && (p.name, i) in t && t[(p.name, i)].Irregular?;
      assert At(t, p, i) == AfterMove(d, p, index - 1, i);
      assert At(d, p, i) == Some(Irregular);
    } else if Blocked(d, p, index - 1) {
      assert At(d, p, index) == Some(Irregular);
    } else {
      BlockedByIrregular(d, p, index - 1);
    }
  }

  // Only a file of the policy that is no log keeps a record from being written.
  lemma FailedByIrregular(d: Directory, p: Policy, record: seq<Byte>, now: nat)
    requires p in POLICIES && !Appended(d, p, record, now).1
    ensures HasIrregular(d, p, p.backups)
  {
    PolicySizes(p);
    if IsLog(At(d, p, 0)) && MustRotate(At(d, p, 0).value, p, |record|, now) {
      if Rotated(d, p, now).1 {
        RotatedIsFree(d, p, now);
      } else {
        BlockedByIrregular(d, p, p.backups);
      }
    } else {
      assert At(d, p, 0) == Some(Irregular);
    }
  }

  lemma RotatedIsFree(d: Directory, p: Policy, now: nat)
    requires p.backups >= 2 && Rotated(d, p, now).1 && IsLog(At(d, p, 0))
    ensures At(Rotated(d, p, now).0, p, 0) == None
  {
    ShiftedExactly(d, p, p.backups);
    var s := Shifted(d, p, p.backups).0;
    BoundedExactly(s, p, now);
    assert At(s, p, 0) == Expected(d, p, p.backups, 0);
    assert At(Bounded(s, p, now), p, 0) == At(s, p, 0);
  }

  ghost predicate AllBounded(d: Directory) {
    forall p, i :: p in POLICIES && IsLog(At(d, p, i)) ==> |At(d, p, i).value.content| <= p.maxBytes
  }

  ghost predicate BoundedFor(d: Directory, p: Policy) {
    forall i :: IsLog(At(d, p, i)) ==> |At(d, p, i).value.content| <= p.maxBytes
  }

  lemma {:induction false} ShiftKeepsBound(d: Directory, p: Policy, index: nat)
    requires BoundedFor(d, p)
    ensures BoundedFor(Shifted(d, p, index).0, p)
    decreases index
  {
    if index > 0 {
      if IsLog(At(d, p, index - 1)) && !Blocked(d, p, index - 1) {
        MovedExactly(d, p, index - 1);
        ShiftKeepsBound(Moved(d, p, index - 1), p, index - 1);
      } else if !IsLog(At(d, p, index - 1)) {
        ShiftKeepsBound(d, p, index - 1);
      }
    }
  }

  lemma PoliciesDiffer(p: Policy, q: Policy)
    requires p in POLICIES && q in POLICIES && p != q
    ensures p.name != q.name
  {
  }

  lemma PolicySizes(p: Policy)
    requires p in POLICIES
    ensures p.maxBytes >= MAX_RECORD_BYTES && p.backups >= 2
  {
  }

  // Every append keeps every log within its policy's size.
  lemma AppendKeepsBound(d: Directory, p: Policy, record: seq<Byte>, now: nat)
    requires AllBounded(d) && p in POLICIES && |record| <= MAX_RECORD_BYTES
    ensures AllBounded(Appended(d, p, record, now).0)
  {
    var t := Appended(d, p, record, now).0;
    forall q, i | q in POLICIES && IsLog(At(t, q, i)) ensures |At(t, q, i).value.content| <= q.maxBytes {
      if q == p {
        AppendBoundsOwn(d, p, record, now);
      } else {
        PoliciesDiffer(p, q);
        ShiftedElsewhere(d, p, p.backups, q.name, i);
        BoundedExactly(Shifted(d, p, p.backups).0, p, now);
        assert At(t, q, i) == At(d, q, i);
      }
    }
  }

  lemma AppendBoundsOwn(d: Directory, p: Policy, record: seq<Byte>, now: nat)
    requires AllBounded(d) && p in POLICIES && |record| <= MAX_RECORD_BYTES
    ensures BoundedFor(Appended(d, p, record, now).0, p)
  {
    PolicySizes(p);
    assert BoundedFor(d, p);
    ShiftKeepsBound(d, p, p.backups);
    BoundedExactly(Shifted(d, p, p.backups).0, p, now);
    if Rotated(d, p, now).1 {
      RotationExactly(d, p, now);
    }
    var t := Appended(d, p, record, now).0;
    forall i | IsLog(At(t, p, i)) ensures |At(t, p, i).value.content| <= p.maxBytes {
      if i != 0 {
        assert At(t, p, i) == At(d, p, i) || At(t, p, i) == At(Rotated(d, p, now).0, p, i);
        assert At(Rotated(d, p, now).0, p, i) == At(Shifted(d, p, p.backups).0, p, i) || i == 1;
      }
    }
  }

  datatype Append = Append(policy: Policy, record: seq<Byte>, now: nat)

  function AppendedAll(d: Directory, appends: seq<Append>): Directory
    decreases |appends|
  {
    if appends == [] then d
    else AppendedAll(Appended(d, appends[0].policy, appends[0].record, appends[0].now).0, appends[1..])
  }

  // In every run of appends no log outgrows its policy.
  lemma {:induction false} EveryRunIsBounded(d: Directory, appends: seq<Append>)
    requires AllBounded(d)
    requires forall a :: a in appends ==> a.policy in POLICIES && |a.record| <= MAX_RECORD_BYTES
    ensures AllBounded(AppendedAll(d, appends))
    decreases |appends|
  {
    if appends != [] {
      var a := appends[0];
      AppendKeepsBound(d, a.policy, a.record, a.now);
      EveryRunIsBounded(Appended(d, a.policy, a.record, a.now).0, appends[1..]);
    }
  }

  // ------------------------------------------------------------------ pruning

  datatype LogFile = LogFile(policy: Policy, index: nat, size: nat, modified: nat) {
    predicate Current() {
      index == 0
    }

    function Path(): Path {
      (policy.name, index)
    }
  }

  // The logs of a policy that exist, current one first.
  function Inventory(d: Directory, p: Policy, from: nat): (fs: seq<LogFile>)
    requires from <= p.backups + 1
    ensures |fs| <= p.backups + 1 - from
    ensures forall f :: f in fs ==> f.policy == p && from <= f.index
    decreases p.backups + 1 - from
  {
    if from == p.backups + 1 then []
    else
      var e := At(d, p, from);
      (if IsLog(e) then [LogFile(p, from, |e.value.content|, e.value.modified)] else []) + Inventory(d, p, from + 1)
  }

  function Total(fs: seq<LogFile>): nat {
    if fs == [] then 0 else fs[0].size + Total(fs[1..])
  }

  lemma {:induction false} TotalConcat(a: seq<LogFile>, b: seq<LogFile>)
    ensures Total(a + b) == Total(a) + Total(b)
    decreases |a|
  {
    if a == [] {
      assert a + b == b;
    } else {
      assert (a + b)[1..] == a[1..] + b;
      TotalConcat(a[1..], b);
    }
  }

  // Stable insertion by age, oldest first.
  function Insert(f: LogFile, fs: seq<LogFile>): seq<LogFile> {
    if fs == [] || f.modified <= fs[0].modified then [f] + fs else [fs[0]] + Insert(f, fs[1..])
  }

  function ByAge(fs: seq<LogFile>): seq<LogFile> {
    if fs == [] then [] else Insert(fs[0], ByAge(fs[1..]))
  }

  ghost predicate Aged(fs: seq<LogFile>) {
    forall i, j :: 0 <= i < j < |fs| ==> fs[i].modified <= fs[j].modified
  }

  lemma {:induction false} InsertHas(f: LogFile, fs: seq<LogFile>)
    ensures multiset(Insert(f, fs)) == multiset(fs) + multiset{f}
    ensures Total(Insert(f, fs)) == f.size + Total(fs)
    decreases |fs|
  {
    if fs != [] && f.modified > fs[0].modified {
      InsertHas(f, fs[1..]);
      assert fs == [fs[0]] + fs[1..];
    }
  }

  lemma {:induction false} InsertAged(f: LogFile, fs: seq<LogFile>)
    requires Aged(fs)
    ensures Aged(Insert(f, fs))
    ensures forall g :: g in Insert(f, fs) ==> g == f || g in fs
    decreases |fs|
  {
    if fs != [] && f.modified > fs[0].modified {
      InsertAged(f, fs[1..]);
      var r := Insert(f, fs[1..]);
      forall i, j | 0 <= i < j < |[fs[0]] + r| ensures ([fs[0]] + r)[i].modified <= ([fs[0]] + r)[j].modified {
        assert r[j - 1] in r;
      }
    }
  }

  lemma {:induction false} ByAgeHas(fs: seq<LogFile>)
    ensures multiset(ByAge(fs)) == multiset(fs) && Total(ByAge(fs)) == Total(fs)
    decreases |fs|
  {
    if fs != [] {
      ByAgeHas(fs[1..]);
      InsertHas(fs[0], ByAge(fs[1..]));
      assert fs == [fs[0]] + fs[1..];
    }
  }

  lemma {:induction false} ByAgeAged(fs: seq<LogFile>)
    ensures Aged(ByAge(fs))
    decreases |fs|
  {
    hide Aged;
    if fs != [] {
      ByAgeAged(fs[1..]);
      InsertAged(fs[0], ByAge(fs[1..]));
    } else {
      NoneAged();
    }
  }

  lemma NoneAged()
    ensures Aged([])
  {
  }

  // What pruning to a budget removes and leaves: closed logs only, oldest first, no
  // more than needed; what is left is within the budget or current.
  ghost predicate Pruned(fs: seq<LogFile>, budget: nat, removed: seq<LogFile>, left: seq<LogFile>) {
    && multiset(removed) + multiset(left) == multiset(fs)
    && (forall f :: f in removed ==> !f.Current())
    && (Total(left) <= budget || forall f :: f in left ==> f.Current())
    && (forall f, g :: f in removed && g in left && !g.Current() ==> f.modified <= g.modified)
    && (removed != [] ==>
          && Total(left) + removed[|removed| - 1].size > budget
          && forall f :: f in removed ==> f.modified <= removed[|removed| - 1].modified)
  }

  // What the loop keeps: the first i logs are removed, or kept as current ones, and
  // the size is that of what is kept or still to come.
  ghost predicate Pruning(sorted: seq<LogFile>, i: nat, budget: nat, size: nat, removed: seq<LogFile>, kept: seq<LogFile>) {
    && i <= |sorted|
    && multiset(removed) + multiset(kept) == multiset(sorted[..i])
    && (forall f :: f in kept ==> f.Current())
    && (forall f :: f in removed ==> !f.Current() && f in sorted[..i])
    && size == Total(kept) + Total(sorted[i..])
    && (removed != [] ==>
          && size + removed[|removed| - 1].size > budget
          && forall f :: f in removed ==> f.modified <= removed[|removed| - 1].modified)
  }

  lemma PruningStarts(sorted: seq<LogFile>, budget: nat)
    ensures Pruning(sorted, 0, budget, Total(sorted), [], [])
  {
    assert sorted[0..] == sorted;
  }

  lemma PruneClosed(sorted: seq<LogFile>, i: nat, budget: nat, size: nat, removed: seq<LogFile>, kept: seq<LogFile>)
    requires Aged(sorted) && i < |sorted| && Pruning(sorted, i, budget, size, removed, kept)
    requires size > budget && !sorted[i].Current()
    ensures size >= sorted[i].size
    ensures Pruning(sorted, i + 1, budget, size - sorted[i].size, removed + [sorted[i]], kept)
  {
    var f := sorted[i];
    assert sorted[..i + 1] == sorted[..i] + [f];
    assert sorted[i..] == [f] + sorted[i + 1..];
    OlderBefore(sorted, i, removed);
  }

  lemma KeepCurrent(sorted: seq<LogFile>, i: nat, budget: nat, size: nat, removed: seq<LogFile>, kept: seq<LogFile>)
    requires i < |sorted| && Pruning(sorted, i, budget, size, removed, kept) && sorted[i].Current()
    ensures Pruning(sorted, i + 1, budget, size, removed, kept + [sorted[i]])
  {
    var f := sorted[i];
    assert sorted[..i + 1] == sorted[..i] + [f];
    assert sorted[i..] == [f] + sorted[i + 1..];
    TotalConcat(kept, [f]);
  }

  lemma PruningEnds(sorted: seq<LogFile>, i: nat, budget: nat, size: nat, removed: seq<LogFile>, kept: seq<LogFile>)
    requires Aged(sorted) && Pruning(sorted, i, budget, size, removed, kept)
    requires i == |sorted| || size <= budget
    ensures Pruned(sorted, budget, removed, kept + sorted[i..])
  {
    TotalConcat(kept, sorted[i..]);
    assert sorted == sorted[..i] + sorted[i..];
    LeftIsYounger(sorted, i, removed, kept);
  }

  // The size phase of one policy.
  method PruneToBudget(fs: seq<LogFile>, budget: nat) returns (removed: seq<LogFile>, ghost left: seq<LogFile>)
    ensures Pruned(fs, budget, removed, left)
    ensures Total(fs) <= budget ==> removed == []
  {
    hide Pruning, Aged, ByAge, Total;
    var sorted := ByAge(fs);
    ByAgeAged(fs);
    ByAgeHas(fs);
    var size: nat := Total(fs);
    removed := [];
    ghost var kept: seq<LogFile> := [];
    PruningStarts(sorted, budget);
    var i: nat := 0;
    while i < |sorted| && size > budget
      invariant 0 <= i <= |sorted|
      invariant Pruning(sorted, i, budget, size, removed, kept)
      invariant Total(fs) <= budget ==> removed == [] && size == Total(fs)
    {
      var f := sorted[i];
      if !f.Current() {
        PruneClosed(sorted, i, budget, size, removed, kept);
        removed := removed + [f];
        size := size - f.size;
      } else {
        KeepCurrent(sorted, i, budget, size, removed, kept);
        kept := kept + [f];
      }
      i := i + 1;
    }
    left := kept + sorted[i..];
    PruningEnds(sorted, i, budget, size, removed, kept);
  }

  lemma OlderBefore(sorted: seq<LogFile>, i: nat, removed: seq<LogFile>)
    requires Aged(sorted) && i < |sorted| && forall f :: f in removed ==> f in sorted[..i]
    ensures forall f :: f in removed ==> f.modified <= sorted[i].modified
  {
    forall f | f in removed ensures f.modified <= sorted[i].modified {
      var k :| 0 <= k < i && sorted[..i][k] == f;
      assert sorted[k] == f;
    }
  }

  lemma LeftIsYounger(sorted: seq<LogFile>, i: nat, removed: seq<LogFile>, kept: seq<LogFile>)
    requires Aged(sorted) && i <= |sorted| && forall f :: f in removed ==> f in sorted[..i]
    requires forall f :: f in kept ==> f.Current()
    ensures forall f, g :: f in removed && g in kept + sorted[i..] && !g.Current() ==> f.modified <= g.modified
  {
    forall f, g | f in removed && g in kept + sorted[i..] && !g.Current() ensures f.modified <= g.modified {
      var k :| 0 <= k < i && sorted[..i][k] == f;
      assert g in sorted[i..];
      var m :| 0 <= m < |sorted| - i && sorted[i..][m] == g;
      assert sorted[k] == f && sorted[i + m] == g;
    }
  }

  // All files of a policy at their limit.
  function Budget(p: Policy): nat {
    p.maxBytes * (p.backups + 1)
  }

  // Logs within their policy's size are within its budget together.
  lemma {:induction false} BoundedTotal(d: Directory, p: Policy, from: nat)
    requires BoundedFor(d, p) && from <= p.backups + 1
    ensures Total(Inventory(d, p, from)) <= p.maxBytes * (p.backups + 1 - from)
    decreases p.backups + 1 - from
  {
    if from <= p.backups {
      BoundedTotal(d, p, from + 1);
      var e := At(d, p, from);
      var head := if IsLog(e) then [LogFile(p, from, |e.value.content|, e.value.modified)] else [];
      TotalConcat(head, Inventory(d, p, from + 1));
      BudgetStep(p.maxBytes, p.backups - from);
    }
  }

  lemma BudgetStep(max: nat, n: nat)
    ensures max * (n + 1) == max * n + max
  {
  }

  // Expired logs go whatever the size: closed ones, and the log of the client, which
  // is open only while it is written.
  predicate Expired(f: LogFile, keepDays: nat, now: nat) {
    && (keepDays == 0 || f.modified + keepDays * SECONDS_PER_DAY < now)
    && (!f.Current() || f.policy.name == "fcodex.log")
  }

  // Older than the days to keep, and closed or a log of the client.
  predicate TooOld(index: nat, modified: nat, p: Policy, keepDays: nat, now: nat) {
    && (keepDays > 0 ==> modified + keepDays * (24 * 60 * 60) < now)
    && (index == 0 ==> p.name == "fcodex.log")
  }

  lemma ExpiredIsTooOld(f: LogFile, keepDays: nat, now: nat)
    ensures Expired(f, keepDays, now) <==> TooOld(f.index, f.modified, f.policy, keepDays, now)
  {
  }

  function Unexpired(fs: seq<LogFile>, keepDays: nat, now: nat): (r: seq<LogFile>)
    ensures forall f :: f in r <==> f in fs && !Expired(f, keepDays, now)
    ensures Total(r) <= Total(fs)
  {
    if fs == [] then []
    else if Expired(fs[0], keepDays, now) then Unexpired(fs[1..], keepDays, now)
    else [fs[0]] + Unexpired(fs[1..], keepDays, now)
  }

  function ExpiredOnes(fs: seq<LogFile>, keepDays: nat, now: nat): (r: seq<LogFile>)
    ensures forall f :: f in r <==> f in fs && Expired(f, keepDays, now)
  {
    if fs == [] then []
    else if Expired(fs[0], keepDays, now) then [fs[0]] + ExpiredOnes(fs[1..], keepDays, now)
    else ExpiredOnes(fs[1..], keepDays, now)
  }

  // The candidates of one policy: the expired ones, and what a budget of all its
  // files at their limit makes of the rest.
  method PruneCandidates(d: Directory, p: Policy, keepDays: nat, now: nat)
    returns (expired: seq<LogFile>, oversize: seq<LogFile>, ghost left: seq<LogFile>)
    ensures expired == ExpiredOnes(Inventory(d, p, 0), keepDays, now)
    ensures forall f :: f in expired <==> f in Inventory(d, p, 0) && TooOld(f.index, f.modified, p, keepDays, now)
    ensures Pruned(Unexpired(Inventory(d, p, 0), keepDays, now), Budget(p), oversize, left)
    ensures AllBounded(d) && p in POLICIES ==> oversize == []
  {
    hide Pruned, Inventory, Expired, TooOld;
    var fs := Inventory(d, p, 0);
    forall f ensures Expired(f, keepDays, now) <==> TooOld(f.index, f.modified, f.policy, keepDays, now) {
      ExpiredIsTooOld(f, keepDays, now);
    }
    expired := ExpiredOnes(fs, keepDays, now);
    var remaining := Unexpired(fs, keepDays, now);
    oversize, left := PruneToBudget(remaining, Budget(p));
    if AllBounded(d) && p in POLICIES {
      assert BoundedFor(d, p);
      BoundedTotal(d, p, 0);
    }
  }

  // -------------------------------------------------------------- the directory

  class LogDirectory {
    var files: Directory

    constructor (files: Directory)
      ensures this.files == files
    {
      this.files := files;
    }

    // Downwards, so that nothing is moved twice.  False is a raised error.
    method Rotate(p: Policy, now: nat) returns (done: bool)
      modifies this
      ensures (files, done) == Rotated(old(files), p, now)
    {
      ghost var d := files;
      var index := p.backups;
      while index > 0
        invariant 0 <= index <= p.backups
        invariant Shifted(files, p, index) == Shifted(d, p, p.backups)
      {
        if IsLog(At(files, p, index - 1)) {
          if At(files, p, index) == Some(Irregular) {
            return false;
          }
          var moved := files[(p.name, index - 1)];
          files := files - {(p.name, index - 1)};
          files := files[(p.name, index) := moved];
        }
        index := index - 1;
      }
      var previous := At(files, p, 1);
      if IsLog(previous) && |previous.value.content| > p.maxBytes {
        var content := previous.value.content;
        files := files[(p.name, 1) := Regular(content[|content| - p.maxBytes..], now)];
      }
      done := true;
    }

    // Best effort: false when the record could not be written.
    method AppendLog(p: Policy, record: seq<Byte>, note: seq<Byte>, now: nat) returns (written: bool)
      requires p in POLICIES && |note| == TRUNCATION_NOTE_BYTES
      modifies this
      ensures (files, written) == Appended(old(files), p, Rendered(record, note), now)
      ensures !written ==> HasIrregular(old(files), p, p.backups)
      ensures written ==>
        WroteBehind(old(files), files, p, if |record| > 64 * 1024 then record[..64 * 1024 - 48] + note else record, now)
      ensures AllBounded(old(files)) ==> AllBounded(files)
    {
      var rendered := Rendered(record, note);
      ghost var d := files;
      if Appended(d, p, rendered, now).1 {
        AppendedBehind(d, p, rendered, now);
      } else {
        FailedByIrregular(d, p, rendered, now);
      }
      hide WroteBehind, HasIrregular;
      if AllBounded(files) {
        AppendKeepsBound(files, p, rendered, now);
      }
      var current := At(files, p, 0);
      if IsLog(current) && MustRotate(current.value, p, |rendered|, now) {
        var rotated := Rotate(p, now);
        if !rotated {
          return false;
        }
      }
      if At(files, p, 0) == Some(Irregular) {
        return false;
      }
      var content := if IsLog(At(files, p, 0)) then At(files, p, 0).value.content else [];
      files := files[(p.name, 0) := Regular(content + rendered, now)];
      written := true;
    }

    // Remove the candidates of every policy.  Afterwards each policy is within its
    // budget, or only its current log is left; and in a directory that appends have
    // kept bounded, only expired logs go.
    method Prune(keepDays: nat, now: nat) returns (removed: set<Path>)
      modifies this
      ensures files == old(files) - removed
      ensures forall p :: p in POLICIES ==> PolicyPruned(old(files), removed, p, keepDays, now)
      ensures forall p :: p in POLICIES ==> WithinBudget(files, p)
      ensures forall p :: p in POLICIES ==> OnlyOldRemoved(old(files), removed, p, keepDays, now)
      ensures AllBounded(old(files)) ==> forall path :: path in removed ==> ExpiredPath(old(files), path, keepDays, now)
    {
      hide Pruned, Inventory, PolicyPruned, WithinBudget, ExpiredPath, AllBounded, OnlyOldRemoved;
      ghost var d := files;
      removed := {};
      for k := 0 to |POLICIES|
        invariant files == d
        invariant forall path :: path in removed ==> exists m :: 0 <= m < k && path.0 == POLICIES[m].name
        invariant forall m :: 0 <= m < k ==> PolicyPruned(d, removed, POLICIES[m], keepDays, now)
        invariant AllBounded(d) ==> forall path :: path in removed ==> ExpiredPath(d, path, keepDays, now)
      {
        var expired, oversize, left := PruneCandidates(files, POLICIES[k], keepDays, now);
        ExpiredPaths(d, POLICIES[k], expired, keepDays, now);
        var more := PathsOf(expired) + PathsOf(oversize);
        OnePolicyMore(d, removed, more, k, expired, oversize, left, keepDays, now);
        removed := removed + more;
      }
      files := files - removed;
      forall p | p in POLICIES
        ensures WithinBudget(files, p) && PolicyPruned(d, removed, p, keepDays, now)
        ensures OnlyOldRemoved(d, removed, p, keepDays, now)
      {
        PrunedIsWithinBudget(d, removed, p, keepDays, now);
        PrunedOnlyOld(d, removed, p, keepDays, now);
      }
    }
  }

  function PathsOf(fs: seq<LogFile>): set<Path> {
    set f | f in fs :: f.Path()
  }

  // What is removed of one policy: its expired logs, and what its budget makes of
  // the others.
  ghost predicate PolicyPruned(d: Directory, removed: set<Path>, p: Policy, keepDays: nat, now: nat) {
    exists oversize, left ::
      && Pruned(Unexpired(Inventory(d, p, 0), keepDays, now), Budget(p), oversize, left)
      && forall i :: (p.name, i) in removed <==>
           (p.name, i) in PathsOf(ExpiredOnes(Inventory(d, p, 0), keepDays, now)) + PathsOf(oversize)
  }

  // Every log that is too old is removed, and of the others closed ones only, none
  // before an older closed one.
  ghost predicate OnlyOldRemoved(d: Directory, removed: set<Path>, p: Policy, keepDays: nat, now: nat) {
    forall i :: i <= p.backups ==>
      && ((p.name, i) in removed ==> (p.name, i) in d && d[(p.name, i)].Regular?)
      && ((p.name, i) in d && d[(p.name, i)].Regular? ==>
            && (TooOld(i, d[(p.name, i)].modified, p, keepDays, now) ==> (p.name, i) in removed)
            && ((p.name, i) in removed && !TooOld(i, d[(p.name, i)].modified, p, keepDays, now) ==>
                  && i > 0
                  && forall j :: 0 < j <= p.backups && (p.name, j) in d && d[(p.name, j)].Regular? && (p.name, j) !in removed ==>
                       d[(p.name, i)].modified <= d[(p.name, j)].modified))
  }

  ghost predicate WithinBudget(d: Directory, p: Policy) {
    || Total(Inventory(d, p, 0)) <= p.maxBytes * (p.backups + 1)
    || forall f :: f in Inventory(d, p, 0) ==> f.Current()
  }

  function Keep(fs: seq<LogFile>, removed: set<Path>): seq<LogFile> {
    if fs == [] then []
    else if fs[0].Path() in removed then Keep(fs[1..], removed) else [fs[0]] + Keep(fs[1..], removed)
  }

  lemma {:induction false} InventoryMinus(d: Directory, removed: set<Path>, p: Policy, from: nat)
    requires from <= p.backups + 1
    ensures Inventory(d - removed, p, from) == Keep(Inventory(d, p, from), removed)
    decreases p.backups + 1 - from
  {
    if from <= p.backups {
      InventoryMinus(d, removed, p, from + 1);
      var e, rest := At(d, p, from), Inventory(d, p, from + 1);
      assert At(d - removed, p, from) == if (p.name, from) in removed then None else e;
      if IsLog(e) {
        var f := LogFile(p, from, |e.value.content|, e.value.modified);
        assert ([f] + rest)[1..] == rest;
      } else {
        assert [] + rest == rest;
      }
    }
  }

  lemma {:induction false} InventoryOnce(d: Directory, p: Policy, from: nat, f: LogFile)
    requires from <= p.backups + 1
    ensures multiset(Inventory(d, p, from))[f] <= 1
    decreases p.backups + 1 - from
  {
    if from <= p.backups {
      InventoryOnce(d, p, from + 1, f);
      if f.index == from {
        assert f !in Inventory(d, p, from + 1);
      }
    }
  }

  lemma {:induction false} KeepCounts(fs: seq<LogFile>, removed: set<Path>, f: LogFile)
    ensures multiset(Keep(fs, removed))[f] == if f.Path() in removed then 0 else multiset(fs)[f]
  {
    if fs != [] {
      KeepCounts(fs[1..], removed, f);
      assert fs == [fs[0]] + fs[1..];
    }
  }

  lemma {:induction false} UnexpiredCounts(fs: seq<LogFile>, keepDays: nat, now: nat, f: LogFile)
    ensures multiset(Unexpired(fs, keepDays, now))[f] == if Expired(f, keepDays, now) then 0 else multiset(fs)[f]
  {
    if fs != [] {
      UnexpiredCounts(fs[1..], keepDays, now, f);
      assert fs == [fs[0]] + fs[1..];
    }
  }

  lemma Without(fs: seq<LogFile>, i: nat)
    requires i < |fs|
    ensures var rest := fs[..i] + fs[i + 1..];
      multiset(fs) == multiset(rest) + multiset{fs[i]} && Total(fs) == fs[i].size + Total(rest)
  {
    assert fs == fs[..i] + ([fs[i]] + fs[i + 1..]);
    TotalConcat(fs[..i], [fs[i]] + fs[i + 1..]);
    TotalConcat([fs[i]], fs[i + 1..]);
    TotalConcat(fs[..i], fs[i + 1..]);
  }

  lemma CancelOne<T>(a: multiset<T>, b: multiset<T>, x: T)
    requires a + multiset{x} == b + multiset{x}
    ensures a == b
  {
    assert a == (a + multiset{x}) - multiset{x};
    assert b == (b + multiset{x}) - multiset{x};
  }

  lemma {:induction false} TotalIgnoresOrder(a: seq<LogFile>, b: seq<LogFile>)
    requires multiset(a) == multiset(b)
    ensures Total(a) == Total(b)
    decreases |a|
  {
    hide Total;
    if a == [] {
      assert |multiset(b)| == 0;
    } else {
      assert a[0] in multiset(a);
      var i :| 0 <= i < |b| && b[i] == a[0];
      Without(a, 0);
      Without(b, i);
      CancelOne(multiset(a[..0] + a[1..]), multiset(b[..i] + b[i + 1..]), a[0]);
      TotalIgnoresOrder(a[..0] + a[1..], b[..i] + b[i + 1..]);
    }
  }

  // A log of the inventory goes exactly if it is expired or oversize.
  lemma RemovedIff(d: Directory, p: Policy, oversize: seq<LogFile>, keepDays: nat, now: nat, f: LogFile)
    requires f in Inventory(d, p, 0)
    requires forall g :: g in oversize ==> g in Inventory(d, p, 0)
    ensures f.Path() in PathsOf(ExpiredOnes(Inventory(d, p, 0), keepDays, now)) + PathsOf(oversize)
            <==> Expired(f, keepDays, now) || f in oversize
  {
    hide Inventory, Expired, IsLog;
    InventoryOf(d, p, 0);
    assert forall g :: g in Inventory(d, p, 0) && g.Path() == f.Path() ==> g == f;
  }

  // What is kept of a policy is what its budget has left.
  lemma KeptIsLeft(d: Directory, removed: set<Path>, p: Policy, oversize: seq<LogFile>, left: seq<LogFile>, keepDays: nat, now: nat)
    requires multiset(oversize) + multiset(left) == multiset(Unexpired(Inventory(d, p, 0), keepDays, now))
    requires forall i :: (p.name, i) in removed <==>
      (p.name, i) in PathsOf(ExpiredOnes(Inventory(d, p, 0), keepDays, now)) + PathsOf(oversize)
    ensures multiset(Keep(Inventory(d, p, 0), removed)) == multiset(left)
  {
    hide Inventory, Expired, Unexpired, ExpiredOnes, Keep, PathsOf;
    var fs := Inventory(d, p, 0);
    forall g | g in oversize ensures g in fs {
      assert g in multiset(oversize) + multiset(left);
      assert g in Unexpired(fs, keepDays, now);
    }
    forall f: LogFile ensures multiset(Keep(fs, removed))[f] == multiset(left)[f] {
      KeepCounts(fs, removed, f);
      UnexpiredCounts(fs, keepDays, now, f);
      InventoryOnce(d, p, 0, f);
      if f in fs {
        RemovedIff(d, p, oversize, keepDays, now, f);
      }
    }
  }

  lemma PrunedIsWithinBudget(d: Directory, removed: set<Path>, p: Policy, keepDays: nat, now: nat)
    requires PolicyPruned(d, removed, p, keepDays, now)
    ensures WithinBudget(d - removed, p)
  {
    hide Inventory, Unexpired, ExpiredOnes, Keep, PathsOf;
    var fs := Inventory(d, p, 0);
    var oversize, left :| Pruned(Unexpired(fs, keepDays, now), Budget(p), oversize, left)
      && forall i :: (p.name, i) in removed <==> (p.name, i) in PathsOf(ExpiredOnes(fs, keepDays, now)) + PathsOf(oversize);
    KeptIsLeft(d, removed, p, oversize, left, keepDays, now);
    InventoryMinus(d, removed, p, 0);
    TotalIgnoresOrder(Keep(fs, removed), left);
    forall f | f in Keep(fs, removed) ensures f in left {
      assert f in multiset(Keep(fs, removed));
    }
  }

  function FileAt(d: Directory, p: Policy, i: nat): LogFile
    requires IsLog(At(d, p, i))
  {
    LogFile(p, i, |At(d, p, i).value.content|, At(d, p, i).value.modified)
  }

  // One log: removed exactly if it is expired or oversize, and oversize only if it is
  // closed and not younger than any closed log that is left.
  lemma FileRemoved(d: Directory, removed: set<Path>, p: Policy, oversize: seq<LogFile>, left: seq<LogFile>, keepDays: nat,
                    now: nat, i: nat)
    requires i <= p.backups && IsLog(At(d, p, i))
    requires Pruned(Unexpired(Inventory(d, p, 0), keepDays, now), Budget(p), oversize, left)
    requires forall k :: (p.name, k) in removed <==>
      (p.name, k) in PathsOf(ExpiredOnes(Inventory(d, p, 0), keepDays, now)) + PathsOf(oversize)
    ensures FileAt(d, p, i) in Inventory(d, p, 0)
    ensures (p.name, i) in removed <==> Expired(FileAt(d, p, i), keepDays, now) || FileAt(d, p, i) in oversize
    ensures (p.name, i) !in removed ==> FileAt(d, p, i) in left
    ensures FileAt(d, p, i) in oversize ==> i > 0
  {
    hide Inventory, Expired, Unexpired, ExpiredOnes, PathsOf, Total;
    var f := FileAt(d, p, i);
    InventoryOf(d, p, 0);
    forall g | g in oversize ensures g in Inventory(d, p, 0) {
      assert g in multiset(oversize) + multiset(left);
      assert g in Unexpired(Inventory(d, p, 0), keepDays, now);
    }
    RemovedIff(d, p, oversize, keepDays, now, f);
    assert f.Path() == (p.name, i);
    if (p.name, i) !in removed {
      assert f in Unexpired(Inventory(d, p, 0), keepDays, now);
      assert f in multiset(oversize) + multiset(left);
    }
  }

  lemma PrunedOnlyOld(d: Directory, removed: set<Path>, p: Policy, keepDays: nat, now: nat)
    requires PolicyPruned(d, removed, p, keepDays, now)
    ensures OnlyOldRemoved(d, removed, p, keepDays, now)
  {
    hide Inventory, Unexpired, ExpiredOnes, Expired, PathsOf, Pruned, TooOld;
    var fs := Inventory(d, p, 0);
    var oversize, left :| Pruned(Unexpired(fs, keepDays, now), Budget(p), oversize, left)
      && forall i :: (p.name, i) in removed <==> (p.name, i) in PathsOf(ExpiredOnes(fs, keepDays, now)) + PathsOf(oversize);
    forall i | i <= p.backups && (p.name, i) in removed ensures (p.name, i) in d && d[(p.name, i)].Regular? {
      RemovedIsLog(d, p, oversize, left, keepDays, now, i);
    }
    forall i: nat | i <= p.backups && IsLog(At(d, p, i))
      ensures FileAt(d, p, i) in fs
      ensures (p.name, i) in removed <==> Expired(FileAt(d, p, i), keepDays, now) || FileAt(d, p, i) in oversize
      ensures (p.name, i) !in removed ==> FileAt(d, p, i) in left
      ensures FileAt(d, p, i) in oversize ==> i > 0
      ensures Expired(FileAt(d, p, i), keepDays, now) <==> TooOld(i, d[(p.name, i)].modified, p, keepDays, now)
    {
      FileRemoved(d, removed, p, oversize, left, keepDays, now, i);
      ExpiredIsTooOld(FileAt(d, p, i), keepDays, now);
    }
    forall i: nat, j: nat
      | i <= p.backups && IsLog(At(d, p, i)) && FileAt(d, p, i) in oversize
        && 0 < j <= p.backups && IsLog(At(d, p, j)) && (p.name, j) !in removed
      ensures d[(p.name, i)].modified <= d[(p.name, j)].modified
    {
      OlderRemoved(Unexpired(fs, keepDays, now), Budget(p), oversize, left, FileAt(d, p, i), FileAt(d, p, j));
    }
  }

  lemma OlderRemoved(fs: seq<LogFile>, budget: nat, removed: seq<LogFile>, left: seq<LogFile>, f: LogFile, g: LogFile)
    requires Pruned(fs, budget, removed, left) && f in removed && g in left && !g.Current()
    ensures f.modified <= g.modified
  {
  }

  lemma RemovedIsLog(d: Directory, p: Policy, oversize: seq<LogFile>, left: seq<LogFile>, keepDays: nat, now: nat, i: nat)
    requires Pruned(Unexpired(Inventory(d, p, 0), keepDays, now), Budget(p), oversize, left)
    requires (p.name, i) in PathsOf(ExpiredOnes(Inventory(d, p, 0), keepDays, now)) + PathsOf(oversize)
    ensures IsLog(At(d, p, i))
  {
    hide Inventory, Expired, Unexpired, ExpiredOnes, Total;
    InventoryOf(d, p, 0);
    if f :| f in oversize && f.Path() == (p.name, i) {
      assert f in multiset(oversize) + multiset(left);
    }
  }

  lemma PolicyNames(m: nat, k: nat)
    requires m < k < |POLICIES|
    ensures POLICIES[m].name != POLICIES[k].name
  {
  }

  // One more policy's candidates leave the others' as they are.
  lemma OnePolicyMore(d: Directory, removed: set<Path>, more: set<Path>, k: nat, expired: seq<LogFile>, oversize: seq<LogFile>,
                      left: seq<LogFile>, keepDays: nat, now: nat)
    requires k < |POLICIES| && more == PathsOf(expired) + PathsOf(oversize)
    requires expired == ExpiredOnes(Inventory(d, POLICIES[k], 0), keepDays, now)
    requires Pruned(Unexpired(Inventory(d, POLICIES[k], 0), keepDays, now), Budget(POLICIES[k]), oversize, left)
    requires forall path :: path in removed ==> exists m :: 0 <= m < k && path.0 == POLICIES[m].name
    requires forall m :: 0 <= m < k ==> PolicyPruned(d, removed, POLICIES[m], keepDays, now)
    ensures forall m :: 0 <= m <= k ==> PolicyPruned(d, removed + more, POLICIES[m], keepDays, now)
    ensures forall path :: path in removed + more ==> exists m :: 0 <= m <= k && path.0 == POLICIES[m].name
  {
    hide Inventory, Unexpired, ExpiredOnes, Expired;
    var p := POLICIES[k];
    forall path | path in more ensures path.0 == p.name {
      OwnPaths(d, p, expired, oversize, left, keepDays, now, path);
    }
    forall i ensures (p.name, i) !in removed {
      if (p.name, i) in removed {
        var m :| 0 <= m < k && p.name == POLICIES[m].name;
        PolicyNames(m, k);
      }
    }
    forall m | 0 <= m < k ensures PolicyPruned(d, removed + more, POLICIES[m], keepDays, now) {
      PolicyNames(m, k);
      SamePolicyPruned(d, removed, removed + more, POLICIES[m], keepDays, now);
    }
  }

  lemma SamePolicyPruned(d: Directory, removed: set<Path>, later: set<Path>, p: Policy, keepDays: nat, now: nat)
    requires PolicyPruned(d, removed, p, keepDays, now)
    requires forall i :: (p.name, i) in removed <==> (p.name, i) in later
    ensures PolicyPruned(d, later, p, keepDays, now)
  {
    hide Inventory, Unexpired, ExpiredOnes, Expired, Pruned, PathsOf;
  }

  lemma OwnPaths(d: Directory, p: Policy, expired: seq<LogFile>, oversize: seq<LogFile>, left: seq<LogFile>, keepDays: nat,
                 now: nat, path: Path)
    requires expired == ExpiredOnes(Inventory(d, p, 0), keepDays, now)
    requires Pruned(Unexpired(Inventory(d, p, 0), keepDays, now), Budget(p), oversize, left)
    requires path in PathsOf(expired) + PathsOf(oversize)
    ensures path.0 == p.name
  {
    hide Inventory, Unexpired, ExpiredOnes, Expired, Total;
    if f :| f in oversize && f.Path() == path {
      assert f in multiset(oversize) + multiset(left);
    }
  }

  lemma ExpiredPaths(d: Directory, p: Policy, expired: seq<LogFile>, keepDays: nat, now: nat)
    requires p in POLICIES
    requires forall f :: f in expired ==> f in Inventory(d, p, 0) && Expired(f, keepDays, now)
    ensures forall path :: path in PathsOf(expired) ==> ExpiredPath(d, path, keepDays, now)
  {
    hide Inventory, Expired, IsLog;
    InventoryOf(d, p, 0);
  }

  ghost predicate ExpiredPath(d: Directory, path: Path, keepDays: nat, now: nat) {
    exists p, i :: p in POLICIES && path == (p.name, i) && IsLog(At(d, p, i))
      && Expired(LogFile(p, i, |At(d, p, i).value.content|, At(d, p, i).value.modified), keepDays, now)
  }

  lemma {:induction false} InventoryOf(d: Directory, p: Policy, from: nat)
    requires from <= p.backups + 1
    ensures forall f :: f in Inventory(d, p, from) <==>
      f.policy == p && from <= f.index <= p.backups && IsLog(At(d, p, f.index))
      && f == LogFile(p, f.index, |At(d, p, f.index).value.content|, At(d, p, f.index).value.modified)
    decreases p.backups + 1 - from
  {
    if from <= p.backups {
      InventoryOf(d, p, from + 1);
    }
  }
}
