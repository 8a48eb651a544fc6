// Limiting the markdown tables of a card (bot/card_limits.py): tables beyond the
// limit are put between fences.  White space is ASCII white space.
module CardLimits {

  // ---------------------------------------------------------- lines of a text

  function Split(text: string): (lines: seq<string>)
    ensures lines != []
    decreases |text|
  {
    if text == [] then [""]
    else
      var rest := Split(text[1..]);
      if text[0] == '\n' then [""] + rest else [[text[0]] + rest[0]] + rest[1..]
  }

  function Join(lines: seq<string>): string
    requires lines != []
    decreases |lines|
  {
    if |lines| == 1 then lines[0] else lines[0] + "\n" + Join(lines[1..])
  }

  ghost predicate OneLine(line: string) {
    '\n' !in line
  }

  lemma {:induction false} SplitOneLine(text: string)
    ensures forall i :: 0 <= i < |Split(text)| ==> OneLine(Split(text)[i])
    decreases |text|
  {
    if text != [] {
      SplitOneLine(text[1..]);
    }
  }

  lemma {:induction false} JoinSplit(text: string)
    ensures Join(Split(text)) == text
    decreases |text|
  {
    if text != [] {
      JoinSplit(text[1..]);
      var rest := Split(text[1..]);
      if text[0] == '\n' {
        assert Split(text)[1..] == rest;
        assert text == [text[0]] + text[1..];
      } else {
        assert Split(text)[1..] == rest[1..];
      }
    }
  }

  lemma {:induction false} SplitLine(line: string)
    requires OneLine(line)
    ensures Split(line) == [line]
    decreases |line|
  {
    if line != [] {
      SplitLine(line[1..]);
      assert [line[0]] + line[1..] == line;
    }
  }

  lemma {:induction false} SplitAtBreak(line: string, text: string)
    requires OneLine(line)
    ensures Split(line + "\n" + text) == [line] + Split(text)
    decreases |line|
  {
    var all := line + "\n" + text;
    if line == [] {
      assert all[0] == '\n' && all[1..] == text;
    } else {
      assert all[0] == line[0] && all[1..] == line[1..] + "\n" + text;
      SplitAtBreak(line[1..], text);
      assert ([line[1..]] + Split(text))[1..] == Split(text);
      assert [line[0]] + line[1..] == line;
    }
  }

  lemma {:induction false} SplitJoin(lines: seq<string>)
    requires lines != [] && forall i :: 0 <= i < |lines| ==> OneLine(lines[i])
    ensures Split(Join(lines)) == lines
    decreases |lines|
  {
    if |lines| == 1 {
      SplitLine(lines[0]);
    } else {
      SplitJoin(lines[1..]);
      SplitAtBreak(lines[0], Join(lines[1..]));
    }
  }

  // -------------------------------------------------------- kinds of lines

  function StripLeft(s: string): string {
    if s != [] && s[0] in {' ', '\t', '\r', '\n'} then StripLeft(s[1..]) else s
  }

  function StripRight(s: string): string {
    if s != [] && s[|s| - 1] in {' ', '\t', '\r', '\n'} then StripRight(s[..|s| - 1]) else s
  }

  function Strip(s: string): string {
    StripRight(StripLeft(s))
  }

  const FENCE := "```"

  predicate IsFence(line: string) {
    FENCE <= Strip(line)
  }

  predicate StartsBar(line: string) {
    "|" <= Strip(line)
  }

  predicate IsRow(line: string) {
    StartsBar(line) && Strip(line)[|Strip(line)| - 1] == '|'
  }

  predicate HasDashes(s: string) {
    |s| >= 3 && (s[..3] == "---" || HasDashes(s[1..]))
  }

  predicate IsSeparator(line: string) {
    StartsBar(line) && HasDashes(Strip(line))
  }

  lemma FenceLine()
    ensures IsFence(FENCE) && !StartsBar(FENCE) && OneLine(FENCE)
  {
    assert StripLeft(FENCE) == FENCE && StripRight(FENCE) == FENCE;
  }

  lemma BarIsNoFence(line: string)
    requires StartsBar(line)
    ensures !IsFence(line)
  {
    assert Strip(line)[0] == '|';
  }

  // ------------------------------------------- lines and tables, by their characters

  predicate White(c: char) {
    c in {' ', '\t', '\r', '\n'}
  }

  // The first, and the last, character that is not white space.
  ghost predicate FirstInk(line: string, i: int) {
    0 <= i < |line| && !White(line[i]) && forall k :: 0 <= k < i ==> White(line[k])
  }

  ghost predicate LastInk(line: string, j: int) {
    0 <= j < |line| && !White(line[j]) && forall k :: j < k < |line| ==> White(line[k])
  }

  lemma {:induction false} StripLeftDrops(s: string) returns (n: nat)
    ensures n <= |s| && StripLeft(s) == s[n..]
    ensures (forall k :: 0 <= k < n ==> White(s[k])) && (n < |s| ==> !White(s[n]))
  {
    n := 0;
    if s != [] && White(s[0]) {
      var m := StripLeftDrops(s[1..]);
      n := m + 1;
      assert s[1..][m..] == s[n..];
      assert forall k :: 1 <= k < n ==> s[k] == s[1..][k - 1];
      if n < |s| {
        assert s[n] == s[1..][m];
      }
    }
  }

  lemma {:induction false} StripRightDrops(s: string) returns (n: nat)
    ensures n <= |s| && StripRight(s) == s[..n]
    ensures (forall k :: n <= k < |s| ==> White(s[k])) && (n > 0 ==> !White(s[n - 1]))
  {
    n := |s|;
    if s != [] && White(s[|s| - 1]) {
      var front := s[..|s| - 1];
      n := StripRightDrops(front);
      assert front[..n] == s[..n];
      assert forall k :: 0 <= k < |front| ==> front[k] == s[k];
    }
  }

  // A line without its margins: from its first character that is not white space to
  // its last one.
  lemma StripIs(line: string) returns (i: nat, n: nat)
    ensures i <= n <= |line| && Strip(line) == line[i..n]
    ensures i < n ==> FirstInk(line, i) && LastInk(line, n - 1)
    ensures i == n ==> forall k :: 0 <= k < |line| ==> White(line[k])
  {
    i := StripLeftDrops(line);
    var left := line[i..];
    var m := StripRightDrops(left);
    n := i + m;
    assert left[..m] == line[i..n];
    assert forall k :: 0 <= k < |left| ==> left[k] == line[i + k];
    assert forall k :: n <= k < |line| ==> line[k] == left[k - i];
    if m > 0 {
      assert left[m - 1] == line[n - 1];
    }
  }

  predicate DashesAt(s: string, k: int) {
    0 <= k <= |s| - 3 && s[k] == '-' && s[k + 1] == '-' && s[k + 2] == '-'
  }

  // A fence begins with three back quotes, a table's lines with a bar, a row ends with
  // one too, and a separator has three dashes; white space around them does not count.
  lemma LinesByCharacter(line: string)
    ensures IsFence(line) <==> exists i :: FirstInk(line, i) && FENCE <= line[i..]
    ensures StartsBar(line) <==> exists i :: FirstInk(line, i) && line[i] == '|'
    ensures IsRow(line) <==>
      (exists i :: FirstInk(line, i) && line[i] == '|') && exists j :: LastInk(line, j) && line[j] == '|'
    ensures IsSeparator(line) <==>
      (exists i :: FirstInk(line, i) && line[i] == '|') && exists k :: DashesAt(line, k)
  {
    var i, n := StripIs(line);
    hide Strip;
    var s := Strip(line);
    DashesAre(s);
    if i < n {
      assert s[0] == line[i] && s[|s| - 1] == line[n - 1];
      assert forall k :: FirstInk(line, k) ==> k == i;
      assert forall k :: LastInk(line, k) ==> k == n - 1;
      FenceByCharacter(line, i, n);
      DashesInside(line, i, n);
    } else {
      assert s == "";
      assert forall k :: !FirstInk(line, k) && !LastInk(line, k);
    }
  }

  lemma FenceByCharacter(line: string, i: nat, n: nat)
    requires i < n <= |line| && LastInk(line, n - 1)
    ensures FENCE <= line[i..n] <==> FENCE <= line[i..]
  {
    var s, t := line[i..n], line[i..];
    assert forall k :: 0 <= k < |s| ==> s[k] == t[k] == line[i + k];
    if FENCE <= t {
      assert t[0] == '`' && t[1] == '`' && t[2] == '`';
      assert !White(line[i + 2]);
      assert i + 2 <= n - 1;
      assert s[..3] == FENCE;
    }
    if FENCE <= s {
      assert t[..3] == s[..3];
    }
  }

  lemma DashesInside(line: string, i: nat, n: nat)
    requires i < n <= |line| && FirstInk(line, i) && LastInk(line, n - 1)
    ensures (exists k :: DashesAt(line[i..n], k)) <==> exists k :: DashesAt(line, k)
  {
    if k :| DashesAt(line[i..n], k) {
      assert DashesAt(line, i + k);
    }
    if k :| DashesAt(line, k) {
      assert !White(line[k]) && !White(line[k + 2]);
      assert i <= k && k + 2 <= n - 1;
      assert DashesAt(line[i..n], k - i);
    }
  }

  lemma {:induction false} DashesAre(s: string)
    ensures HasDashes(s) <==> exists k :: DashesAt(s, k)
    decreases |s|
  {
    if |s| >= 3 {
      DashesAre(s[1..]);
      assert s[..3] == "---" <==> DashesAt(s, 0);
      if k :| DashesAt(s[1..], k) {
        assert DashesAt(s, k + 1);
      }
      if k :| DashesAt(s, k) && k > 0 {
        assert DashesAt(s[1..], k - 1);
      }
    }
  }

  // ----------------------------------------------------------- the scanner

  datatype Span = Span(start: nat, end: nat)

  // A row and its separator begin a table.
  predicate IsTable(ls: seq<string>) {
    |ls| >= 2 && IsRow(ls[0]) && IsSeparator(ls[1])
  }

  function BarRun(ls: seq<string>): (n: nat)
    ensures n <= |ls|
    ensures forall i :: 0 <= i < n ==> StartsBar(ls[i])
    ensures n < |ls| ==> !StartsBar(ls[n])
  {
    if ls != [] && StartsBar(ls[0]) then 1 + BarRun(ls[1..]) else 0
  }

  function TableLen(ls: seq<string>): (k: nat)
    requires IsTable(ls)
    ensures 2 <= k <= |ls|
  {
    2 + BarRun(ls[2..])
  }

  lemma TableLines(ls: seq<string>)
    requires IsTable(ls)
    ensures forall i :: 0 <= i < TableLen(ls) ==> StartsBar(ls[i]) && !IsFence(ls[i])
    ensures TableLen(ls) < |ls| ==> !StartsBar(ls[TableLen(ls)])
  {
    forall i | 0 <= i < TableLen(ls) ensures StartsBar(ls[i]) && !IsFence(ls[i]) {
      if i >= 2 {
        assert ls[2..][i - 2] == ls[i];
      }
      BarIsNoFence(ls[i]);
    }
    if TableLen(ls) < |ls| {
      assert ls[2..][TableLen(ls) - 2] == ls[TableLen(ls)];
    }
  }

  // The tables outside fences of the lines that begin at line `at`.
  function Scan(ls: seq<string>, at: nat, fence: bool): seq<Span>
    decreases |ls|
  {
    if ls == [] then []
    else if IsFence(ls[0]) then Scan(ls[1..], at + 1, !fence)
    else if !fence && IsTable(ls) then
      [Span(at, at + TableLen(ls))] + Scan(ls[TableLen(ls)..], at + TableLen(ls), false)
    else Scan(ls[1..], at + 1, fence)
  }

  // Whether line i is behind an opening fence, the lines beginning inside one or not.
  predicate Fenced(ls: seq<string>, i: nat, fence: bool)
    requires i <= |ls|
  {
    if i == 0 then fence else Fenced(ls, i - 1, fence) != IsFence(ls[i - 1])
  }

  // A row and a separator outside fences.
  predicate Heads(ls: seq<string>, i: int, fence: bool) {
    0 <= i < |ls| - 1 && IsRow(ls[i]) && IsSeparator(ls[i + 1]) && !Fenced(ls, i, fence)
  }

  // These are the tables of the lines: each has its head where it begins and goes on for
  // as long as lines begin with a bar; and no head is outside all of them.
  ghost predicate AreTables(ls: seq<string>, at: nat, fence: bool, spans: seq<Span>) {
    && (forall t :: t in spans ==> IsTableAt(ls, at, fence, t))
    && (forall i :: Heads(ls, i, fence) ==> exists t :: t in spans && t.start <= at + i < t.end)
  }

  ghost predicate IsTableAt(ls: seq<string>, at: nat, fence: bool, t: Span) {
    && at <= t.start && t.start + 2 <= t.end <= at + |ls| && Heads(ls, t.start - at, fence)
    && (forall i :: t.start - at <= i < t.end - at ==> StartsBar(ls[i]))
    && (t.end < at + |ls| ==> !StartsBar(ls[t.end - at]))
  }

  lemma {:induction false} FencedSkip(ls: seq<string>, k: nat, i: nat, fence: bool)
    requires k <= i <= |ls|
    ensures Fenced(ls, i, fence) == Fenced(ls[k..], i - k, Fenced(ls, k, fence))
    decreases i
  {
    if i > k {
      FencedSkip(ls, k, i - 1, fence);
      assert ls[k..][i - 1 - k] == ls[i - 1];
    }
  }

  lemma {:induction false} NotFencedBy(ls: seq<string>, k: nat, fence: bool)
    requires k <= |ls| && forall j :: 0 <= j < k ==> !IsFence(ls[j])
    ensures Fenced(ls, k, fence) == fence
  {
    if k > 0 {
      NotFencedBy(ls, k - 1, fence);
    }
  }

  lemma HeadsSkip(ls: seq<string>, k: nat, i: int, fence: bool)
    requires k <= i && k <= |ls|
    ensures Heads(ls, i, fence) <==> Heads(ls[k..], i - k, Fenced(ls, k, fence))
  {
    if i < |ls| - 1 {
      FencedSkip(ls, k, i, fence);
      assert ls[k..][i - k] == ls[i] && ls[k..][i + 1 - k] == ls[i + 1];
    }
  }

  // Tables found behind the first k lines.
  lemma TablesBehind(ls: seq<string>, at: nat, fence: bool, k: nat, spans: seq<Span>)
    requires k <= |ls| && AreTables(ls[k..], at + k, Fenced(ls, k, fence), spans)
    ensures forall t :: t in spans ==> IsTableAt(ls, at, fence, t)
    ensures forall i :: k <= i && Heads(ls, i, fence) ==> exists t :: t in spans && t.start <= at + i < t.end
  {
    hide Heads, StartsBar, IsTableAt, Fenced;
    forall t | t in spans ensures IsTableAt(ls, at, fence, t) {
      TableBehind(ls, at, fence, k, t);
    }
    forall i | k <= i && Heads(ls, i, fence) ensures exists t :: t in spans && t.start <= at + i < t.end {
      HeadsSkip(ls, k, i, fence);
    }
  }

  lemma TableBehind(ls: seq<string>, at: nat, fence: bool, k: nat, t: Span)
    requires k <= |ls| && IsTableAt(ls[k..], at + k, Fenced(ls, k, fence), t)
    ensures IsTableAt(ls, at, fence, t)
  {
    hide Heads, StartsBar, Fenced;
    HeadsSkip(ls, k, t.start - at, fence);
    forall i | t.start - at <= i < t.end - at ensures StartsBar(ls[i]) {
      assert ls[k..][i - k] == ls[i];
    }
    if t.end < at + |ls| {
      assert ls[k..][t.end - (at + k)] == ls[t.end - at];
    }
  }

  // The scanner finds the tables.
  lemma {:induction false} ScanFindsTables(ls: seq<string>, at: nat, fence: bool)
    ensures AreTables(ls, at, fence, Scan(ls, at, fence))
    decreases |ls|
  {
    hide Scan, AreTables, IsTable, AreTablesFrom;
    if ls == [] {
      NoLinesNoTables(at, fence);
    } else if IsFence(ls[0]) || fence || !IsTable(ls) {
      ScanFindsTables(ls[1..], at + 1, if IsFence(ls[0]) then !fence else fence);
      PlainLine(ls, at, fence);
    } else {
      ScanFindsTables(ls[TableLen(ls)..], at + TableLen(ls), false);
      TablesAfterFirst(ls, at);
      FirstTable(ls, at);
    }
  }

  lemma NoLinesNoTables(at: nat, fence: bool)
    ensures AreTables([], at, fence, Scan([], at, fence))
  {
  }

  lemma PlainLine(ls: seq<string>, at: nat, fence: bool)
    requires ls != [] && (IsFence(ls[0]) || fence || !IsTable(ls))
    requires var inside := if IsFence(ls[0]) then !fence else fence;
      AreTables(ls[1..], at + 1, inside, Scan(ls[1..], at + 1, inside))
    ensures AreTables(ls, at, fence, Scan(ls, at, fence))
  {
    hide Scan, IsTable, IsFence, IsTableAt, Fenced, IsRow, IsSeparator;
    ScanSkips(ls, at, fence);
    NoHeadFirst(ls, fence);
    FirstFenced(ls, fence);
    TablesBehind(ls, at, fence, 1, Scan(ls, at, fence));
  }

  lemma FirstFenced(ls: seq<string>, fence: bool)
    requires ls != []
    ensures Fenced(ls, 1, fence) == if IsFence(ls[0]) then !fence else fence
  {
    assert Fenced(ls, 0, fence) == fence;
  }

  lemma TablesAfterFirst(ls: seq<string>, at: nat)
    requires IsTable(ls)
    requires AreTables(ls[TableLen(ls)..], at + TableLen(ls), false, Scan(ls[TableLen(ls)..], at + TableLen(ls), false))
    ensures !IsFence(ls[0])
    ensures AreTablesFrom(ls, at, TableLen(ls), Scan(ls[TableLen(ls)..], at + TableLen(ls), false))
  {
    hide Scan, IsTable, IsFence, IsTableAt, Heads, AreTables, StartsBar, TableLen;
    TableLines(ls);
    NotFencedBy(ls, TableLen(ls), false);
    TablesBehind(ls, at, false, TableLen(ls), Scan(ls[TableLen(ls)..], at + TableLen(ls), false));
  }

  lemma ScanSkips(ls: seq<string>, at: nat, fence: bool)
    requires ls != [] && (IsFence(ls[0]) || fence || !IsTable(ls))
    ensures Scan(ls, at, fence) == Scan(ls[1..], at + 1, if IsFence(ls[0]) then !fence else fence)
  {
  }

  lemma NoHeadFirst(ls: seq<string>, fence: bool)
    requires ls != [] && (IsFence(ls[0]) || fence || !IsTable(ls))
    ensures !Heads(ls, 0, fence)
  {
    if StartsBar(ls[0]) {
      BarIsNoFence(ls[0]);
    }
  }

  lemma FirstTable(ls: seq<string>, at: nat)
    requires IsTable(ls) && !IsFence(ls[0])
    requires AreTablesFrom(ls, at, TableLen(ls), Scan(ls[TableLen(ls)..], at + TableLen(ls), false))
    ensures AreTables(ls, at, false, Scan(ls, at, false))
  {
    hide IsRow, IsSeparator, StartsBar, IsFence;
    var k := TableLen(ls);
    var first, rest := Span(at, at + k), Scan(ls[k..], at + k, false);
    assert Scan(ls, at, false) == [first] + rest;
    TableLines(ls);
    assert IsTableAt(ls, at, false, first);
    forall i | Heads(ls, i, false) ensures exists t :: t in [first] + rest && t.start <= at + i < t.end {
      if i < k {
        assert first in [first] + rest;
      } else {
        var t :| t in rest && t.start <= at + i < t.end;
        assert t in [first] + rest;
      }
    }
  }

  ghost predicate AreTablesFrom(ls: seq<string>, at: nat, k: nat, spans: seq<Span>) {
    && (forall t :: t in spans ==> IsTableAt(ls, at, false, t))
    && (forall i :: k <= i && Heads(ls, i, false) ==> exists t :: t in spans && t.start <= at + i < t.end)
  }

  // The same lines with every table but the first n put between fences.
  function Limited(ls: seq<string>, fence: bool, n: nat): seq<string>
    decreases |ls|
  {
    if ls == [] then []
    else if IsFence(ls[0]) then [ls[0]] + Limited(ls[1..], !fence, n)
    else if !fence && IsTable(ls) then
      var k := TableLen(ls);
      if n > 0 then ls[..k] + Limited(ls[k..], false, n - 1)
      else [FENCE] + ls[..k] + [FENCE] + Limited(ls[k..], false, 0)
    else [ls[0]] + Limited(ls[1..], fence, n)
  }

  // The first line changes only if it begins a table put between fences.
  lemma LimitedHead(ls: seq<string>, fence: bool, n: nat)
    requires ls != []
    ensures Limited(ls, fence, n) != []
    ensures Limited(ls, fence, n)[0] == ls[0] || Limited(ls, fence, n)[0] == FENCE
    ensures Limited(ls, fence, n)[0] != ls[0] ==> StartsBar(ls[0])
  {
  }

  // Inside a fence only a fence matters.
  lemma {:induction false} ScanFenced(ls: seq<string>, tail: seq<string>, at: nat)
    requires forall i :: 0 <= i < |ls| ==> !IsFence(ls[i])
    ensures Scan(ls + [FENCE] + tail, at, true) == Scan(tail, at + |ls| + 1, false)
    decreases |ls|
  {
    var all := ls + [FENCE] + tail;
    if ls == [] {
      FenceLine();
      assert all[1..] == tail;
    } else {
      assert all[1..] == ls[1..] + [FENCE] + tail;
      ScanFenced(ls[1..], tail, at + 1);
    }
  }

  lemma {:induction false} BarRunStops(ls: seq<string>, tail: seq<string>)
    requires BarRun(ls) == |ls| && (tail != [] ==> !StartsBar(tail[0]))
    ensures BarRun(ls + tail) == |ls|
    decreases |ls|
  {
    if ls == [] {
      assert ls + tail == tail;
    } else {
      assert (ls + tail)[1..] == ls[1..] + tail;
      BarRunStops(ls[1..], tail);
    }
  }

  lemma {:induction false} BarRunPrefix(ls: seq<string>)
    ensures BarRun(ls[..BarRun(ls)]) == BarRun(ls)
    decreases |ls|
  {
    if ls != [] && StartsBar(ls[0]) {
      BarRunPrefix(ls[1..]);
      assert ls[..BarRun(ls)][1..] == ls[1..][..BarRun(ls[1..])];
    }
  }

  // A table keeps its extent when what follows it does not begin with a bar.
  lemma TableKept(ls: seq<string>, tail: seq<string>)
    requires IsTable(ls) && (tail != [] ==> !StartsBar(tail[0]))
    ensures var k := TableLen(ls); IsTable(ls[..k] + tail) && TableLen(ls[..k] + tail) == k
  {
    hide IsRow, IsSeparator, StartsBar;
    var k := TableLen(ls);
    BarRunPrefix(ls[2..]);
    assert ls[..k][2..] == ls[2..][..BarRun(ls[2..])];
    BarRunStops(ls[..k][2..], tail);
    assert (ls[..k] + tail)[2..] == ls[..k][2..] + tail;
  }

  function Take(spans: seq<Span>, n: nat): seq<Span> {
    if |spans| <= n then spans else spans[..n]
  }

  // Scanning the limited lines finds the first n tables, where they were, and no
  // others.
  lemma {:induction false} LimitedScans(ls: seq<string>, at: nat, fence: bool, n: nat)
    ensures Scan(Limited(ls, fence, n), at, fence) == Take(Scan(ls, at, fence), n)
    decreases |ls|
  {
    if ls == [] {
    } else if IsFence(ls[0]) {
      LimitedScans(ls[1..], at + 1, !fence, n);
      assert Limited(ls, fence, n)[1..] == Limited(ls[1..], !fence, n);
    } else if !fence && IsTable(ls) {
      TableLines(ls);
      if n > 0 {
        KeptScans(ls, at, n);
      } else {
        OverflowScans(ls, at);
      }
    } else {
      PlainScans(ls, at, fence, n);
    }
  }

  lemma PlainScans(ls: seq<string>, at: nat, fence: bool, n: nat)
    requires ls != [] && !IsFence(ls[0]) && (fence || !IsTable(ls))
    ensures Scan(Limited(ls, fence, n), at, fence) == Take(Scan(ls, at, fence), n)
    decreases |ls|, 0
  {
    hide IsRow, StartsBar, IsFence, BarRun;
    var rest := Limited(ls[1..], fence, n);
    assert Limited(ls, fence, n) == [ls[0]] + rest;
    assert Limited(ls, fence, n)[1..] == rest;
    if ls[1..] != [] {
      LimitedHead(ls[1..], fence, n);
      FenceLine();
    }
    assert fence || !IsTable([ls[0]] + rest);
    LimitedScans(ls[1..], at + 1, fence, n);
  }

  lemma LimitedSkip(ls: seq<string>, fence: bool, n: nat)
    requires ls != [] && (IsFence(ls[0]) || fence || !IsTable(ls))
    ensures Limited(ls, fence, n) == [ls[0]] + Limited(ls[1..], if IsFence(ls[0]) then !fence else fence, n)
  {
  }

  lemma LimitedTable(ls: seq<string>, n: nat)
    requires IsTable(ls) && !IsFence(ls[0])
    ensures var k := TableLen(ls);
      Limited(ls, false, n) ==
        if n > 0 then ls[..k] + Limited(ls[k..], false, n - 1)
        else [FENCE] + ls[..k] + [FENCE] + Limited(ls[k..], false, 0)
  {
  }

  lemma ScanTable(ls: seq<string>, at: nat)
    requires IsTable(ls) && !IsFence(ls[0])
    ensures Scan(ls, at, false) == [Span(at, at + TableLen(ls))] + Scan(ls[TableLen(ls)..], at + TableLen(ls), false)
  {
  }

  lemma TakeCons(t: Span, spans: seq<Span>, n: nat)
    requires n > 0
    ensures Take([t] + spans, n) == [t] + Take(spans, n - 1)
  {
  }

  lemma KeptScans(ls: seq<string>, at: nat, n: nat)
    requires IsTable(ls) && !IsFence(ls[0]) && n > 0
    ensures Scan(Limited(ls, false, n), at, false) == Take(Scan(ls, at, false), n)
    decreases |ls|, 0
  {
    hide IsTable, IsFence, StartsBar, BarRun, Scan, Limited, TableLen, Take;
    var k := TableLen(ls);
    var rest := Limited(ls[k..], false, n - 1);
    TableLines(ls);
    if ls[k..] != [] {
      LimitedHead(ls[k..], false, n - 1);
    }
    LimitedEmpty(false, n - 1);
    FenceLine();
    TableKept(ls, rest);
    assert (ls[..k] + rest)[k..] == rest;
    LimitedTable(ls, n);
    ScanTable(ls, at);
    ScanTable(ls[..k] + rest, at);
    TakeCons(Span(at, at + k), Scan(ls[k..], at + k, false), n);
    LimitedScans(ls[k..], at + k, false, n - 1);
  }

  lemma LimitedEmpty(fence: bool, n: nat)
    ensures Limited([], fence, n) == []
  {
  }

  lemma OverflowScans(ls: seq<string>, at: nat)
    requires IsTable(ls) && !IsFence(ls[0])
    ensures Scan(Limited(ls, false, 0), at, false) == Take(Scan(ls, at, false), 0)
    decreases |ls|, 0
  {
    hide IsRow, IsSeparator, StartsBar, IsFence, BarRun;
    var k := TableLen(ls);
    var rest := Limited(ls[k..], false, 0);
    var wrapped := [FENCE] + ls[..k] + [FENCE] + rest;
    FenceLine();
    TableLines(ls);
    assert wrapped[1..] == ls[..k] + [FENCE] + rest;
    ScanFenced(ls[..k], rest, at + 1);
    LimitedScans(ls[k..], at + 1 + k + 1, false, 0);
  }

  // ------------------------------------------- fences put in and taken out again

  // `lines[start:end] = ["```", *table_lines, "```"]`.
  function Wrap(ls: seq<string>, t: Span): seq<string>
    requires t.start <= t.end <= |ls|
  {
    ls[..t.start] + [FENCE] + ls[t.start..t.end] + [FENCE] + ls[t.end..]
  }

  function Unwrap(ls: seq<string>, t: Span): seq<string>
    requires t.start <= t.end && t.end + 2 <= |ls|
  {
    ls[..t.start] + ls[t.start + 1..t.end + 1] + ls[t.end + 2..]
  }

  // Spans in order, within the lines from `from` on.
  ghost predicate Ordered(spans: seq<Span>, from: nat, to: nat) {
    && (forall i :: 0 <= i < |spans| ==> from <= spans[i].start <= spans[i].end <= to)
    && (forall i, j :: 0 <= i < j < |spans| ==> spans[i].end <= spans[j].start)
  }

  // Last span first, so that the others still name the same lines.
  function WrapAll(ls: seq<string>, spans: seq<Span>): (r: seq<string>)
    requires Ordered(spans, 0, |ls|)
    ensures |r| == |ls| + 2 * |spans|
  {
    if spans == [] then ls else Wrap(WrapAll(ls, spans[1..]), spans[0])
  }

  function UnwrapAll(ls: seq<string>, spans: seq<Span>): seq<string>
    requires |ls| >= 2 * |spans| && Ordered(spans, 0, |ls| - 2 * |spans|)
    decreases |spans|
  {
    if spans == [] then ls else UnwrapAll(Unwrap(ls, spans[0]), spans[1..])
  }

  lemma Middle(a: seq<string>, b: seq<string>, c: seq<string>)
    ensures var w := a + [FENCE] + b + [FENCE] + c;
      && w[..|a|] == a && w[|a| + 1..|a| + |b| + 1] == b && w[|a| + |b| + 2..] == c
  {
  }

  lemma UnwrapWrap(ls: seq<string>, t: Span)
    requires t.start <= t.end <= |ls|
    ensures Unwrap(Wrap(ls, t), t) == ls
  {
    Middle(ls[..t.start], ls[t.start..t.end], ls[t.end..]);
    assert ls[..t.start] + ls[t.start..t.end] + ls[t.end..] == ls;
  }

  // Taking the fences out gives the lines back.
  lemma {:induction false} UnwrapAllWrapAll(ls: seq<string>, spans: seq<Span>)
    requires Ordered(spans, 0, |ls|)
    ensures UnwrapAll(WrapAll(ls, spans), spans) == ls
    decreases |spans|
  {
    if spans != [] {
      hide Wrap, Unwrap;
      UnwrapWrap(WrapAll(ls, spans[1..]), spans[0]);
      UnwrapAllWrapAll(ls, spans[1..]);
    }
  }

  lemma OrderedCons(t: Span, spans: seq<Span>, from: nat, to: nat)
    requires from <= t.start <= t.end <= to && Ordered(spans, t.end, to)
    ensures Ordered([t] + spans, from, to)
  {
    var all := [t] + spans;
    assert forall i :: 1 <= i < |all| ==> all[i] == spans[i - 1];
  }

  lemma NoneOrdered(from: nat, to: nat)
    ensures Ordered([], from, to)
  {
  }

  lemma OrderedWiden(spans: seq<Span>, from: nat, to: nat, earlier: nat)
    requires Ordered(spans, from, to) && earlier <= from
    ensures Ordered(spans, earlier, to)
  {
  }

  lemma {:induction false} ScanOrdered(ls: seq<string>, at: nat, fence: bool)
    ensures Ordered(Scan(ls, at, fence), at, at + |ls|)
    decreases |ls|
  {
    hide Ordered, IsFence, IsRow, IsSeparator, BarRun;
    if ls == [] {
      NoneOrdered(at, at);
    } else if IsFence(ls[0]) {
      ScanOrdered(ls[1..], at + 1, !fence);
      OrderedWiden(Scan(ls[1..], at + 1, !fence), at + 1, at + |ls|, at);
    } else if !fence && IsTable(ls) {
      var k := TableLen(ls);
      ScanOrdered(ls[k..], at + k, false);
      OrderedCons(Span(at, at + k), Scan(ls[k..], at + k, false), at, at + |ls|);
    } else {
      ScanOrdered(ls[1..], at + 1, fence);
      OrderedWiden(Scan(ls[1..], at + 1, fence), at + 1, at + |ls|, at);
    }
  }

  // `spans` counted from line `at`.
  function Shifted(spans: seq<Span>, at: nat): (r: seq<Span>)
    requires forall i :: 0 <= i < |spans| ==> at <= spans[i].start <= spans[i].end
    ensures |r| == |spans|
    ensures forall i :: 0 <= i < |r| ==> r[i] == Span(spans[i].start - at, spans[i].end - at)
  {
    seq(|spans|, i requires 0 <= i < |spans| => Span(spans[i].start - at, spans[i].end - at))
  }

  lemma WrapShift(front: seq<string>, ls: seq<string>, t: Span)
    requires |front| <= t.start <= t.end <= |front| + |ls|
    ensures Wrap(front + ls, t) == front + Wrap(ls, Span(t.start - |front|, t.end - |front|))
  {
    var u := Span(t.start - |front|, t.end - |front|);
    assert (front + ls)[..t.start] == front + ls[..u.start];
    assert (front + ls)[t.start..t.end] == ls[u.start..u.end];
    assert (front + ls)[t.end..] == ls[u.end..];
  }

  lemma ShiftedOrdered(spans: seq<Span>, from: nat, to: nat)
    requires Ordered(spans, from, from + to)
    ensures Ordered(Shifted(spans, from), 0, to)
    ensures spans != [] ==> Ordered(spans[1..], from, from + to) && Shifted(spans, from)[1..] == Shifted(spans[1..], from)
    ensures spans != [] ==> from <= spans[0].start <= spans[0].end <= from + to
  {
  }

  // Wrapping behind the first lines leaves them alone.
  lemma {:induction false} WrapBehind(front: seq<string>, ls: seq<string>, spans: seq<Span>, from: nat)
    requires from == |front| && Ordered(spans, from, from + |ls|)
    ensures Ordered(Shifted(spans, from), 0, |ls|)
    ensures WrapAll(front + ls, spans) == front + WrapAll(ls, Shifted(spans, from))
    decreases |spans|
  {
    hide Wrap, Ordered;
    ShiftedOrdered(spans, from, |ls|);
    OrderedWiden(spans, from, from + |ls|, 0);
    if spans != [] {
      WrapBehind(front, ls, spans[1..], from);
      WrapShift(front, WrapAll(ls, Shifted(spans[1..], from)), spans[0]);
    }
  }

  function Drop(spans: seq<Span>, n: nat): seq<Span> {
    if n >= |spans| then [] else spans[n..]
  }

  lemma DropOrdered(spans: seq<Span>, n: nat, from: nat, to: nat)
    requires Ordered(spans, from, to)
    ensures Ordered(Drop(spans, n), from, to)
  {
  }

  // The tables beyond the first n, counted from the first of these lines.
  function Overflow(ls: seq<string>, at: nat, fence: bool, n: nat): (r: seq<Span>)
    ensures Ordered(r, 0, |ls|)
  {
    ScanOrdered(ls, at, fence);
    DropOrdered(Scan(ls, at, fence), n, at, at + |ls|);
    ShiftedOrdered(Drop(Scan(ls, at, fence), n), at, |ls|);
    Shifted(Drop(Scan(ls, at, fence), n), at)
  }

  // Skipping k lines that hold no table of the batch.
  lemma WrapRest(ls: seq<string>, k: nat, at: nat, fence: bool, n: nat, spans: seq<Span>)
    requires k <= |ls| && Ordered(spans, at + k, at + |ls|)
    requires spans == Drop(Scan(ls[k..], at + k, fence), n)
    ensures Ordered(Shifted(spans, at), 0, |ls|)
    ensures WrapAll(ls, Shifted(spans, at)) == ls[..k] + WrapAll(ls[k..], Overflow(ls[k..], at + k, fence, n))
  {
    OrderedWiden(spans, at + k, at + |ls|, at);
    ShiftedOrdered(spans, at, |ls|);
    ShiftedLater(spans, at, k, |ls|);
    assert ls == ls[..k] + ls[k..];
    WrapBehind(ls[..k], ls[k..], Shifted(spans, at), k);
  }

  lemma ShiftedLater(spans: seq<Span>, at: nat, k: nat, n: nat)
    requires k <= n && Ordered(spans, at + k, at + n)
    ensures Ordered(Shifted(spans, at), k, n) && Shifted(Shifted(spans, at), k) == Shifted(spans, at + k)
  {
  }

  // Wrapping the overflow, last table first, limits the lines.
  lemma {:induction false} WrapsAreLimited(ls: seq<string>, at: nat, fence: bool, n: nat)
    ensures WrapAll(ls, Overflow(ls, at, fence, n)) == Limited(ls, fence, n)
    decreases |ls|
  {
    hide Ordered, IsFence, IsTable, BarRun, Wrap, WrapAll, Overflow, Scan, Limited, TableLen;
    if ls == [] {
      LimitedEmpty(fence, n);
      NothingWrapped(at, fence, n);
    } else if IsFence(ls[0]) {
      ScanSkip(ls, at, fence);
      LimitedSkip(ls, fence, n);
      SkipWrapped(ls, at, fence, n, !fence);
      WrapsAreLimited(ls[1..], at + 1, !fence, n);
    } else if !fence && IsTable(ls) {
      var k := TableLen(ls);
      LimitedTable(ls, n);
      if n > 0 {
        KeptWrapped(ls, at, n);
        WrapsAreLimited(ls[k..], at + k, false, n - 1);
      } else {
        TableWrapped(ls, at);
        WrapsAreLimited(ls[k..], at + k, false, 0);
      }
    } else {
      ScanSkip(ls, at, fence);
      LimitedSkip(ls, fence, n);
      SkipWrapped(ls, at, fence, n, fence);
      WrapsAreLimited(ls[1..], at + 1, fence, n);
    }
  }

  lemma ScanSkip(ls: seq<string>, at: nat, fence: bool)
    requires ls != [] && (IsFence(ls[0]) || fence || !IsTable(ls))
    ensures Scan(ls, at, fence) == Scan(ls[1..], at + 1, if IsFence(ls[0]) then !fence else fence)
  {
  }

  lemma NothingWrapped(at: nat, fence: bool, n: nat)
    ensures WrapAll([], Overflow([], at, fence, n)) == []
  {
  }

  lemma SkipWrapped(ls: seq<string>, at: nat, fence: bool, n: nat, next: bool)
    requires ls != [] && Scan(ls, at, fence) == Scan(ls[1..], at + 1, next)
    ensures WrapAll(ls, Overflow(ls, at, fence, n)) == [ls[0]] + WrapAll(ls[1..], Overflow(ls[1..], at + 1, next, n))
  {
    hide Wrap, WrapAll, Shifted, Ordered, Scan, Drop;
    ScanOrdered(ls[1..], at + 1, next);
    DropOrdered(Scan(ls[1..], at + 1, next), n, at + 1, at + |ls|);
    WrapRest(ls, 1, at, next, n, Drop(Scan(ls[1..], at + 1, next), n));
    assert ls[..1] == [ls[0]];
  }

  lemma DropCons(t: Span, spans: seq<Span>, n: nat)
    ensures Drop([t] + spans, n) == if n > 0 then Drop(spans, n - 1) else [t] + spans
    ensures Drop(spans, 0) == spans
  {
  }

  lemma KeptWrapped(ls: seq<string>, at: nat, n: nat)
    requires IsTable(ls) && !IsFence(ls[0]) && n > 0
    ensures var k := TableLen(ls);
      WrapAll(ls, Overflow(ls, at, false, n)) == ls[..k] + WrapAll(ls[k..], Overflow(ls[k..], at + k, false, n - 1))
  {
    hide Wrap, WrapAll, Shifted, Ordered, Scan, Drop, IsFence, IsTable, BarRun;
    var k := TableLen(ls);
    var tail := Scan(ls[k..], at + k, false);
    ScanTable(ls, at);
    DropCons(Span(at, at + k), tail, n);
    ScanOrdered(ls[k..], at + k, false);
    DropOrdered(tail, n - 1, at + k, at + |ls|);
    WrapRest(ls, k, at, false, n - 1, Drop(tail, n - 1));
  }

  lemma ShiftedCons(t: Span, spans: seq<Span>, at: nat, to: nat)
    requires at <= t.start <= t.end && Ordered([t] + spans, at, to) && Ordered(spans, at, to)
    ensures Shifted([t] + spans, at) == [Span(t.start - at, t.end - at)] + Shifted(spans, at)
  {
    var all := Shifted([t] + spans, at);
    assert forall i :: 1 <= i < |all| ==> all[i] == Shifted(spans, at)[i - 1];
  }

  lemma WrapAllCons(ls: seq<string>, t: Span, spans: seq<Span>)
    requires Ordered([t] + spans, 0, |ls|) && Ordered(spans, 0, |ls|)
    ensures t.start <= t.end <= |ls| && WrapAll(ls, [t] + spans) == Wrap(WrapAll(ls, spans), t)
  {
    assert ([t] + spans)[0] == t && ([t] + spans)[1..] == spans;
  }

  lemma OverflowTable(ls: seq<string>, at: nat)
    requires IsTable(ls) && !IsFence(ls[0])
    ensures var k := TableLen(ls);
      var tail := Scan(ls[k..], at + k, false);
      && Ordered(tail, at + k, at + |ls|) && Ordered(tail, at, at + |ls|)
      && Ordered(Shifted(tail, at), 0, |ls|)
      && Overflow(ls, at, false, 0) == [Span(0, k)] + Shifted(tail, at)
      && tail == Drop(tail, 0)
  {
    hide Wrap, WrapAll, Shifted, Ordered, Scan, Drop, IsFence, IsTable, BarRun;
    var k := TableLen(ls);
    var t, tail := Span(at, at + k), Scan(ls[k..], at + k, false);
    ScanTable(ls, at);
    DropCons(t, tail, 0);
    ScanOrdered(ls[k..], at + k, false);
    ScanOrdered(ls, at, false);
    OrderedWiden(tail, at + k, at + |ls|, at);
    ShiftedOrdered(tail, at, |ls|);
    ShiftedCons(t, tail, at, at + |ls|);
  }

  lemma TableWrapped(ls: seq<string>, at: nat)
    requires IsTable(ls) && !IsFence(ls[0])
    ensures var k := TableLen(ls);
      WrapAll(ls, Overflow(ls, at, false, 0))
      == [FENCE] + ls[..k] + [FENCE] + WrapAll(ls[k..], Overflow(ls[k..], at + k, false, 0))
  {
    hide Wrap, WrapAll, Shifted, Ordered, Scan, Drop, IsFence, IsTable, BarRun, Overflow;
    var k := TableLen(ls);
    var tail := Scan(ls[k..], at + k, false);
    OverflowTable(ls, at);
    WrapRest(ls, k, at, false, 0, tail);
    WrapAllCons(ls, Span(0, k), Shifted(tail, at));
    WrapFirst(ls[..k], WrapAll(ls[k..], Overflow(ls[k..], at + k, false, 0)));
  }

  lemma WrapFirst(table: seq<string>, rest: seq<string>)
    ensures Wrap(table + rest, Span(0, |table|)) == [FENCE] + table + [FENCE] + rest
  {
    assert (table + rest)[0..|table|] == table;
    assert (table + rest)[|table|..] == rest;
  }

  // ---------------------------------------------------------------- the program

  // The loop of the scanner, by line index.
  method ScanTables(lines: seq<string>) returns (tables: seq<Span>)
    ensures tables == Scan(lines, 0, false)
    ensures AreTables(lines, 0, false, tables) && Ordered(tables, 0, |lines|)
  {
    hide IsFence, IsRow, IsSeparator, StartsBar, AreTables, Ordered;
    ScanFindsTables(lines, 0, false);
    ScanOrdered(lines, 0, false);
    tables := [];
    var inFence, i := false, 0;
    assert lines[0..] == lines;
    while i < |lines|
      invariant 0 <= i <= |lines|
      invariant tables + Scan(lines[i..], i, inFence) == Scan(lines, 0, false)
    {
      assert lines[i..][1..] == lines[i + 1..];
      if IsFence(lines[i]) {
        inFence, i := !inFence, i + 1;
      } else if !inFence && IsRow(lines[i]) && i + 1 < |lines| && IsSeparator(lines[i + 1]) {
        assert IsTable(lines[i..]);
        var end := TableEnd(lines, i);
        assert lines[i..][end - i..] == lines[end..];
        tables := tables + [Span(i, end)];
        i := end;
      } else {
        i := i + 1;
      }
    }
  }

  method TableEnd(lines: seq<string>, start: nat) returns (end: nat)
    requires start <= |lines| && IsTable(lines[start..])
    ensures end == start + TableLen(lines[start..]) <= |lines|
  {
    assert lines[start..][2..] == lines[start + 2..];
    end := start + 2;
    while end < |lines| && StartsBar(lines[end])
      invariant start + 2 <= end <= |lines|
      invariant end - (start + 2) + BarRun(lines[end..]) == BarRun(lines[start + 2..])
    {
      assert lines[end..][1..] == lines[end + 1..];
      end := end + 1;
    }
  }

  function TablesOf(text: string): seq<Span> {
    Scan(Split(text), 0, false)
  }

  // How many of `count` tables stay as they are: a negative limit counts from the end.
  function KeepCount(count: nat, maxTables: int): nat {
    if maxTables >= 0 then maxTables
    else if count + maxTables >= 0 then count + maxTables
    else 0
  }

  method LimitCardTables(text: string, maxTables: int) returns (r: string)
    ensures var keep := KeepCount(|TablesOf(text)|, maxTables);
      && TablesOf(r) == Take(TablesOf(text), keep)
      && Ordered(Drop(TablesOf(text), keep), 0, |Split(text)|)
      && Split(r) == WrapAll(Split(text), Drop(TablesOf(text), keep))
      && (|TablesOf(text)| <= keep ==> r == text)
    ensures AreTables(Split(text), 0, false, TablesOf(text)) && AreTables(Split(r), 0, false, TablesOf(r))
    ensures var count := |TablesOf(text)|;
      |TablesOf(r)| ==
        if maxTables >= 0 then (if count <= maxTables then count else maxTables)
        else if count + maxTables >= 0 then count + maxTables else 0
  {
    ScanFindsTables(Split(text), 0, false);
    hide Wrap, WrapAll, Ordered, Scan, AreTables;
    var lines := Split(text);
    var tables := ScanTables(lines);
    ScanOrdered(lines, 0, false);
    var keep := KeepCount(|tables|, maxTables);
    DropOrdered(tables, keep, 0, |lines|);
    LimitedText(text, keep);
    NothingToWrap(lines);
    JoinSplit(text);
    if |tables| <= maxTables {
      return text;
    }
    lines := WrapOverflow(lines, tables, keep);
    r := Join(lines);
    ScanFindsTables(Split(r), 0, false);
  }

  method WrapOverflow(original: seq<string>, tables: seq<Span>, keep: nat) returns (lines: seq<string>)
    requires Ordered(tables, 0, |original|)
    ensures Ordered(Drop(tables, keep), 0, |original|)
    ensures lines == WrapAll(original, Drop(tables, keep))
  {
    hide Wrap;
    lines := original;
    var k := |tables|;
    DropOrdered(tables, keep, 0, |original|);
    assert tables[k..] == [];
    while k > keep
      invariant k <= |tables| && (k >= keep || k == |tables|)
      invariant lines == WrapAll(original, tables[k..])
      decreases k
    {
      k := k - 1;
      var t := tables[k];
      assert tables[k..][1..] == tables[k + 1..];
      lines := PutBetweenFences(lines, t);
    }
    assert tables[k..] == Drop(tables, keep);
  }

  method PutBetweenFences(lines: seq<string>, t: Span) returns (r: seq<string>)
    requires t.start <= t.end <= |lines|
    ensures r == Wrap(lines, t)
  {
    r := lines[..t.start] + ([FENCE] + lines[t.start..t.end] + [FENCE]) + lines[t.end..];
  }

  lemma NothingToWrap(ls: seq<string>)
    ensures WrapAll(ls, []) == ls
  {
  }

  lemma {:induction false} LimitedOneLine(ls: seq<string>, fence: bool, n: nat)
    requires forall i :: 0 <= i < |ls| ==> OneLine(ls[i])
    ensures ls != [] ==> Limited(ls, fence, n) != []
    ensures forall i :: 0 <= i < |Limited(ls, fence, n)| ==> OneLine(Limited(ls, fence, n)[i])
    decreases |ls|
  {
    hide OneLine, IsFence, IsTable;
    FenceLine();
    if ls == [] {
    } else if IsFence(ls[0]) {
      LimitedOneLine(ls[1..], !fence, n);
    } else if !fence && IsTable(ls) {
      var k := TableLen(ls);
      LimitedOneLine(ls[k..], false, if n > 0 then n - 1 else 0);
    } else {
      LimitedOneLine(ls[1..], fence, n);
    }
  }

  // The text whose lines are the limited ones has the first n tables, where they
  // were, and no others.
  lemma LimitedText(text: string, n: nat)
    ensures Ordered(Drop(TablesOf(text), n), 0, |Split(text)|)
    ensures var lines := WrapAll(Split(text), Drop(TablesOf(text), n));
      && lines != [] && Split(Join(lines)) == lines && TablesOf(Join(lines)) == Take(TablesOf(text), n)
    ensures |TablesOf(text)| <= n ==> TablesOf(text) == Take(TablesOf(text), n)
  {
    var ls := Split(text);
    ScanOrdered(ls, 0, false);
    DropOrdered(Scan(ls, 0, false), n, 0, |ls|);
    hide Wrap, WrapAll, Ordered, Scan, Limited;
    WrapsAreLimited(ls, 0, false, n);
    assert Shifted(Drop(TablesOf(text), n), 0) == Drop(TablesOf(text), n);
    SplitOneLine(text);
    LimitedOneLine(ls, false, n);
    SplitJoin(Limited(ls, false, n));
    LimitedScans(ls, 0, false, n);
  }

  // Taking fences out again, where there are any to take out.
  ghost function Unfenced(lines: seq<string>, spans: seq<Span>): seq<string> {
    if |lines| >= 2 * |spans| && Ordered(spans, 0, |lines| - 2 * |spans|) then UnwrapAll(lines, spans) else lines
  }

  // A limited text has at most n tables, limiting it again finds nothing to limit, and
  // without the lines put in its lines are those of the text it was made from.
  lemma LimitingOnceIsEnough(text: string, n: nat)
    ensures Ordered(Drop(TablesOf(text), n), 0, |Split(text)|)
    ensures var lines := WrapAll(Split(text), Drop(TablesOf(text), n));
      && lines != [] && Split(Join(lines)) == lines
      && |TablesOf(Join(lines))| == (if |TablesOf(text)| <= n then |TablesOf(text)| else n)
      && Drop(TablesOf(Join(lines)), n) == []
      && Unfenced(lines, Drop(TablesOf(text), n)) == Split(text)
  {
    hide Wrap, Unwrap, Ordered, Scan;
    LimitedText(text, n);
    UnwrapAllWrapAll(Split(text), Drop(TablesOf(text), n));
  }
}
