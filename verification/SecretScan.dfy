// The secret scanner's text walk: findings by line, de-duplicated, over a whole
// text or over the overlapping windows in which a large file is streamed. The
// rules are a parameter that lists the matches of a text.
module SecretScan {
  import opened Wrappers
  import opened JavaScript

  datatype Match = Match(rule: string, offset: nat, length: nat)

  datatype Finding = Finding(line: nat, rule: string)

  /** Lists the matches of a text; each starts and ends inside it. */
  type Finder = string -> seq<Match>

  const MAX_TEXT_FILE_BYTES: nat := 5242880
  const SCAN_WINDOW_OVERLAP_BYTES: nat := 65536

  ghost predicate InRange(find: Finder) {
    forall text: string, m: Match :: m in find(text) ==> m.offset + m.length <= |text|
  }

  // ------------------------------------------------------------------ Lines

  function Newlines(text: string): nat {
    if text == [] then 0
    else Newlines(text[..|text| - 1]) + if text[|text| - 1] == '\n' then 1 else 0
  }

  /** The one-based line of a position. */
  function LineAt(text: string, position: nat): nat
    requires position <= |text|
  {
    1 + Newlines(text[..position])
  }

  lemma {:induction false} NewlinesAdd(a: string, b: string)
    ensures Newlines(a + b) == Newlines(a) + Newlines(b)
  {
    if b == [] {
      assert a + b == a;
    } else {
      assert (a + b)[..|a + b| - 1] == a + b[..|b| - 1];
      NewlinesAdd(a, b[..|b| - 1]);
    }
  }

  /** A line inside a slice, shifted by the line on which the slice starts, is the line in the whole. */
  lemma LineShift(file: string, start: nat, end: nat, offset: nat)
    requires start <= end <= |file| && offset <= end - start
    ensures LineAt(file, start) + LineAt(file[start..end], offset) - 1 == LineAt(file, start + offset)
  {
    assert file[..start + offset] == file[..start] + file[start..end][..offset];
    NewlinesAdd(file[..start], file[start..end][..offset]);
  }

  method LineNumber(text: string, offset: nat) returns (line: nat)
    requires offset <= |text|
    ensures line == LineAt(text, offset)
  {
    line := 1;
    for index := 0 to offset
      invariant line == LineAt(text, index)
    {
      assert text[..index + 1][..index] == text[..index];
      if text[index] == '\n' {
        line := line + 1;
      }
    }
  }

  // ---------------------------------------------------------- De-duplication

  /** The first occurrence of every element, in order. */
  function Dedupe(s: seq<Finding>): seq<Finding> {
    if s == [] then []
    else
      var earlier := Dedupe(s[..|s| - 1]);
      if s[|s| - 1] in earlier then earlier else earlier + [s[|s| - 1]]
  }

  predicate Distinct(s: seq<Finding>) {
    forall i, j :: 0 <= i < j < |s| ==> s[i] != s[j]
  }

  lemma {:induction false} DedupeFacts(s: seq<Finding>)
    ensures Distinct(Dedupe(s))
    ensures forall f :: f in Dedupe(s) <==> f in s
  {
    if s != [] {
      DedupeFacts(s[..|s| - 1]);
      assert s == s[..|s| - 1] + [s[|s| - 1]];
    }
  }

  lemma DedupeNothing()
    ensures Dedupe([]) == []
  {
  }

  lemma DedupeNext(s: seq<Finding>, f: Finding)
    ensures Dedupe(s + [f]) == if f in Dedupe(s) then Dedupe(s) else Dedupe(s) + [f]
  {
    assert (s + [f])[..|s|] == s;
  }

  function Located(text: string, matches: seq<Match>): seq<Finding>
    requires forall m <- matches :: m.offset <= |text|
  {
    seq(|matches|, i requires 0 <= i < |matches| => Finding(LineAt(text, matches[i].offset), matches[i].rule))
  }

  /** What scanning one text reports. */
  function TextFindings(text: string, find: Finder): seq<Finding>
    requires InRange(find)
  {
    Dedupe(Located(text, find(text)))
  }

  /** One line and rule is reported once, in the order of the matches. */
  method ScanText(text: string, find: Finder) returns (findings: seq<Finding>)
    requires InRange(find)
    ensures findings == TextFindings(text, find)
  {
    hide Dedupe, LineAt;
    DedupeNothing();
    findings := [];
    var seen: set<Finding> := {};
    var matches := find(text);
    ghost var located := Located(text, matches);
    for i := 0 to |matches|
      invariant findings == Dedupe(located[..i])
      invariant forall f :: f in seen <==> f in findings
    {
      var line := LineNumber(text, matches[i].offset);
      var finding := Finding(line, matches[i].rule);
      assert located[..i + 1] == located[..i] + [finding];
      DedupeNext(located[..i], finding);
      if finding !in seen {
        seen := seen + {finding};
        findings := findings + [finding];
      }
    }
    assert located[..|matches|] == located;
  }

  // ---------------------------------------------------------------- Windows

  datatype Window = Window(start: nat, end: nat)

  /** How many bytes a read at a position returns: never more than the buffer or the file holds,
      and none only at the end of the file. */
  type Reader = nat -> nat

  ghost predicate Reads(read: Reader, file: string) {
    forall position: nat :: position <= |file| ==>
      && read(position) <= MAX_TEXT_FILE_BYTES
      && position + read(position) <= |file|
      && (position < |file| ==> read(position) > 0)
  }

  /** The windows scanned from a position on: what is carried over, then what the read returns. The size is
      the one the caller saw before opening the file, which may have changed since. */
  function Windows(file: string, size: nat, read: Reader, position: nat): seq<Window>
    requires Reads(read, file) && position <= |file|
    decreases |file| - position
  {
    if position >= size || read(position) == 0 then []
    else
      var end := position + read(position);
      [Window(position - Min(position, SCAN_WINDOW_OVERLAP_BYTES), end)] + Windows(file, size, read, end)
  }

  /** Where the streaming stops. */
  function End(file: string, size: nat, read: Reader, position: nat): nat
    requires Reads(read, file) && position <= |file|
    decreases |file| - position
  {
    if position >= size || read(position) == 0 then position
    else End(file, size, read, position + read(position))
  }

  /** Every byte is read, unless the file has grown since its size was taken. */
  lemma {:induction false} EndReached(file: string, size: nat, read: Reader, position: nat)
    requires Reads(read, file) && position <= |file|
    ensures position <= End(file, size, read, position) <= |file|
    ensures Min(size, |file|) <= End(file, size, read, position) || position > Min(size, |file|)
    decreases |file| - position
  {
    if position < size && read(position) != 0 {
      EndReached(file, size, read, position + read(position));
    }
  }

  lemma {:induction false} WindowsInFile(file: string, size: nat, read: Reader, position: nat)
    requires Reads(read, file) && position <= |file|
    ensures forall w <- Windows(file, size, read, position) :: w.start <= w.end <= |file|
    decreases |file| - position
  {
    if position < size && read(position) != 0 {
      WindowsInFile(file, size, read, position + read(position));
    }
  }

  /** No stretch of up to the overlap falls between two windows. */
  lemma {:induction false} StretchInOneWindow(file: string, size: nat, read: Reader, position: nat, a: nat, b: nat)
    requires Reads(read, file) && position <= |file|
    requires a <= b <= End(file, size, read, position) && b - a <= SCAN_WINDOW_OVERLAP_BYTES
    requires position < b
    ensures exists w <- Windows(file, size, read, position) :: w.start <= a && b <= w.end
    decreases |file| - position
  {
    var end := position + read(position);
    var first := Window(position - Min(position, SCAN_WINDOW_OVERLAP_BYTES), end);
    if b <= end {
      assert first in Windows(file, size, read, position);
    } else {
      StretchInOneWindow(file, size, read, end, a, b);
    }
  }

  /** What one window contributes, with the lines of the file. */
  function WindowFindings(file: string, w: Window, find: Finder): seq<Finding>
    requires InRange(find) && w.start <= w.end <= |file|
  {
    var local := TextFindings(file[w.start..w.end], find);
    seq(|local|, i requires 0 <= i < |local| => Shifted(file, w.start, local[i]))
  }

  function Shifted(file: string, start: nat, f: Finding): Finding
    requires start <= |file|
  {
    Finding(Newlines(file[..start]) + f.line, f.rule)
  }

  function AllFindings(file: string, ws: seq<Window>, find: Finder): seq<Finding>
    requires InRange(find) && forall w <- ws :: w.start <= w.end <= |file|
  {
    if ws == [] then [] else WindowFindings(file, ws[0], find) + AllFindings(file, ws[1..], find)
  }

  // ------------------------------------------------------------ Large files

  /** What streaming a file reports: nothing if a byte that was read is NUL, else the findings of all windows. */
  function LargeFindings(file: string, size: nat, read: Reader, find: Finder): seq<Finding>
    requires InRange(find) && Reads(read, file)
  {
    WindowsInFile(file, size, read, 0);
    EndReached(file, size, read, 0);
    if '\0' in file[..End(file, size, read, 0)] then []
    else Dedupe(AllFindings(file, Windows(file, size, read, 0), find))
  }

  /** Merges the findings of one window into those of the windows before it. */
  method Merge(
    file: string, w: Window, find: Finder, ghost earlier: seq<Finding>, lineBase: nat, findings: seq<Finding>,
    seen: set<Finding>)
    returns (merged: seq<Finding>, nowSeen: set<Finding>)
    requires InRange(find) && w.start <= w.end <= |file|
    requires lineBase == LineAt(file, w.start)
    requires findings == Dedupe(earlier) && forall f :: f in seen <==> f in findings
    ensures merged == Dedupe(earlier + WindowFindings(file, w, find))
    ensures forall f :: f in nowSeen <==> f in merged
  {
    hide Dedupe, TextFindings;
    merged, nowSeen := findings, seen;
    var local := ScanText(file[w.start..w.end], find);
    ghost var here := WindowFindings(file, w, find);
    assert earlier + here[..0] == earlier;
    for i := 0 to |local|
      invariant merged == Dedupe(earlier + here[..i])
      invariant forall f :: f in nowSeen <==> f in merged
    {
      var finding := Finding(lineBase + local[i].line - 1, local[i].rule);
      assert earlier + here[..i + 1] == (earlier + here[..i]) + [finding];
      DedupeNext(earlier + here[..i], finding);
      if finding !in nowSeen {
        nowSeen := nowSeen + {finding};
        merged := merged + [finding];
      }
    }
    assert here[..|local|] == here;
  }

  lemma {:induction false} AllFindingsAdd(file: string, ws: seq<Window>, w: Window, find: Finder)
    requires InRange(find) && forall v <- ws + [w] :: v.start <= v.end <= |file|
    ensures AllFindings(file, ws + [w], find) == AllFindings(file, ws, find) + WindowFindings(file, w, find)
  {
    hide WindowFindings;
    if ws == [] {
      assert [] + [w] == [w];
      assert AllFindings(file, [w], find) == WindowFindings(file, w, find) + AllFindings(file, [], find);
    } else {
      assert (ws + [w])[1..] == ws[1..] + [w];
      AllFindingsAdd(file, ws[1..], w, find);
    }
  }

  /** The tail of a window that the next one starts with, and the line on which that tail starts. */
  method CarryOver(windowText: string, line: nat) returns (carry: string, lineBase: nat)
    ensures var dropped := |windowText| - Min(|windowText|, SCAN_WINDOW_OVERLAP_BYTES);
            carry == windowText[dropped..] && lineBase == line + Newlines(windowText[..dropped])
  {
    var droppedCount :=
      if |windowText| > SCAN_WINDOW_OVERLAP_BYTES then |windowText| - SCAN_WINDOW_OVERLAP_BYTES else 0;
    carry, lineBase := windowText[droppedCount..], line;
    for index := 0 to droppedCount
      invariant lineBase == line + Newlines(windowText[..index])
    {
      assert windowText[..index + 1][..index] == windowText[..index];
      if windowText[index] == '\n' {
        lineBase := lineBase + 1;
      }
    }
  }

  /** What holds between two reads: `done` are the windows behind `position`. */
  ghost predicate Progress(
    file: string, size: nat, read: Reader, find: Finder, position: nat, done: seq<Window>, findings: seq<Finding>)
    requires InRange(find) && Reads(read, file)
  {
    && position <= |file|
    && (forall w <- done :: w.start <= w.end <= |file|)
    && findings == Dedupe(AllFindings(file, done, find))
    && Windows(file, size, read, 0) == done + Windows(file, size, read, position)
    && End(file, size, read, 0) == End(file, size, read, position)
    && '\0' !in file[..position]
  }

  lemma ProgressStarts(file: string, size: nat, read: Reader, find: Finder)
    requires InRange(find) && Reads(read, file)
    ensures Progress(file, size, read, find, 0, [], [])
  {
    hide Windows;
    assert [] + Windows(file, size, read, 0) == Windows(file, size, read, 0);
  }

  lemma ProgressStep(
    file: string, size: nat, read: Reader, find: Finder, position: nat, done: seq<Window>, findings: seq<Finding>,
    merged: seq<Finding>)
    requires InRange(find) && Reads(read, file)
    requires Progress(file, size, read, find, position, done, findings)
    requires position < size && read(position) > 0
    requires '\0' !in file[position..position + read(position)]
    requires var w := Window(position - Min(position, SCAN_WINDOW_OVERLAP_BYTES), position + read(position));
             merged == Dedupe(AllFindings(file, done, find) + WindowFindings(file, w, find))
    ensures var w := Window(position - Min(position, SCAN_WINDOW_OVERLAP_BYTES), position + read(position));
            Progress(file, size, read, find, position + read(position), done + [w], merged)
  {
    hide WindowFindings, AllFindings, Dedupe;
    var end := position + read(position);
    var w := Window(position - Min(position, SCAN_WINDOW_OVERLAP_BYTES), end);
    AllFindingsAdd(file, done, w, find);
    assert done + ([w] + Windows(file, size, read, end)) == (done + [w]) + Windows(file, size, read, end);
    assert file[..end] == file[..position] + file[position..end];
  }

  lemma ProgressEnds(
    file: string, size: nat, read: Reader, find: Finder, position: nat, done: seq<Window>, findings: seq<Finding>)
    requires InRange(find) && Reads(read, file)
    requires Progress(file, size, read, find, position, done, findings)
    requires position >= size || read(position) == 0
    ensures findings == LargeFindings(file, size, read, find)
  {
    assert done + [] == done;
  }

  lemma NulIsRead(
    file: string, size: nat, read: Reader, find: Finder, position: nat, done: seq<Window>, findings: seq<Finding>)
    requires InRange(find) && Reads(read, file)
    requires Progress(file, size, read, find, position, done, findings)
    requires position < size && '\0' in file[position..position + read(position)]
    ensures LargeFindings(file, size, read, find) == []
  {
    hide WindowFindings, AllFindings, Dedupe, Windows;
    var end := position + read(position);
    EndReached(file, size, read, end);
    var i :| 0 <= i < read(position) && file[position..end][i] == '\0';
    assert file[..End(file, size, read, 0)][position + i] == '\0';
  }

  /** Streams a file in overlapping windows: memory stays bounded by one window. */
  method ScanLargeText(file: string, size: nat, read: Reader, find: Finder) returns (findings: seq<Finding>)
    requires InRange(find) && Reads(read, file)
    ensures findings == LargeFindings(file, size, read, find)
  {
    hide Progress, LargeFindings, WindowFindings, AllFindings, Dedupe, Windows, End;
    findings := [];
    var seen: set<Finding> := {};
    var carry, lineBase, position := "", 1, 0;
    ghost var done: seq<Window> := [];
    ProgressStarts(file, size, read, find);
    while position < size
      invariant Progress(file, size, read, find, position, done, findings)
      invariant forall f :: f in seen <==> f in findings
      invariant position <= |file| && |carry| == Min(position, SCAN_WINDOW_OVERLAP_BYTES)
      invariant carry == file[position - |carry|..position]
      invariant lineBase == LineAt(file, position - |carry|)
      decreases |file| - position
    {
      var bytesRead := read(position);
      if bytesRead == 0 {
        break;
      }
      var chunk := file[position..position + bytesRead];
      if '\0' in chunk {
        NulIsRead(file, size, read, find, position, done, findings);
        return [];
      }
      var window := Window(position - |carry|, position + bytesRead);
      var windowText := carry + chunk;
      assert windowText == file[window.start..window.end];
      ProgressFindings(file, size, read, find, position, done, findings);
      ghost var before := findings;
      findings, seen := Merge(file, window, find, AllFindings(file, done, find), lineBase, findings, seen);
      ProgressStep(file, size, read, find, position, done, before, findings);
      done := done + [window];
      position := position + bytesRead;
      if position >= size {
        break;
      }
      LineShift(file, window.start, window.end, |windowText| - Min(|windowText|, SCAN_WINDOW_OVERLAP_BYTES));
      carry, lineBase := CarryOver(windowText, lineBase);
    }
    ProgressEnds(file, size, read, find, position, done, findings);
  }

  lemma ProgressFindings(
    file: string, size: nat, read: Reader, find: Finder, position: nat, done: seq<Window>, findings: seq<Finding>)
    requires InRange(find) && Reads(read, file)
    requires Progress(file, size, read, find, position, done, findings)
    ensures (forall w <- done :: w.start <= w.end <= |file|) && findings == Dedupe(AllFindings(file, done, find))
  {
  }

  // ------------------------------------------------------ What is reported

  /** `f` is the line, in the file, and the rule of a match in a window. */
  ghost predicate MatchedIn(file: string, w: Window, find: Finder, f: Finding)
    requires InRange(find) && w.start <= w.end <= |file|
  {
    exists m <- find(file[w.start..w.end]) :: f == Finding(LineAt(file, w.start + m.offset), m.rule)
  }

  lemma TextFindingsAreMatches(text: string, find: Finder, f: Finding)
    requires InRange(find)
    ensures f in TextFindings(text, find) <==> exists m <- find(text) :: f == Finding(LineAt(text, m.offset), m.rule)
  {
    hide LineAt, Dedupe;
    var matches := find(text);
    var located := Located(text, matches);
    DedupeFacts(located);
    if f in located {
      var i :| 0 <= i < |located| && located[i] == f;
      assert matches[i] in matches;
    }
    if m :| m in matches && f == Finding(LineAt(text, m.offset), m.rule) {
      var i :| 0 <= i < |matches| && matches[i] == m;
      assert located[i] == f;
    }
  }

  lemma WindowFindingIsMatch(file: string, w: Window, find: Finder, f: Finding)
    requires InRange(find) && w.start <= w.end <= |file| && f in WindowFindings(file, w, find)
    ensures MatchedIn(file, w, find, f)
  {
    hide TextFindings, Newlines;
    var text := file[w.start..w.end];
    var local := TextFindings(text, find);
    var i :| 0 <= i < |local| && Shifted(file, w.start, local[i]) == f;
    TextFindingsAreMatches(text, find, local[i]);
    var m :| m in find(text) && local[i] == Finding(LineAt(text, m.offset), m.rule);
    LineShift(file, w.start, w.end, m.offset);
  }

  lemma MatchIsWindowFinding(file: string, w: Window, find: Finder, f: Finding)
    requires InRange(find) && w.start <= w.end <= |file| && MatchedIn(file, w, find, f)
    ensures f in WindowFindings(file, w, find)
  {
    hide TextFindings, Newlines;
    var text := file[w.start..w.end];
    var local := TextFindings(text, find);
    var m :| m in find(text) && f == Finding(LineAt(file, w.start + m.offset), m.rule);
    LineShift(file, w.start, w.end, m.offset);
    var g := Finding(LineAt(text, m.offset), m.rule);
    TextFindingsAreMatches(text, find, g);
    var i :| 0 <= i < |local| && local[i] == g;
    assert WindowFindings(file, w, find)[i] == f;
  }

  lemma {:induction false} AllFindingsAreMatches(file: string, ws: seq<Window>, find: Finder, f: Finding)
    requires InRange(find) && forall w <- ws :: w.start <= w.end <= |file|
    ensures f in AllFindings(file, ws, find) <==> exists w <- ws :: MatchedIn(file, w, find, f)
  {
    hide WindowFindings, MatchedIn;
    if ws != [] {
      if f in WindowFindings(file, ws[0], find) {
        WindowFindingIsMatch(file, ws[0], find, f);
      }
      if MatchedIn(file, ws[0], find, f) {
        MatchIsWindowFinding(file, ws[0], find, f);
      }
      AllFindingsAreMatches(file, ws[1..], find, f);
    }
  }

  /** The reported findings are exactly the matches of the windows, each on its line of the file, and each line
      and rule is reported once, however many windows or matches it was seen in. */
  lemma ReportsAreFileLines(file: string, size: nat, read: Reader, find: Finder, f: Finding)
    requires InRange(find) && Reads(read, file)
    requires '\0' !in file
    ensures Distinct(LargeFindings(file, size, read, find))
    ensures (forall w <- Windows(file, size, read, 0) :: w.start <= w.end <= |file|)
    ensures f in LargeFindings(file, size, read, find)
       <==> exists w <- Windows(file, size, read, 0) :: MatchedIn(file, w, find, f)
  {
    hide MatchedIn, Dedupe, AllFindings, Windows, End;
    WindowsInFile(file, size, read, 0);
    EndReached(file, size, read, 0);
    DedupeFacts(AllFindings(file, Windows(file, size, read, 0), find));
    AllFindingsAreMatches(file, Windows(file, size, read, 0), find, f);
  }

  /** A match of the file that every scanned window holding it whole finds, on its line. */
  ghost predicate FoundWhereWhole(file: string, size: nat, read: Reader, find: Finder, m: Match)
    requires InRange(find) && Reads(read, file) && m.offset + m.length <= |file|
  {
    forall w <- Windows(file, size, read, 0) ::
      w.start <= m.offset && m.offset + m.length <= w.end <= |file| ==>
        MatchedIn(file, w, find, Finding(LineAt(file, m.offset), m.rule))
  }

  /** A short match cannot be split from its report by the windows, whatever the sizes of the reads. */
  lemma ShortMatchIsReported(file: string, size: nat, read: Reader, find: Finder, m: Match)
    requires InRange(find) && Reads(read, file)
    requires '\0' !in file && size >= |file|
    requires m.offset + m.length <= |file| && 0 < m.length <= SCAN_WINDOW_OVERLAP_BYTES
    requires FoundWhereWhole(file, size, read, find, m)
    ensures Finding(LineAt(file, m.offset), m.rule) in LargeFindings(file, size, read, find)
  {
    hide Windows, End, LargeFindings, MatchedIn;
    EndReached(file, size, read, 0);
    WindowsInFile(file, size, read, 0);
    StretchInOneWindow(file, size, read, 0, m.offset, m.offset + m.length);
    ReportsAreFileLines(file, size, read, find, Finding(LineAt(file, m.offset), m.rule));
  }

  // --------------------------- Rules with a character of context on each side

  /** Whether a rule matches a token between two characters, either of which may be missing at an edge. */
  type Rules = (string, Option<char>, string, Option<char>) -> bool

  function CharAt(text: string, i: int): Option<char> {
    if 0 <= i < |text| then Some(text[i]) else None
  }

  predicate Occurs(occurs: Rules, text: string, rule: string, a: nat, n: nat) {
    0 < n && a + n <= |text| && occurs(rule, CharAt(text, a - 1), text[a..a + n], CharAt(text, a + n))
  }

  ghost predicate OccursOnLine(occurs: Rules, text: string, f: Finding) {
    exists a: nat, n: nat :: Occurs(occurs, text, f.rule, a, n) && f.line == LineAt(text, a)
  }

  /** The finder reports, by line and rule, exactly the occurrences of the rules. Which of several overlapping
      occurrences on a line it lists is left to it. */
  ghost predicate ReportsOccurrences(find: Finder, occurs: Rules) {
    && InRange(find)
    && forall text: string, f: Finding :: f in TextFindings(text, find) <==> OccursOnLine(occurs, text, f)
  }

  /** An occurrence in a window, on its line of the file. */
  ghost predicate SeenIn(occurs: Rules, file: string, w: Window, f: Finding)
    requires w.start <= w.end <= |file|
  {
    exists a: nat, n: nat ::
      Occurs(occurs, file[w.start..w.end], f.rule, a, n) && f.line == LineAt(file, w.start + a)
  }

  /** The occurrence touches an end of the window that is not an end of the file, where its context is cut off. */
  predicate Cut(file: string, w: Window, a: nat, n: nat) {
    (a == 0 && w.start > 0) || (w.start + a + n == w.end && w.end < |file|)
  }

  lemma SliceOfSlice(text: string, lo: nat, hi: nat, a: nat, b: nat)
    requires lo <= hi <= |text| && a <= b <= hi - lo
    ensures text[lo..hi][a..b] == text[lo + a..lo + b]
  {
    forall i | 0 <= i < b - a ensures text[lo..hi][a..b][i] == text[lo + a..lo + b][i] {
      assert text[lo..hi][a..b][i] == text[lo..hi][a + i] == text[lo + a + i];
    }
  }

  /** Away from the cuts a window shows every character as the file has it, neighbours included. */
  lemma UncutNeighbours(file: string, w: Window, a: nat, n: nat)
    requires w.start <= w.end <= |file| && w.start + a + n <= w.end && 0 < n && !Cut(file, w, a, n)
    ensures CharAt(file[w.start..w.end], a - 1) == CharAt(file, w.start + a - 1)
    ensures CharAt(file[w.start..w.end], a + n) == CharAt(file, w.start + a + n)
  {
  }

  lemma UncutIsSame(occurs: Rules, file: string, w: Window, rule: string, a: nat, n: nat)
    requires w.start <= w.end <= |file| && w.start + a + n <= w.end && !Cut(file, w, a, n)
    ensures Occurs(occurs, file[w.start..w.end], rule, a, n) <==> Occurs(occurs, file, rule, w.start + a, n)
  {
    hide Cut, CharAt;
    SliceOfSlice(file, w.start, w.end, a, a + n);
    if n > 0 {
      UncutNeighbours(file, w, a, n);
    }
  }

  lemma WindowReportsSeen(file: string, w: Window, find: Finder, occurs: Rules, f: Finding)
    requires ReportsOccurrences(find, occurs) && w.start <= w.end <= |file|
    ensures f in WindowFindings(file, w, find) <==> SeenIn(occurs, file, w, f)
  {
    hide TextFindings, LineAt, CharAt;
    var window := file[w.start..w.end];
    var local := TextFindings(window, find);
    if f in WindowFindings(file, w, find) {
      var i :| 0 <= i < |local| && Shifted(file, w.start, local[i]) == f;
      assert OccursOnLine(occurs, window, local[i]);
      var a: nat, n: nat :| Occurs(occurs, window, f.rule, a, n) && local[i].line == LineAt(window, a);
      OccurrenceShift(occurs, file, w, f.rule, a, n);
    }
    if SeenIn(occurs, file, w, f) {
      var a: nat, n: nat :| Occurs(occurs, window, f.rule, a, n) && f.line == LineAt(file, w.start + a);
      OccurrenceShift(occurs, file, w, f.rule, a, n);
      var g := Finding(LineAt(window, a), f.rule);
      assert OccursOnLine(occurs, window, g);
      var i :| 0 <= i < |local| && local[i] == g;
      assert WindowFindings(file, w, find)[i] == f;
    }
  }

  lemma OccurrenceShift(occurs: Rules, file: string, w: Window, rule: string, a: nat, n: nat)
    requires w.start <= w.end <= |file| && Occurs(occurs, file[w.start..w.end], rule, a, n)
    ensures a <= w.end - w.start
    ensures Newlines(file[..w.start]) + LineAt(file[w.start..w.end], a) == LineAt(file, w.start + a)
  {
    LineShift(file, w.start, w.end, a);
  }

  lemma {:induction false} AllFindingsSeen(file: string, ws: seq<Window>, find: Finder, occurs: Rules, f: Finding)
    requires ReportsOccurrences(find, occurs) && forall w <- ws :: w.start <= w.end <= |file|
    ensures f in AllFindings(file, ws, find) <==> exists w <- ws :: SeenIn(occurs, file, w, f)
  {
    hide WindowFindings, SeenIn, TextFindings, OccursOnLine;
    if ws != [] {
      WindowReportsSeen(file, ws[0], find, occurs, f);
      AllFindingsSeen(file, ws[1..], find, occurs, f);
    }
  }

  lemma StreamingReportsSeen(file: string, size: nat, read: Reader, find: Finder, occurs: Rules, f: Finding)
    requires ReportsOccurrences(find, occurs) && Reads(read, file) && '\0' !in file
    ensures forall w <- Windows(file, size, read, 0) :: w.start <= w.end <= |file|
    ensures f in LargeFindings(file, size, read, find)
       <==> exists w <- Windows(file, size, read, 0) :: SeenIn(occurs, file, w, f)
  {
    hide SeenIn, Dedupe, AllFindings, Windows, End, ReportsOccurrences;
    InRangeOf(find, occurs);
    WindowsInFile(file, size, read, 0);
    EndReached(file, size, read, 0);
    DedupeFacts(AllFindings(file, Windows(file, size, read, 0), find));
    AllFindingsSeen(file, Windows(file, size, read, 0), find, occurs, f);
  }

  lemma InRangeOf(find: Finder, occurs: Rules)
    requires ReportsOccurrences(find, occurs)
    ensures InRange(find)
  {
  }

  /** What a window sees at a cut, without the context there, is on a line that the rule is reported for anyway. */
  ghost predicate EdgesHonest(file: string, size: nat, read: Reader, occurs: Rules)
    requires Reads(read, file)
  {
    forall w <- Windows(file, size, read, 0), rule: string, a: nat, n: nat ::
      && w.start <= w.end <= |file|
      && Occurs(occurs, file[w.start..w.end], rule, a, n)
      && Cut(file, w, a, n)
      ==> OccursOnLine(occurs, file, Finding(LineAt(file, w.start + a), rule))
  }

  /** With its context the occurrence fits into the overlap of two windows. */
  predicate Short(n: nat) {
    n + 2 <= SCAN_WINDOW_OVERLAP_BYTES
  }

  ghost predicate ShortOnLine(occurs: Rules, text: string, f: Finding) {
    exists a: nat, n: nat :: Occurs(occurs, text, f.rule, a, n) && f.line == LineAt(text, a) && Short(n)
  }

  /** A line with none but long occurrences of a rule shows one of them to some window. */
  ghost predicate LongOnesSeen(file: string, size: nat, read: Reader, occurs: Rules)
    requires Reads(read, file)
  {
    forall f: Finding :: OccursOnLine(occurs, file, f) && !ShortOnLine(occurs, file, f) ==>
      exists w <- Windows(file, size, read, 0) :: w.start <= w.end <= |file| && SeenIn(occurs, file, w, f)
  }

  /** Streaming misses no short occurrence: some window holds it together with the characters around it. */
  lemma ShortOccurrenceIsReported(
    file: string, size: nat, read: Reader, find: Finder, occurs: Rules, f: Finding)
    requires ReportsOccurrences(find, occurs) && Reads(read, file)
    requires '\0' !in file && size >= |file|
    requires ShortOnLine(occurs, file, f)
    ensures f in LargeFindings(file, size, read, find)
  {
    hide Windows, End, LargeFindings, ReportsOccurrences, LineAt, CharAt;
    var a: nat, n: nat :| Occurs(occurs, file, f.rule, a, n) && f.line == LineAt(file, a) && Short(n);
    EndReached(file, size, read, 0);
    WindowsInFile(file, size, read, 0);
    var from, to := Max(0, a - 1), Min(|file|, a + n + 1);
    StretchInOneWindow(file, size, read, 0, from, to);
    var w :| w in Windows(file, size, read, 0) && w.start <= from && to <= w.end;
    UncutIsSame(occurs, file, w, f.rule, a - w.start, n);
    StreamingReportsSeen(file, size, read, find, occurs, f);
    assert SeenIn(occurs, file, w, f);
  }

  /** Streaming reports nothing false except at a cut. */
  lemma SeenIsReal(file: string, w: Window, occurs: Rules, f: Finding, a: nat, n: nat)
    requires w.start <= w.end <= |file| && Occurs(occurs, file[w.start..w.end], f.rule, a, n)
    requires f.line == LineAt(file, w.start + a) && !Cut(file, w, a, n)
    ensures OccursOnLine(occurs, file, f)
  {
    UncutIsSame(occurs, file, w, f.rule, a, n);
  }

  lemma HonestEdgesSuffice(file: string, size: nat, read: Reader, find: Finder, occurs: Rules, f: Finding)
    requires ReportsOccurrences(find, occurs) && Reads(read, file) && '\0' !in file
    requires EdgesHonest(file, size, read, occurs) && f in LargeFindings(file, size, read, find)
    ensures OccursOnLine(occurs, file, f)
  {
    hide Windows, LargeFindings, ReportsOccurrences, LineAt, Cut, CharAt, OccursOnLine;
    StreamingReportsSeen(file, size, read, find, occurs, f);
    var w :| w in Windows(file, size, read, 0) && SeenIn(occurs, file, w, f);
    var a: nat, n: nat :| Occurs(occurs, file[w.start..w.end], f.rule, a, n) && f.line == LineAt(file, w.start + a);
    if Cut(file, w, a, n) {
      assert OccursOnLine(occurs, file, Finding(LineAt(file, w.start + a), f.rule));
    } else {
      SeenIsReal(file, w, occurs, f, a, n);
    }
  }

  ghost predicate Agrees(file: string, size: nat, read: Reader, find: Finder)
    requires InRange(find) && Reads(read, file)
  {
    forall f: Finding :: f in LargeFindings(file, size, read, find) <==> f in TextFindings(file, find)
  }

  /** Exactly when streaming a file reports the same lines and rules as scanning its whole text, for rules that
      look at one character on each side, such as a word boundary: no window may mistake its own edge for one
      where the file has none, and what is longer than the overlap must show itself to some window. */
  lemma StreamingAgreesWithWholeText(file: string, size: nat, read: Reader, find: Finder, occurs: Rules)
    requires ReportsOccurrences(find, occurs) && Reads(read, file)
    requires '\0' !in file && size >= |file|
    ensures Agrees(file, size, read, find)
       <==> EdgesHonest(file, size, read, occurs) && LongOnesSeen(file, size, read, occurs)
  {
    hide Windows, LargeFindings, TextFindings, EdgesHonest, LongOnesSeen, OccursOnLine, ShortOnLine;
    if EdgesHonest(file, size, read, occurs) && LongOnesSeen(file, size, read, occurs) {
      forall f: Finding ensures f in LargeFindings(file, size, read, find) <==> f in TextFindings(file, find) {
        if f in LargeFindings(file, size, read, find) {
          HonestEdgesSuffice(file, size, read, find, occurs, f);
        }
        if f in TextFindings(file, find) {
          WholeIsStreamed(file, size, read, find, occurs, f);
        }
      }
    }
    if Agrees(file, size, read, find) {
      AgreementNeedsHonestEdges(file, size, read, find, occurs);
      AgreementShowsLongOnes(file, size, read, find, occurs);
    }
  }

  lemma WholeIsStreamed(file: string, size: nat, read: Reader, find: Finder, occurs: Rules, f: Finding)
    requires ReportsOccurrences(find, occurs) && Reads(read, file)
    requires '\0' !in file && size >= |file|
    requires LongOnesSeen(file, size, read, occurs) && OccursOnLine(occurs, file, f)
    ensures f in LargeFindings(file, size, read, find)
  {
    hide Windows, LargeFindings, ReportsOccurrences, OccursOnLine, ShortOnLine, SeenIn;
    if ShortOnLine(occurs, file, f) {
      ShortOccurrenceIsReported(file, size, read, find, occurs, f);
    } else {
      StreamingReportsSeen(file, size, read, find, occurs, f);
    }
  }

  lemma AgreementNeedsHonestEdges(file: string, size: nat, read: Reader, find: Finder, occurs: Rules)
    requires ReportsOccurrences(find, occurs) && Reads(read, file) && '\0' !in file
    requires Agrees(file, size, read, find)
    ensures EdgesHonest(file, size, read, occurs)
  {
    hide Windows, LargeFindings, TextFindings, OccursOnLine, LineAt, Cut, CharAt;
    forall w <- Windows(file, size, read, 0), rule: string, a: nat, n: nat
      | w.start <= w.end <= |file| && Occurs(occurs, file[w.start..w.end], rule, a, n) && Cut(file, w, a, n)
      ensures OccursOnLine(occurs, file, Finding(LineAt(file, w.start + a), rule))
    {
      OccurrenceShift(occurs, file, w, rule, a, n);
      var f := Finding(LineAt(file, w.start + a), rule);
      assert SeenIn(occurs, file, w, f);
      StreamingReportsSeen(file, size, read, find, occurs, f);
      assert f in TextFindings(file, find);
    }
  }

  lemma AgreementShowsLongOnes(file: string, size: nat, read: Reader, find: Finder, occurs: Rules)
    requires ReportsOccurrences(find, occurs) && Reads(read, file) && '\0' !in file
    requires Agrees(file, size, read, find)
    ensures LongOnesSeen(file, size, read, occurs)
  {
    hide Windows, LargeFindings, TextFindings, OccursOnLine, ShortOnLine, SeenIn;
    forall f: Finding | OccursOnLine(occurs, file, f)
      ensures exists w <- Windows(file, size, read, 0) :: w.start <= w.end <= |file| && SeenIn(occurs, file, w, f)
    {
      assert f in TextFindings(file, find);
      StreamingReportsSeen(file, size, read, find, occurs, f);
    }
  }

  /** Where every line with an occurrence of a rule has a short one, the edges alone decide. */
  lemma ShortLinesAgreeIff(file: string, size: nat, read: Reader, find: Finder, occurs: Rules)
    requires ReportsOccurrences(find, occurs) && Reads(read, file)
    requires '\0' !in file && size >= |file|
    requires forall f: Finding :: OccursOnLine(occurs, file, f) ==> ShortOnLine(occurs, file, f)
    ensures Agrees(file, size, read, find) <==> EdgesHonest(file, size, read, occurs)
  {
    hide Agrees, EdgesHonest, ReportsOccurrences, OccursOnLine, ShortOnLine;
    StreamingAgreesWithWholeText(file, size, read, find, occurs);
  }

  /** So they do for rules that match short tokens only. */
  lemma ShortRulesAgreeIff(file: string, size: nat, read: Reader, find: Finder, occurs: Rules)
    requires ReportsOccurrences(find, occurs) && Reads(read, file)
    requires '\0' !in file && size >= |file|
    requires forall rule: string, a: nat, n: nat :: Occurs(occurs, file, rule, a, n) ==> Short(n)
    ensures Agrees(file, size, read, find) <==> EdgesHonest(file, size, read, occurs)
  {
    hide Agrees, EdgesHonest, CharAt, Short, ReportsOccurrences, LineAt;
    forall f: Finding | OccursOnLine(occurs, file, f) ensures ShortOnLine(occurs, file, f) {
      var a: nat, n: nat :| Occurs(occurs, file, f.rule, a, n) && f.line == LineAt(file, a);
    }
    ShortLinesAgreeIff(file, size, read, find, occurs);
  }

  predicate MatchesCutOff(
    occurs: Rules, rule: string, before: Option<char>, token: string, after: Option<char>, m: nat)
  {
    occurs(rule, before, token, after) && m <= |token| && !Short(m) ==> occurs(rule, before, token[..m], None)
  }

  /** Such a rule still matches when a long token is cut off at the end of a text, as a rule does that asks for a
      least number of characters of a class. */
  ghost predicate OpenEnded(occurs: Rules) {
    forall rule: string, before: Option<char>, token: string, after: Option<char>, m: nat ::
      MatchesCutOff(occurs, rule, before, token, after, m)
  }

  /** A window that starts before an occurrence, shows its left neighbour, and ends inside it. */
  lemma CutOffIsShown(file: string, w: Window, a: nat, n: nat)
    requires w.start <= w.end <= |file| && a <= w.end <= a + n <= |file| && w.start <= Max(0, a - 1)
    requires a < w.end && w.end - a <= n
    ensures
      var window, m := file[w.start..w.end], w.end - a;
      && window[a - w.start..a - w.start + m] == file[a..a + n][..m]
      && CharAt(window, a - w.start - 1) == CharAt(file, a - 1)
      && CharAt(window, a - w.start + m) == None
  {
    var m := w.end - a;
    SliceOfSlice(file, w.start, w.end, a - w.start, a - w.start + m);
    SliceOfSlice(file, a, a + n, 0, m);
    assert file[a..a + n][..m] == file[a..a + n][0..m];
  }

  lemma CutOffStillOccurs(occurs: Rules, file: string, w: Window, rule: string, a: nat, n: nat) returns (m: nat)
    requires OpenEnded(occurs) && Occurs(occurs, file, rule, a, n) && !Short(n)
    requires w.start <= w.end <= |file| && w.start <= Max(0, a - 1)
    requires w.end >= Min(|file|, Max(0, a - 1) + SCAN_WINDOW_OVERLAP_BYTES)
    ensures Occurs(occurs, file[w.start..w.end], rule, a - w.start, m)
  {
    hide CharAt;
    if a + n < w.end || (a + n == w.end && w.end == |file|) {
      m := n;
      UncutIsSame(occurs, file, w, rule, a - w.start, n);
    } else {
      m := w.end - a;
      CutOffIsShown(file, w, a, n);
      assert MatchesCutOff(occurs, rule, CharAt(file, a - 1), file[a..a + n], CharAt(file, a + n), m);
    }
  }

  lemma OpenEndedIsSeen(file: string, size: nat, read: Reader, occurs: Rules, f: Finding)
    requires OpenEnded(occurs) && Reads(read, file) && size >= |file|
    requires OccursOnLine(occurs, file, f) && !ShortOnLine(occurs, file, f)
    ensures exists w <- Windows(file, size, read, 0) :: w.start <= w.end <= |file| && SeenIn(occurs, file, w, f)
  {
    hide Windows, End, CharAt, LineAt, OpenEnded, Short;
    var a: nat, n: nat :| Occurs(occurs, file, f.rule, a, n) && f.line == LineAt(file, a);
    EndReached(file, size, read, 0);
    WindowsInFile(file, size, read, 0);
    var from := Max(0, a - 1);
    var to := Min(|file|, from + SCAN_WINDOW_OVERLAP_BYTES);
    StretchInOneWindow(file, size, read, 0, from, to);
    var w :| w in Windows(file, size, read, 0) && w.start <= from && to <= w.end;
    var m := CutOffStillOccurs(occurs, file, w, f.rule, a, n);
    assert SeenIn(occurs, file, w, f);
  }

  /** For open-ended rules, too, the edges alone decide, however long the tokens are. */
  lemma OpenEndedAgreesIff(file: string, size: nat, read: Reader, find: Finder, occurs: Rules)
    requires ReportsOccurrences(find, occurs) && OpenEnded(occurs) && Reads(read, file)
    requires '\0' !in file && size >= |file|
    ensures Agrees(file, size, read, find) <==> EdgesHonest(file, size, read, occurs)
  {
    hide Agrees, EdgesHonest, ReportsOccurrences, OpenEnded, OccursOnLine, ShortOnLine, SeenIn, Windows;
    forall f: Finding | OccursOnLine(occurs, file, f) && !ShortOnLine(occurs, file, f)
      ensures exists w <- Windows(file, size, read, 0) :: w.start <= w.end <= |file| && SeenIn(occurs, file, w, f)
    {
      OpenEndedIsSeen(file, size, read, occurs, f);
    }
    StreamingAgreesWithWholeText(file, size, read, find, occurs);
  }

  // ------------------------------------- One rule of the scanner, in full

  const AWS_RULE := "aws-access-key-id"

  predicate IsUpperOrDigit(c: char) {
    '0' <= c <= '9' || 'A' <= c <= 'Z'
  }

  predicate IsWord(c: char) {
    IsUpperOrDigit(c) || 'a' <= c <= 'z' || c == '_'
  }

  /** Both ends of the token are word characters, so it stands at word boundaries when no neighbour is one. */
  predicate AwsOccurs(rule: string, before: Option<char>, token: string, after: Option<char>) {
    && rule == AWS_RULE
    && |token| == 20
    && (token[..4] == "AKIA" || token[..4] == "ASIA")
    && (forall i :: 4 <= i < 20 ==> IsUpperOrDigit(token[i]))
    && (before.Some? ==> !IsWord(before.value))
    && (after.Some? ==> !IsWord(after.value))
  }

  /** The matches that start at a position or later. */
  function AwsFrom(text: string, a: nat): seq<Match>
    decreases |text| - a
  {
    if a >= |text| then []
    else
      (if Occurs(AwsOccurs, text, AWS_RULE, a, 20) then [Match(AWS_RULE, a, 20)] else []) + AwsFrom(text, a + 1)
  }

  function AwsFinder(text: string): seq<Match> {
    AwsFrom(text, 0)
  }

  lemma {:induction false} AwsMatches(text: string, a: nat, m: Match)
    ensures m in AwsFrom(text, a)
       <==> a <= m.offset && m.rule == AWS_RULE && m.length == 20 && Occurs(AwsOccurs, text, AWS_RULE, m.offset, 20)
    decreases |text| - a
  {
    hide AwsOccurs;
    if a < |text| {
      AwsMatches(text, a + 1, m);
    }
  }

  /** The rule is one of those the exact condition speaks of. */
  lemma AwsReportsOccurrences()
    ensures ReportsOccurrences(AwsFinder, AwsOccurs)
  {
    hide TextFindings, LineAt;
    forall text: string, m: Match | m in AwsFinder(text) ensures m.offset + m.length <= |text| {
      AwsMatches(text, 0, m);
    }
    assert InRange(AwsFinder);
    forall text: string, f: Finding ensures f in TextFindings(text, AwsFinder) <==> OccursOnLine(AwsOccurs, text, f) {
      TextFindingsAreMatches(text, AwsFinder, f);
      if f in TextFindings(text, AwsFinder) {
        var m :| m in AwsFinder(text) && f == Finding(LineAt(text, m.offset), m.rule);
        AwsMatches(text, 0, m);
      }
      if OccursOnLine(AwsOccurs, text, f) {
        var a: nat, n: nat :| Occurs(AwsOccurs, text, f.rule, a, n) && f.line == LineAt(text, a);
        AwsMatches(text, 0, Match(AWS_RULE, a, 20));
      }
    }
  }

  /** So streaming agrees on access keys exactly when no window edge cuts a longer word into one. */
  lemma AwsAgreesIff(file: string, size: nat, read: Reader)
    requires Reads(read, file) && '\0' !in file && size >= |file|
    ensures InRange(AwsFinder)
    ensures Agrees(file, size, read, AwsFinder) <==> EdgesHonest(file, size, read, AwsOccurs)
  {
    hide Agrees, EdgesHonest, AwsFinder;
    AwsReportsOccurrences();
    ShortRulesAgreeIff(file, size, read, AwsFinder, AwsOccurs);
  }

  predicate IsAlphanumeric(c: char) {
    IsUpperOrDigit(c) || 'a' <= c <= 'z'
  }

  /** `whsec_` and twenty or more letters and digits, at word boundaries. */
  predicate WebhookSecretOccurs(rule: string, before: Option<char>, token: string, after: Option<char>) {
    && rule == "stripe-webhook-secret"
    && |token| >= 26
    && token[..6] == "whsec_"
    && (forall i :: 6 <= i < |token| ==> IsAlphanumeric(token[i]))
    && (before.Some? ==> !IsWord(before.value))
    && (after.Some? ==> !IsWord(after.value))
  }

  lemma WebhookSecretIsOpenEnded()
    ensures OpenEnded(WebhookSecretOccurs)
  {
    forall rule: string, before: Option<char>, token: string, after: Option<char>, m: nat
      ensures MatchesCutOff(WebhookSecretOccurs, rule, before, token, after, m)
    {
      if WebhookSecretOccurs(rule, before, token, after) && m <= |token| && !Short(m) {
        assert token[..m][..6] == token[..6];
      }
    }
  }

  /** Every read fills the buffer as far as the file reaches. */
  function FullRead(size: nat): Reader {
    position => if position >= size then 0 else Min(MAX_TEXT_FILE_BYTES, size - position)
  }

  const FILLING: nat := MAX_TEXT_FILE_BYTES - 20

  /** Spaces up to twenty characters before the end of the buffer, then a word that looks like a key but is one
      character too long: it ends right behind the buffer. */
  ghost predicate WordAcrossEdge(file: string) {
    && |file| == MAX_TEXT_FILE_BYTES + 1
    && (forall i :: 0 <= i < FILLING ==> file[i] == ' ')
    && file[FILLING..FILLING + 4] == "AKIA"
    && (forall i :: FILLING + 4 <= i < |file| ==> file[i] == 'X')
  }

  lemma WordFile() returns (file: string)
    ensures WordAcrossEdge(file)
  {
    file := seq(FILLING, _ => ' ') + "AKIA" + seq(17, _ => 'X');
  }

  lemma FullReads(file: string)
    ensures Reads(FullRead(|file|), file)
    ensures |file| > MAX_TEXT_FILE_BYTES ==> FullRead(|file|)(0) == MAX_TEXT_FILE_BYTES
  {
    var size := |file|;
    var read: Reader := position => if position >= size then 0 else Min(MAX_TEXT_FILE_BYTES, size - position);
    assert FullRead(size) == read;
    assert Reads(read, file);
  }

  lemma {:induction false} OneLine(text: string)
    requires '\n' !in text
    ensures Newlines(text) == 0
  {
    if text != [] {
      OneLine(text[..|text| - 1]);
    }
  }

  lemma FirstWindowEndsInWord(file: string)
    requires WordAcrossEdge(file) && Reads(FullRead(|file|), file)
    ensures Window(0, MAX_TEXT_FILE_BYTES) in Windows(file, |file|, FullRead(|file|), 0)
  {
    hide WordAcrossEdge;
    LargerThanBuffer(file);
    FullReads(file);
  }

  lemma LargerThanBuffer(file: string)
    requires WordAcrossEdge(file)
    ensures |file| == MAX_TEXT_FILE_BYTES + 1
  {
  }

  lemma WordFileHasNoNul(file: string)
    requires WordAcrossEdge(file)
    ensures '\0' !in file
  {
    forall i | 0 <= i < |file| ensures file[i] != '\0' {
      if FILLING <= i < FILLING + 4 {
        assert file[i] == file[FILLING..FILLING + 4][i - FILLING];
      }
    }
  }

  /** The first window shows the twenty characters with a space before them and nothing behind. */
  lemma KeyIsCut(file: string)
    requires WordAcrossEdge(file)
    ensures SeenIn(AwsOccurs, file, Window(0, MAX_TEXT_FILE_BYTES), Finding(1, AWS_RULE))
  {
    var window := file[0..MAX_TEXT_FILE_BYTES];
    SliceOfSlice(file, 0, MAX_TEXT_FILE_BYTES, FILLING, FILLING + 20);
    SliceOfSlice(file, FILLING, FILLING + 20, 0, 4);
    assert CharAt(window, FILLING - 1) == Some(' ');
    assert CharAt(window, FILLING + 20) == None;
    assert Occurs(AwsOccurs, window, AWS_RULE, FILLING, 20);
    OneLine(file[..FILLING]);
  }

  lemma NoKeyInWord(file: string)
    requires WordAcrossEdge(file)
    ensures forall a: nat, n: nat :: !Occurs(AwsOccurs, file, AWS_RULE, a, n)
  {
    forall a: nat, n: nat ensures !Occurs(AwsOccurs, file, AWS_RULE, a, n) {
      if n == 20 && a + n <= |file| {
        assert file[a..a + n][..4][0] == file[a];
        if a == FILLING {
          assert CharAt(file, a + 20) == Some('X');
        } else if a == FILLING + 1 {
          assert file[a] == file[FILLING..FILLING + 4][1] == 'K';
        }
      }
    }
  }

  /** The condition on edges is needed, for a file that is large enough to be streamed and with every read full:
      where the buffer ends inside a word, its first twenty characters pass for a key that the file does not hold. */
  lemma StreamingCanOverReport() returns (file: string)
    ensures |file| > MAX_TEXT_FILE_BYTES && Reads(FullRead(|file|), file)
    ensures InRange(AwsFinder) && ReportsOccurrences(AwsFinder, AwsOccurs)
    ensures Finding(1, AWS_RULE) in LargeFindings(file, |file|, FullRead(|file|), AwsFinder)
    ensures Finding(1, AWS_RULE) !in TextFindings(file, AwsFinder)
    ensures !EdgesHonest(file, |file|, FullRead(|file|), AwsOccurs)
  {
    hide LargeFindings, TextFindings, AwsOccurs, Windows, AwsFinder, Occurs, LineAt, FullRead, WordAcrossEdge, Reads;
    file := WordFile();
    var f := Finding(1, AWS_RULE);
    AwsReportsOccurrences();
    InRangeOf(AwsFinder, AwsOccurs);
    LargerThanBuffer(file);
    WordFileHasNoNul(file);
    FullReads(file);
    FirstWindowEndsInWord(file);
    KeyIsCut(file);
    NoKeyInWord(file);
    StreamingReportsSeen(file, |file|, FullRead(|file|), AwsFinder, AwsOccurs, f);
    assert !OccursOnLine(AwsOccurs, file, f);
    if EdgesHonest(file, |file|, FullRead(|file|), AwsOccurs) {
      HonestEdgesSuffice(file, |file|, FullRead(|file|), AwsFinder, AwsOccurs, f);
    }
  }
}
