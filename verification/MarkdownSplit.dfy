/**
 Splitting a long section into overlapping parts (knowledge/loaders/markdown_loader.py,
 `MarkdownKnowledgeLoader.__init__` and `_split_if_needed`).

 The loop need not end: `Windows` says when it does.
 */
module MarkdownSplit {
  import opened Common

  datatype Limits = Limits(chunk: int, overlap: int)

  /** What the constructor accepts. */
  predicate Accepted(l: Limits) { l.chunk >= 100 && 0 <= l.overlap < l.chunk }

  datatype Chunk = Chunk(id: string, parent: string, heading: string, content: string, part: Option<nat>)

  /** `content.rfind("\n", lo, hi)`. */
  function LastNewline(content: string, lo: nat, hi: nat): (p: int)
    requires lo <= hi <= |content|
    ensures p == -1 || lo <= p < hi
  {
    if hi == lo then -1 else if content[hi - 1] == '\n' then hi - 1 else LastNewline(content, lo, hi - 1)
  }

  lemma {:induction false} LastNewlineIs(content: string, lo: nat, hi: nat)
    requires lo <= hi <= |content|
    ensures var p := LastNewline(content, lo, hi);
            && (p >= 0 ==> content[p] == '\n')
            && forall i :: lo <= i < hi && i > p ==> content[i] != '\n'
  {
    if hi > lo && content[hi - 1] != '\n' { LastNewlineIs(content, lo, hi - 1); }
  }

  /** Where the window that begins at `start` ends. */
  function WindowEnd(content: string, start: nat, l: Limits): (end: nat)
    requires Accepted(l) && start < |content|
    ensures start < end <= |content| && end <= start + l.chunk
  {
    if start + l.chunk >= |content| then |content|
    else
      var newline := LastNewline(content, start, start + l.chunk);
      if newline > start + 100 then newline else start + l.chunk
  }

  function NextStart(end: nat, l: Limits): nat { if end > l.overlap then end - l.overlap else 0 }

  datatype Window = Window(start: nat, end: nat)

  /** The windows from `start` on; `None` when the loop gets stuck on the way. */
  function Windows(content: string, start: nat, l: Limits): (r: Option<seq<Window>>)
    requires Accepted(l) && start < |content|
    decreases |content| - start
  {
    var end := WindowEnd(content, start, l);
    if end == |content| then Some([Window(start, end)])
    else if NextStart(end, l) <= start then None
    else
      var rest := Windows(content, NextStart(end, l), l);
      if rest.None? then None else Some([Window(start, end)] + rest.value)
  }

  // ---- Part ids ----

  function Digits(n: nat): (s: string)
    ensures s != []
  {
    if n < 10 then ['0' + n as char] else Digits(n / 10) + ['0' + (n % 10) as char]
  }

  /** `f"{n:03d}"`. */
  function ThreeDigits(n: nat): string {
    if |Digits(n)| == 1 then "00" + Digits(n) else if |Digits(n)| == 2 then "0" + Digits(n) else Digits(n)
  }

  /** The number that decimal digits write. */
  function NumberOf(s: string): int { if s == "" then 0 else 10 * NumberOf(s[..|s| - 1]) + (s[|s| - 1] as int - '0' as int) }

  lemma {:induction false} DigitsWrite(n: nat)
    ensures NumberOf(Digits(n)) == n
  {
    if n < 10 {
      assert Digits(n)[..0] == "";
    } else {
      DigitsWrite(n / 10);
      var last := ['0' + (n % 10) as char];
      assert (Digits(n / 10) + last)[..|Digits(n / 10)|] == Digits(n / 10);
    }
  }

  lemma {:induction false} ZeroBefore(s: string)
    ensures NumberOf("0" + s) == NumberOf(s)
  {
    if s != "" {
      ZeroBefore(s[..|s| - 1]);
      assert ("0" + s)[..|s|] == "0" + s[..|s| - 1];
    } else {
      assert "0" + s == "0" && "0"[..0] == "";
    }
  }

  /** A part number is written with at least three digits. */
  lemma {:induction false} ThreeDigitsWrite(n: nat)
    ensures |ThreeDigits(n)| >= 3 && NumberOf(ThreeDigits(n)) == n
  {
    DigitsWrite(n);
    ZeroBefore(Digits(n));
    ZeroBefore("0" + Digits(n));
    assert "00" + Digits(n) == "0" + ("0" + Digits(n));
  }

  function PartId(id: string, n: nat): string { id + "#p" + ThreeDigits(n) }

  function Part(c: Chunk, w: Window, n: nat): Chunk
    requires w.start <= w.end <= |c.content|
  {
    Chunk(PartId(c.id, n), c.id, c.heading, Strip(c.content[w.start..w.end]), Some(n))
  }

  ghost predicate InRange(windows: seq<Window>, n: nat) {
    forall i :: 0 <= i < |windows| ==> windows[i].start < windows[i].end <= n
  }

  /** The parts are those of the windows, numbered from 1. */
  ghost predicate PartsOf(parts: seq<Chunk>, c: Chunk, windows: seq<Window>) {
    && InRange(windows, |c.content|) && |parts| == |windows|
    && forall i :: 0 <= i < |parts| ==> parts[i] == Part(c, windows[i], i + 1)
  }

  lemma {:induction false} OnePartMore(parts: seq<Chunk>, c: Chunk, windows: seq<Window>, w: Window)
    requires PartsOf(parts, c, windows) && w.start < w.end <= |c.content|
    ensures PartsOf(parts + [Part(c, w, |parts| + 1)], c, windows + [w])
  {
  }

  /** The windows that are left after those done. */
  ghost predicate Left(all: seq<Window>, done: seq<Window>, content: string, start: nat, l: Limits)
    requires Accepted(l) && start < |content|
  {
    Windows(content, start, l).Some? && all == done + Windows(content, start, l).value
  }

  lemma {:induction false} LeftStep(all: seq<Window>, done: seq<Window>, content: string, start: nat, l: Limits)
    requires Accepted(l) && start < |content| && Left(all, done, content, start, l)
    ensures var end := WindowEnd(content, start, l);
            var done' := done + [Window(start, end)];
            if end == |content| then all == done'
            else start < NextStart(end, l) <= end && Left(all, done', content, NextStart(end, l), l)
  {
    var end := WindowEnd(content, start, l);
    if end < |content| {
      var rest := Windows(content, NextStart(end, l), l).value;
      assert done + ([Window(start, end)] + rest) == (done + [Window(start, end)]) + rest;
    }
  }

  /** The loop has made the parts of the windows done and is about to begin the window at `start`. */
  ghost predicate Underway(c: Chunk, l: Limits, all: seq<Window>, done: seq<Window>, parts: seq<Chunk>, start: nat)
    requires Accepted(l) && start < |c.content|
  {
    Left(all, done, c.content, start, l) && PartsOf(parts, c, done)
  }

  lemma {:induction false} UnderwayStep(c: Chunk, l: Limits, all: seq<Window>, done: seq<Window>, parts: seq<Chunk>,
                                        start: nat, part: Chunk)
    requires Accepted(l) && start < |c.content| && Underway(c, l, all, done, parts, start)
    requires part == Part(c, Window(start, WindowEnd(c.content, start, l)), |parts| + 1)
    ensures var end := WindowEnd(c.content, start, l);
            if end == |c.content| then PartsOf(parts + [part], c, all)
            else
              start < NextStart(end, l)
              && Underway(c, l, all, done + [Window(start, end)], parts + [part], NextStart(end, l))
  {
    LeftStep(all, done, c.content, start, l);
    OnePartMore(parts, c, done, Window(start, WindowEnd(c.content, start, l)));
  }

  /** The end of a part: the last newline more than 100 characters on, or the limit. */
  method FindEnd(content: string, start: nat, l: Limits) returns (end: nat)
    requires Accepted(l) && start < |content|
    ensures end == WindowEnd(content, start, l)
  {
    end := if start + l.chunk < |content| then start + l.chunk else |content|;
    if end < |content| {
      var newline := LastNewline(content, start, end);
      if newline > start + 100 { end := newline; }
    }
  }

  /** `_split_if_needed`, for a content on which its loop returns. */
  method SplitIfNeeded(c: Chunk, l: Limits) returns (parts: seq<Chunk>)
    requires Accepted(l)
    requires |c.content| > l.chunk ==> Windows(c.content, 0, l).Some?
    ensures |c.content| <= l.chunk ==> parts == [c]
    ensures |c.content| > l.chunk ==> PartsOf(parts, c, Windows(c.content, 0, l).value)
  {
    if |c.content| <= l.chunk { return [c]; }
    parts := [];
    var content, start, number := c.content, 0, 1;
    ghost var all := Windows(content, 0, l).value;
    ghost var done: seq<Window> := [];
    while start < |content|
      invariant 0 <= start < |content| && number == |parts| + 1
      invariant Underway(c, l, all, done, parts, start)
      decreases |content| - start
    {
      var end := FindEnd(content, start, l);
      var part := MakePart(c, start, end, number);
      UnderwayStep(c, l, all, done, parts, start, part);
      parts := parts + [part];
      done := done + [Window(start, end)];
      if end >= |content| { return; }
      var next := if end - l.overlap > 0 then end - l.overlap else 0;
      assert next == NextStart(end, l);
      start := next;
      number := number + 1;
    }
  }

  method MakePart(c: Chunk, start: nat, end: nat, number: nat) returns (part: Chunk)
    requires start <= end <= |c.content|
    ensures part == Part(c, Window(start, end), number)
  {
    part := Chunk(PartId(c.id, number), c.id, c.heading, Strip(c.content[start..end]), Some(number));
  }

  // ---- When the loop ends ----

  /** The start of round `k`, or `None` once the loop has ended. */
  function Round(content: string, l: Limits, k: nat): Option<nat>
    requires Accepted(l) && content != []
    ensures Round(content, l, k).Some? ==> Round(content, l, k).value < |content|
  {
    if k == 0 then Some(0)
    else
      var before := Round(content, l, k - 1);
      if before.None? || WindowEnd(content, before.value, l) == |content| then None
      else Some(NextStart(WindowEnd(content, before.value, l), l))
  }

  ghost predicate Ends(content: string, l: Limits)
    requires Accepted(l) && content != []
  {
    exists k :: Round(content, l, k).None?
  }

  lemma {:induction false} EndedStays(content: string, l: Limits, j: nat, k: nat)
    requires Accepted(l) && content != [] && j <= k && Round(content, l, j).None?
    ensures Round(content, l, k).None?
    decreases k
  {
    if j < k { EndedStays(content, l, j, k - 1); }
  }

  /** A round that does not move forward comes back to the same start for ever. */
  lemma {:induction false} StuckIsFixed(content: string, start: nat, l: Limits)
    requires Accepted(l) && start < |content| && WindowEnd(content, start, l) < |content|
    requires NextStart(WindowEnd(content, start, l), l) <= start
    ensures var next := NextStart(WindowEnd(content, start, l), l);
            next < |content| && WindowEnd(content, next, l) == WindowEnd(content, start, l)
  {
    var end := WindowEnd(content, start, l);
    var next := NextStart(end, l);
    var newline := LastNewline(content, start, start + l.chunk);
    assert newline == end && newline > start + 100;
    var again := LastNewline(content, next, next + l.chunk);
    LastNewlineIs(content, start, start + l.chunk);
    LastNewlineIs(content, next, next + l.chunk);
    assert again >= newline;
    assert again < start + l.chunk;
  }

  lemma {:induction false} StuckForever(content: string, l: Limits, j: nat, k: nat)
    requires Accepted(l) && content != [] && j < k && Round(content, l, j).Some?
    requires var start := Round(content, l, j).value;
             WindowEnd(content, start, l) < |content| && NextStart(WindowEnd(content, start, l), l) <= start
    ensures Round(content, l, k).Some?
    ensures WindowEnd(content, Round(content, l, k).value, l) == WindowEnd(content, Round(content, l, j).value, l)
    decreases k
  {
    StuckIsFixed(content, Round(content, l, j).value, l);
    if j + 1 < k { StuckForever(content, l, j, k - 1); }
  }

  lemma {:induction false} WindowsFollowRounds(content: string, l: Limits, j: nat)
    requires Accepted(l) && content != [] && Round(content, l, j).Some?
    ensures Windows(content, Round(content, l, j).value, l).Some? <==> Ends(content, l)
    decreases |content| - Round(content, l, j).value
  {
    var start := Round(content, l, j).value;
    var end := WindowEnd(content, start, l);
    if end == |content| {
      assert Round(content, l, j + 1).None?;
    } else if NextStart(end, l) <= start {
      forall k: nat ensures Round(content, l, k).Some? {
        if j < k {
          StuckForever(content, l, j, k);
        } else if Round(content, l, k).None? {
          EndedStays(content, l, k, j);
        }
      }
    } else {
      assert Round(content, l, j + 1) == Some(NextStart(end, l));
      WindowsFollowRounds(content, l, j + 1);
    }
  }

  /** The loop ends on a content exactly when every round on the way moves forward. */
  lemma {:induction false} EndsExactlyWhenMoving(content: string, l: Limits)
    requires Accepted(l) && content != []
    ensures Ends(content, l) <==> Windows(content, 0, l).Some?
  {
    WindowsFollowRounds(content, l, 0);
  }

  /** These limits always move forward. */
  predicate Safe(l: Limits) { l.overlap <= 100 || l.chunk <= 101 }

  lemma {:induction false} SafeMoves(content: string, start: nat, l: Limits)
    requires Accepted(l) && Safe(l) && start < |content|
    ensures Windows(content, start, l).Some?
    decreases |content| - start
  {
    var end := WindowEnd(content, start, l);
    if end < |content| {
      assert end > start + l.overlap;
      SafeMoves(content, NextStart(end, l), l);
    }
  }

  function Fill(n: nat): (s: string)
    ensures |s| == n && forall i :: 0 <= i < n ==> s[i] == 'a'
  {
    if n == 0 then [] else Fill(n - 1) + ['a']
  }

  /** A section as the loader makes it: a heading line of 101 characters and a long line after it. */
  function Trap(l: Limits): string
    requires Accepted(l)
  {
    "## " + Fill(98) + ['\n'] + Fill(l.chunk)
  }

  lemma {:induction false} TrapCharacters(l: Limits)
    requires Accepted(l)
    ensures |Trap(l)| == 102 + l.chunk && Trap(l)[101] == '\n'
    ensures forall i :: 0 <= i < |Trap(l)| && i != 101 ==> Trap(l)[i] != '\n'
    ensures "## a" <= Trap(l) && !IsSpace(Trap(l)[0]) && !IsSpace(Trap(l)[|Trap(l)| - 1])
  {
  }

  /** It is long enough to be split, as stripped as the loader leaves it, and begins with a heading. */
  lemma {:induction false} TrapHolds(l: Limits)
    requires Accepted(l) && !Safe(l)
    ensures !Ends(Trap(l), l) && |Trap(l)| > l.chunk
    ensures "## a" <= Trap(l) && Strip(Trap(l)) == Trap(l)
  {
    TrapCharacters(l);
    var content := Trap(l);
    LastNewlineIs(content, 0, l.chunk);
    assert LastNewline(content, 0, l.chunk) == 101;
    assert WindowEnd(content, 0, l) == 101;
    assert Windows(content, 0, l).None?;
    EndsExactlyWhenMoving(content, l);
  }

  /** The limits that the constructor takes when none are given. */
  const DEFAULTS := Limits(1800, 180)

  lemma {:induction false} DefaultsTrapped()
    ensures Accepted(DEFAULTS) && !Ends(Trap(DEFAULTS), DEFAULTS)
  {
    TrapHolds(DEFAULTS);
  }

  /** The loop ends on every content exactly when `overlap <= 100` or `chunk <= 101`, although the
      constructor accepts more. */
  lemma {:induction false} EndsOnAllExactly(l: Limits)
    requires Accepted(l)
    ensures (forall content: string :: content != [] ==> Ends(content, l)) <==> Safe(l)
  {
    if Safe(l) {
      forall content: string | content != [] ensures Ends(content, l) {
        SafeMoves(content, 0, l);
        EndsExactlyWhenMoving(content, l);
      }
    } else {
      TrapHolds(l);
    }
  }

  // ---- What the windows cover ----

  ghost predicate Covers(windows: seq<Window>, from: nat, n: nat, l: Limits) {
    && windows != [] && windows[0].start == from && windows[|windows| - 1].end == n
    && InRange(windows, n)
    && (forall i :: 0 <= i < |windows| ==> windows[i].end <= windows[i].start + l.chunk)
    && (forall i :: 0 <= i < |windows| - 1 ==>
          && windows[i].start < windows[i + 1].start <= windows[i].end
          && windows[i + 1].start == NextStart(windows[i].end, l))
  }

  /** The windows reach from the start to the end of the content without a gap, each within the limit,
      and neighbours share `overlap` characters. */
  lemma {:induction false} WindowsCover(content: string, start: nat, l: Limits)
    requires Accepted(l) && start < |content| && Windows(content, start, l).Some?
    ensures Covers(Windows(content, start, l).value, start, |content|, l)
    decreases |content| - start
  {
    var end := WindowEnd(content, start, l);
    if end < |content| {
      WindowsCover(content, NextStart(end, l), l);
      OneWindowMore(Windows(content, NextStart(end, l), l).value, start, end, |content|, l);
    }
  }

  lemma {:induction false} OneWindowMore(rest: seq<Window>, start: nat, end: nat, n: nat, l: Limits)
    requires Covers(rest, NextStart(end, l), n, l) && start < end < n && end <= start + l.chunk
    requires start < NextStart(end, l) <= end
    ensures Covers([Window(start, end)] + rest, start, n, l)
  {
    var windows := [Window(start, end)] + rest;
    assert forall i :: 0 < i < |windows| ==> windows[i] == rest[i - 1];
  }

  lemma {:induction false} CoveredSomewhere(windows: seq<Window>, from: nat, n: nat, l: Limits, p: nat) returns (i: nat)
    requires Covers(windows, from, n, l) && from <= p < n
    ensures i < |windows| && windows[i].start <= p < windows[i].end
  {
    i := 0;
    while windows[i].end <= p
      invariant i < |windows| && windows[i].start <= p
      decreases |windows| - i
    {
      i := i + 1;
    }
  }

  /** `strip` drops nothing but white space. */
  lemma {:induction false} StartBound(s: string, i: nat, p: nat)
    requires i <= p < |s| && !IsSpace(s[p])
    ensures TextStart(s, i) <= p
    decreases |s| - i
  {
    if IsSpace(s[i]) { StartBound(s, i + 1, p); }
  }

  lemma {:induction false} EndBound(s: string, i: nat, j: nat, p: nat)
    requires i <= p < j <= |s| && !IsSpace(s[p])
    ensures p < TextEnd(s, i, j)
    decreases j
  {
    if IsSpace(s[j - 1]) { EndBound(s, i, j - 1, p); }
  }

  lemma {:induction false} StripKeeps(s: string, p: nat)
    requires p < |s| && !IsSpace(s[p])
    ensures var from := TextStart(s, 0); from <= p && p - from < |Strip(s)| && Strip(s)[p - from] == s[p]
  {
    StartBound(s, 0, p);
    EndBound(s, TextStart(s, 0), |s|, p);
  }

  /** Every character that is not white space is in some part. */
  lemma {:induction false} NothingLost(c: Chunk, l: Limits, p: nat) returns (i: nat, q: nat)
    requires Accepted(l) && |c.content| > l.chunk && Windows(c.content, 0, l).Some?
    requires p < |c.content| && !IsSpace(c.content[p])
    ensures var windows := Windows(c.content, 0, l).value;
            && i < |windows| && windows[i].start <= p < windows[i].end <= |c.content|
            && q < |Part(c, windows[i], i + 1).content| <= l.chunk
            && Part(c, windows[i], i + 1).content[q] == c.content[p]
  {
    WindowsCover(c.content, 0, l);
    var windows := Windows(c.content, 0, l).value;
    i := CoveredSomewhere(windows, 0, |c.content|, l, p);
    var w := windows[i];
    var s := c.content[w.start..w.end];
    assert s[p - w.start] == c.content[p];
    StripKeeps(s, p - w.start);
    q := p - w.start - TextStart(s, 0);
  }

  // ---- Part ids are distinct ----

  function ValueOf(s: string): int {
    if s == [] then 0 else 10 * ValueOf(s[..|s| - 1]) + (s[|s| - 1] as int - '0' as int)
  }

  lemma {:induction false} DigitsValue(n: nat)
    ensures ValueOf(Digits(n)) == n
  {
    if n >= 10 {
      DigitsValue(n / 10);
      assert Digits(n)[..|Digits(n)| - 1] == Digits(n / 10);
    }
  }

  lemma {:induction false} LeadingZero(s: string)
    ensures ValueOf("0" + s) == ValueOf(s)
  {
    var t := "0" + s;
    if s == [] {
      assert t[..0] == [];
    } else {
      LeadingZero(s[..|s| - 1]);
      assert t[..|t| - 1] == "0" + s[..|s| - 1];
    }
  }

  lemma {:induction false} ThreeDigitsValue(n: nat)
    ensures ValueOf(ThreeDigits(n)) == n
  {
    DigitsValue(n);
    LeadingZero(Digits(n));
    LeadingZero("0" + Digits(n));
    assert "00" + Digits(n) == "0" + ("0" + Digits(n));
  }

  lemma {:induction false} PartIdsDiffer(id: string, m: nat, n: nat)
    requires m != n
    ensures PartId(id, m) != PartId(id, n)
  {
    ThreeDigitsValue(m);
    ThreeDigitsValue(n);
    var k := |id + "#p"|;
    assert PartId(id, m)[k..] == ThreeDigits(m) && PartId(id, n)[k..] == ThreeDigits(n);
  }
}
