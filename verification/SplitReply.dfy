/**
 Cutting a reply into messages (knowledge/feishu/messages.py, `split_reply`).
 */
module SplitReply {
  import opened Common

  const BREAK := "\n\n"

  // ---- text.split("\n\n") ----

  predicate BreakAt(s: string, i: nat) { i + 1 < |s| && s[i] == '\n' && s[i + 1] == '\n' }

  /** The first paragraph break at or after `i`, or the end. */
  function FindBreak(s: string, i: nat): (r: nat)
    requires i <= |s|
    ensures i <= r <= |s| && (r < |s| ==> BreakAt(s, r))
    decreases |s| - i
  {
    if i == |s| || BreakAt(s, i) then i else FindBreak(s, i + 1)
  }

  function Paragraphs(s: string): (r: seq<string>)
    ensures r != []
  {
    var i := FindBreak(s, 0);
    if i == |s| then [s] else [s[..i]] + Paragraphs(s[i + 2..])
  }

  function Join(pieces: seq<string>): string {
    if pieces == [] then "" else if |pieces| == 1 then pieces[0] else pieces[0] + BREAK + Join(pieces[1..])
  }

  ghost predicate Unbroken(p: string) { forall j :: 0 <= j < |p| ==> !BreakAt(p, j) }

  lemma {:induction false} NoBreakBefore(s: string, i: nat, j: nat)
    requires i <= |s| && i <= j < FindBreak(s, i)
    ensures !BreakAt(s, j)
    decreases j - i
  {
    if i < j { NoBreakBefore(s, i + 1, j); }
  }

  /** Joining the paragraphs gives the text back, and no paragraph holds a break. */
  lemma {:induction false} ParagraphsJoin(s: string)
    ensures Join(Paragraphs(s)) == s
    ensures forall k :: 0 <= k < |Paragraphs(s)| ==> Unbroken(Paragraphs(s)[k])
    decreases |s|
  {
    var i := FindBreak(s, 0);
    var first := s[..i];
    forall j | 0 <= j < |first| ensures !BreakAt(first, j) {
      NoBreakBefore(s, 0, j);
    }
    assert Unbroken(first);
    if i == |s| {
      assert first == s;
    } else {
      ParagraphsJoin(s[i + 2..]);
      var rest := Paragraphs(s[i + 2..]);
      assert Paragraphs(s) == [first] + rest && ([first] + rest)[1..] == rest;
      assert s == s[..i] + BREAK + s[i + 2..];
    }
  }

  // ---- The loop ----

  /** A paragraph cut into pieces of `max` characters, the last one shorter or equal. */
  function Cuts(p: string, max: nat): (r: seq<string>)
    requires max >= 1
    ensures r != [] && |r[|r| - 1]| <= max
    ensures p != "" ==> r[|r| - 1] != ""
  {
    if |p| <= max then [p] else [p[..max]] + Cuts(p[max..], max)
  }

  /** The messages for the paragraphs still to come, when `current` is not sent yet. */
  function Lay(paragraphs: seq<string>, current: string, max: nat): seq<string>
    requires max >= 1
  {
    if paragraphs == [] then Sent(current)
    else
      var p, rest := paragraphs[0], paragraphs[1..];
      if p == "" then Lay(rest, current, max)
      else if |Candidate(current, p)| <= max then Lay(rest, Candidate(current, p), max)
      else
        var cuts := Cuts(p, max);
        Sent(current) + cuts[..|cuts| - 1] + Lay(rest, cuts[|cuts| - 1], max)
  }

  function Sent(current: string): seq<string> { if current == "" then [] else [current] }

  function Candidate(current: string, p: string): string { if current == "" then p else current + BREAK + p }

  ghost predicate Done(chunks: seq<string>, left: seq<string>, current: string, max: nat, all: seq<string>)
    requires max >= 1
  {
    chunks + Lay(left, current, max) == all
  }

  lemma {:induction false} Joined(chunks: seq<string>, left: seq<string>, current: string, max: nat, all: seq<string>)
    requires max >= 1 && left != [] && Done(chunks, left, current, max, all)
    ensures left[0] == "" ==> Done(chunks, left[1..], current, max, all)
    ensures left[0] != "" && |Candidate(current, left[0])| <= max ==>
              Done(chunks, left[1..], Candidate(current, left[0]), max, all)
  {
  }

  lemma {:induction false} CutUp(chunks: seq<string>, left: seq<string>, current: string, max: nat, all: seq<string>,
                                 chunks': seq<string>, last: string)
    requires max >= 1 && left != [] && Done(chunks, left, current, max, all)
    requires left[0] != "" && |Candidate(current, left[0])| > max
    requires chunks' + [last] == chunks + Sent(current) + Cuts(left[0], max)
    ensures Done(chunks', left[1..], last, max, all)
  {
    var cuts := Cuts(left[0], max);
    LastPiece(chunks', last, chunks + Sent(current), cuts);
    Regroup(chunks, Sent(current), cuts[..|cuts| - 1], Lay(left[1..], last, max));
  }

  lemma {:induction false} LastPiece(a: seq<string>, last: string, b: seq<string>, cuts: seq<string>)
    requires cuts != [] && a + [last] == b + cuts
    ensures a == b + cuts[..|cuts| - 1] && last == cuts[|cuts| - 1]
  {
    assert (a + [last])[|a|] == last && (b + cuts)[|b + cuts| - 1] == cuts[|cuts| - 1];
    assert (a + [last])[..|a|] == a && (b + cuts)[..|b + cuts| - 1] == b + cuts[..|cuts| - 1];
  }

  lemma {:induction false} Regroup(a: seq<string>, b: seq<string>, c: seq<string>, d: seq<string>)
    ensures a + b + c + d == a + (b + c + d)
  {
  }

  lemma {:induction false} CutStep(chunks: seq<string>, p: string, max: nat)
    requires max >= 1 && |p| > max
    ensures chunks + [p[..max]] + Cuts(p[max..], max) == chunks + Cuts(p, max)
  {
  }

  /** `split_reply`, where it ends (see `EndsExactly`). */
  method SplitReply(text: string, max: int) returns (chunks: seq<string>)
    requires max >= 1 || Strip(text) == ""
    ensures Strip(text) == "" ==> chunks == []
    ensures Strip(text) != "" ==> chunks == Lay(Paragraphs(Strip(text)), "", max)
  {
    var normalized := Strip(text);
    if normalized == "" { return []; }
    var paragraphs := Paragraphs(normalized);
    chunks := [];
    var current := "";
    ghost var all := Lay(paragraphs, "", max);
    assert paragraphs[0..] == paragraphs;
    var i := 0;
    while i < |paragraphs|
      invariant 0 <= i <= |paragraphs|
      invariant Done(chunks, paragraphs[i..], current, max, all)
    {
      var paragraph := paragraphs[i];
      ghost var left := paragraphs[i..];
      Joined(chunks, left, current, max, all);
      assert left[1..] == paragraphs[i + 1..];
      i := i + 1;
      if paragraph == "" { continue; }
      var candidate := if current == "" then paragraph else current + BREAK + paragraph;
      if |candidate| <= max {
        current := candidate;
        continue;
      }
      var current' := "";
      chunks, current' := CutParagraph(chunks, left, current, paragraph, max, all);
      current := current';
    }
    chunks := chunks + Sent(current);
  }

  /** The branch for a paragraph that does not fit behind `current`. */
  method CutParagraph(before: seq<string>, ghost left: seq<string>, unsent: string, text: string, max: int,
                      ghost all: seq<string>)
    returns (chunks: seq<string>, current: string)
    requires max >= 1 && left != [] && left[0] == text != "" && |Candidate(unsent, text)| > max
    requires Done(before, left, unsent, max, all)
    ensures Done(chunks, left[1..], current, max, all)
  {
    chunks := before;
    if unsent != "" { chunks := chunks + [unsent]; }
    ghost var sent := chunks;
    assert sent == before + Sent(unsent);
    var paragraph := text;
    while |paragraph| > max
      invariant chunks + Cuts(paragraph, max) == sent + Cuts(text, max)
      decreases |paragraph|
    {
      CutStep(chunks, paragraph, max);
      chunks := chunks + [paragraph[..max]];
      paragraph := paragraph[max..];
    }
    current := paragraph;
    CutUp(before, left, unsent, max, all, chunks, current);
  }

  // ---- For other limits the inner loop does not end ----

  /** Python's `p[max:]`. */
  function Tail(p: string, max: int): string {
    if max >= 0 then (if max <= |p| then p[max..] else "") else if -max <= |p| then p[|p| + max..] else p
  }

  /** The paragraph after `k` rounds of the inner loop. */
  function AfterRounds(p: string, max: int, k: nat): string {
    if k == 0 then p else Tail(AfterRounds(p, max, k - 1), max)
  }

  ghost predicate InnerLoopEnds(p: string, max: int) { exists k: nat :: |AfterRounds(p, max, k)| <= max }

  lemma {:induction false} Shortens(p: string, max: nat, k: nat)
    requires max >= 1
    ensures |AfterRounds(p, max, k)| <= max || |AfterRounds(p, max, k)| + k <= |p|
  {
    if k > 0 { Shortens(p, max, k - 1); }
  }

  lemma {:induction false} StaysLong(p: string, max: int, k: nat)
    requires max <= 0 && p != ""
    ensures |AfterRounds(p, max, k)| > max && AfterRounds(p, max, k) != ""
  {
    if k > 0 { StaysLong(p, max, k - 1); }
  }

  /** The inner loop ends on every paragraph exactly for `max >= 1`; a text with anything but white
      space has such a paragraph. */
  lemma {:induction false} InnerLoopEndsExactly(p: string, max: int)
    requires p != ""
    ensures InnerLoopEnds(p, max) <==> max >= 1
  {
    if max >= 1 {
      Shortens(p, max, |p|);
    } else {
      forall k: nat ensures |AfterRounds(p, max, k)| > max { StaysLong(p, max, k); }
    }
  }

  /** The inner loop ends in round `k`. */
  ghost predicate EndsIn(p: string, max: int, k: nat) {
    |AfterRounds(p, max, k)| <= max && forall j :: 0 <= j < k ==> |AfterRounds(p, max, j)| > max
  }

  /** The outer loop ends: every inner loop on its way does. */
  ghost predicate OuterLoopEnds(paragraphs: seq<string>, current: string, max: int) {
    if paragraphs == [] then true
    else
      var p, rest := paragraphs[0], paragraphs[1..];
      if p == "" then OuterLoopEnds(rest, current, max)
      else if |Candidate(current, p)| <= max then OuterLoopEnds(rest, Candidate(current, p), max)
      else exists k: nat :: EndsIn(p, max, k) && OuterLoopEnds(rest, AfterRounds(p, max, k), max)
  }

  /** `split_reply` returns. */
  ghost predicate Ends(text: string, max: int) {
    Strip(text) == "" || OuterLoopEnds(Paragraphs(Strip(text)), "", max)
  }

  lemma {:induction false} FirstRound(p: string, max: int, bound: nat) returns (k: nat)
    requires |AfterRounds(p, max, bound)| <= max
    ensures EndsIn(p, max, k)
  {
    k := 0;
    while |AfterRounds(p, max, k)| > max
      invariant k <= bound && forall j :: 0 <= j < k ==> |AfterRounds(p, max, j)| > max
      decreases bound - k
    {
      k := k + 1;
    }
  }

  lemma {:induction false} OuterEnds(paragraphs: seq<string>, current: string, max: int)
    requires max >= 1
    ensures OuterLoopEnds(paragraphs, current, max)
  {
    if paragraphs != [] {
      var p, rest := paragraphs[0], paragraphs[1..];
      if p == "" {
        OuterEnds(rest, current, max);
      } else if |Candidate(current, p)| <= max {
        OuterEnds(rest, Candidate(current, p), max);
      } else {
        Shortens(p, max, |p|);
        var k := FirstRound(p, max, |p|);
        OuterEnds(rest, AfterRounds(p, max, k), max);
      }
    }
  }

  lemma {:induction false} StripStarts(text: string)
    requires Strip(text) != ""
    ensures !IsSpace(Strip(text)[0])
  {
    StartsAtText(text, 0);
  }

  lemma {:induction false} StartsAtText(s: string, i: nat)
    requires i <= |s|
    ensures TextStart(s, i) < |s| ==> !IsSpace(s[TextStart(s, i)])
    decreases |s| - i
  {
    if i < |s| && IsSpace(s[i]) { StartsAtText(s, i + 1); }
  }

  /** `split_reply` returns exactly for a limit of at least one, or for a text of white space alone. */
  lemma {:induction false} EndsExactly(text: string, max: int)
    ensures Ends(text, max) <==> max >= 1 || Strip(text) == ""
  {
    var t := Strip(text);
    if max >= 1 {
      OuterEnds(Paragraphs(t), "", max);
    } else if t != "" {
      StripStarts(text);
      var p := Paragraphs(t)[0];
      assert !BreakAt(t, 0) && FindBreak(t, 0) >= 1;
      assert p != "";
      forall k: nat ensures !EndsIn(p, max, k) { StaysLong(p, max, k); }
    }
  }

  // ---- What the messages are ----

  function CutsOfAll(paragraphs: seq<string>, max: nat): seq<string>
    requires max >= 1
  {
    if paragraphs == [] then []
    else (if paragraphs[0] == "" then [] else Cuts(paragraphs[0], max)) + CutsOfAll(paragraphs[1..], max)
  }

  function Flatten(groups: seq<seq<string>>): seq<string> {
    if groups == [] then [] else groups[0] + Flatten(groups[1..])
  }

  ghost predicate AllFull(pieces: seq<string>, max: nat) {
    forall i :: 0 <= i < |pieces| ==> |pieces[i]| == max
  }

  /** All cuts but the last one are full. */
  lemma {:induction false} CutsFull(p: string, max: nat)
    requires max >= 1
    ensures AllFull(Cuts(p, max)[..|Cuts(p, max)| - 1], max)
    decreases |p|
  {
    if |p| > max {
      var rest := Cuts(p[max..], max);
      CutsFull(p[max..], max);
      assert Cuts(p, max)[..|Cuts(p, max)| - 1] == [p[..max]] + rest[..|rest| - 1];
    }
  }

  ghost predicate Fits(chunks: seq<string>, max: nat) {
    forall i :: 0 <= i < |chunks| ==> 0 < |chunks[i]| <= max
  }

  /** No two neighbours could have been sent as one message. */
  ghost predicate Tight(chunks: seq<string>, max: nat) {
    forall i :: 0 <= i < |chunks| - 1 ==> |chunks[i]| + |BREAK| + |chunks[i + 1]| > max
  }

  lemma {:induction false} FitsTogether(a: seq<string>, b: seq<string>, max: nat)
    requires Fits(a, max) && Fits(b, max)
    ensures Fits(a + b, max)
  {
  }

  /** Every message is non-empty and within the limit. */
  lemma {:induction false} MessagesFit(paragraphs: seq<string>, current: string, max: nat)
    requires max >= 1 && |current| <= max
    ensures Fits(Lay(paragraphs, current, max), max)
  {
    if paragraphs != [] {
      var p, rest := paragraphs[0], paragraphs[1..];
      if p == "" {
        MessagesFit(rest, current, max);
      } else if |Candidate(current, p)| <= max {
        MessagesFit(rest, Candidate(current, p), max);
      } else {
        var cuts := Cuts(p, max);
        MessagesFit(rest, cuts[|cuts| - 1], max);
        CutsFull(p, max);
        FitsTogether(Sent(current), cuts[..|cuts| - 1], max);
        FitsTogether(Sent(current) + cuts[..|cuts| - 1], Lay(rest, cuts[|cuts| - 1], max), max);
      }
    }
  }

  /** What is laid first begins with what was not sent yet. */
  lemma {:induction false} FirstMessage(paragraphs: seq<string>, current: string, max: nat)
    requires max >= 1 && current != ""
    ensures Lay(paragraphs, current, max) != [] && |Lay(paragraphs, current, max)[0]| >= |current|
  {
    if paragraphs != [] {
      var p := paragraphs[0];
      if p == "" {
        FirstMessage(paragraphs[1..], current, max);
      } else if |Candidate(current, p)| <= max {
        FirstMessage(paragraphs[1..], Candidate(current, p), max);
      }
    }
  }

  lemma {:induction false} TightTogether(a: seq<string>, b: seq<string>, max: nat)
    requires Tight(a, max) && Tight(b, max)
    requires a != [] && b != [] ==> |a[|a| - 1]| + |BREAK| + |b[0]| > max
    ensures Tight(a + b, max)
  {
    var chunks := a + b;
    forall i | 0 <= i < |chunks| - 1 ensures |chunks[i]| + |BREAK| + |chunks[i + 1]| > max {
      if i + 1 < |a| {
        assert chunks[i] == a[i] && chunks[i + 1] == a[i + 1];
      } else if i < |a| {
        assert chunks[i] == a[|a| - 1] && chunks[i + 1] == b[0];
      } else {
        assert chunks[i] == b[i - |a|] && chunks[i + 1] == b[i - |a| + 1];
      }
    }
  }

  /** The cuts of a paragraph that did not fit behind `current`. */
  lemma {:induction false} CutsOverflow(current: string, p: string, max: nat)
    requires max >= 1 && p != "" && |Candidate(current, p)| > max
    ensures current != "" ==> |current| + |BREAK| + |Cuts(p, max)[0]| > max
  {
  }

  lemma {:induction false} TightStep(current: string, cuts: seq<string>, tail: seq<string>, max: nat)
    requires max >= 1 && cuts != [] && tail != [] && Tight(tail, max) && |tail[0]| >= |cuts[|cuts| - 1]|
    requires AllFull(cuts[..|cuts| - 1], max)
    requires current != "" ==> |current| + |BREAK| + |cuts[0]| > max
    ensures Tight(Sent(current) + cuts[..|cuts| - 1] + tail, max)
  {
    var init := cuts[..|cuts| - 1];
    assert Tight(init, max);
    assert init != [] ==> init[0] == cuts[0];
    TightTogether(init, tail, max);
    TightTogether(Sent(current), init + tail, max);
    assert Sent(current) + init + tail == Sent(current) + (init + tail);
  }

  lemma {:induction false} MessagesTight(paragraphs: seq<string>, current: string, max: nat)
    requires max >= 1 && |current| <= max
    ensures Tight(Lay(paragraphs, current, max), max)
  {
    if paragraphs != [] {
      var p, rest := paragraphs[0], paragraphs[1..];
      if p == "" {
        MessagesTight(rest, current, max);
      } else if |Candidate(current, p)| <= max {
        MessagesTight(rest, Candidate(current, p), max);
      } else {
        var cuts := Cuts(p, max);
        var last := cuts[|cuts| - 1];
        MessagesTight(rest, last, max);
        FirstMessage(rest, last, max);
        CutsOverflow(current, p, max);
        CutsFull(p, max);
        TightStep(current, cuts, Lay(rest, last, max), max);
      }
    }
  }

  lemma {:induction false} JoinAppend(pieces: seq<string>, p: string)
    ensures Join(pieces + [p]) == if pieces == [] then p else Join(pieces) + BREAK + p
  {
    if |pieces| > 1 {
      JoinAppend(pieces[1..], p);
      assert (pieces + [p])[1..] == pieces[1..] + [p];
    } else if |pieces| == 1 {
      assert (pieces + [p])[1..] == [p];
    }
  }

  ghost predicate Grouped(chunks: seq<string>, groups: seq<seq<string>>) {
    |groups| == |chunks| && forall i :: 0 <= i < |chunks| ==> groups[i] != [] && chunks[i] == Join(groups[i])
  }

  function Singles(pieces: seq<string>): (r: seq<seq<string>>)
    ensures |r| == |pieces| && forall i :: 0 <= i < |r| ==> r[i] == [pieces[i]]
    ensures Flatten(r) == pieces
  {
    if pieces == [] then [] else [[pieces[0]]] + Singles(pieces[1..])
  }

  lemma {:induction false} FlattenFirst(groups: seq<seq<string>>, first: seq<string>, rest: seq<seq<string>>)
    requires groups == [first] + rest
    ensures Flatten(groups) == first + Flatten(rest)
  {
    assert groups[1..] == rest;
  }

  lemma {:induction false} FlattenAppend(a: seq<seq<string>>, b: seq<seq<string>>)
    ensures Flatten(a + b) == Flatten(a) + Flatten(b)
  {
    if a == [] {
      assert a + b == b;
    } else {
      FlattenAppend(a[1..], b);
      FlattenFirst(a, a[0], a[1..]);
      FlattenFirst(a + b, a[0], a[1..] + b);
      Associate(a[0], Flatten(a[1..]), Flatten(b));
    }
  }

  function Head(unsent: seq<string>): seq<seq<string>> { if unsent == [] then [] else [unsent] }

  lemma {:induction false} GroupStep(chunks: seq<string>, unsent: seq<string>, cuts: seq<string>, tail: seq<seq<string>>)
    requires cuts != [] && Grouped(chunks, tail) && (unsent != [] ==> Join(unsent) != "")
    ensures Grouped(Sent(Join(unsent)) + cuts[..|cuts| - 1] + chunks, Head(unsent) + Singles(cuts[..|cuts| - 1]) + tail)
  {
    var init := cuts[..|cuts| - 1];
    assert Grouped(Sent(Join(unsent)), Head(unsent));
    assert Grouped(init, Singles(init));
    GroupedTogether(Sent(Join(unsent)), Head(unsent), init, Singles(init));
    GroupedTogether(Sent(Join(unsent)) + init, Head(unsent) + Singles(init), chunks, tail);
  }

  lemma {:induction false} GroupedTogether(a: seq<string>, x: seq<seq<string>>, b: seq<string>, y: seq<seq<string>>)
    requires Grouped(a, x) && Grouped(b, y)
    ensures Grouped(a + b, x + y)
  {
  }

  lemma {:induction false} FlattenStep(unsent: seq<string>, cuts: seq<string>, tail: seq<seq<string>>, rest: seq<string>)
    requires cuts != [] && Flatten(tail) == [cuts[|cuts| - 1]] + rest
    ensures Flatten(Head(unsent) + Singles(cuts[..|cuts| - 1]) + tail) == unsent + (cuts + rest)
  {
    var init, last := cuts[..|cuts| - 1], cuts[|cuts| - 1];
    FlattenAppend(Head(unsent) + Singles(init), tail);
    FlattenAppend(Head(unsent), Singles(init));
    assert Flatten(Head(unsent)) == unsent by { if unsent != [] { assert Head(unsent)[1..] == []; } }
    Rejoin(unsent, init, last, rest);
    assert cuts == init + [last];
  }

  lemma {:induction false} Associate(a: seq<string>, b: seq<string>, c: seq<string>)
    ensures a + b + c == a + (b + c)
  {
  }

  lemma {:induction false} Rejoin(a: seq<string>, b: seq<string>, last: string, c: seq<string>)
    ensures a + b + ([last] + c) == a + ((b + [last]) + c)
  {
  }

  lemma {:induction false} LastStep(unsent: seq<string>, max: nat)
    requires max >= 1 && (unsent != [] ==> Join(unsent) != "")
    ensures Grouped(Lay([], Join(unsent), max), Head(unsent))
    ensures Flatten(Head(unsent)) == unsent + CutsOfAll([], max)
  {
    if unsent != [] { FlattenFirst(Head(unsent), unsent, []); }
  }

  lemma {:induction false} BlankStep(paragraphs: seq<string>, unsent: seq<string>, max: nat)
    requires max >= 1 && paragraphs != [] && paragraphs[0] == ""
    ensures Lay(paragraphs, Join(unsent), max) == Lay(paragraphs[1..], Join(unsent), max)
    ensures CutsOfAll(paragraphs, max) == CutsOfAll(paragraphs[1..], max)
  {
  }

  /** A paragraph that fits behind the unsent ones. */
  lemma {:induction false} ShortStep(paragraphs: seq<string>, unsent: seq<string>, max: nat)
    requires max >= 1 && (unsent != [] ==> Join(unsent) != "")
    requires paragraphs != [] && paragraphs[0] != "" && |Candidate(Join(unsent), paragraphs[0])| <= max
    ensures Join(unsent + [paragraphs[0]]) != ""
    ensures Lay(paragraphs, Join(unsent), max) == Lay(paragraphs[1..], Join(unsent + [paragraphs[0]]), max)
    ensures unsent + CutsOfAll(paragraphs, max) == unsent + [paragraphs[0]] + CutsOfAll(paragraphs[1..], max)
  {
    var p := paragraphs[0];
    JoinAppend(unsent, p);
    assert Cuts(p, max) == [p];
    Associate(unsent, [p], CutsOfAll(paragraphs[1..], max));
  }

  /** A paragraph that does not fit behind the unsent ones. */
  lemma {:induction false} LongStep(paragraphs: seq<string>, unsent: seq<string>, tail: seq<seq<string>>, max: nat)
    requires max >= 1 && (unsent != [] ==> Join(unsent) != "")
    requires paragraphs != [] && paragraphs[0] != "" && |Candidate(Join(unsent), paragraphs[0])| > max
    requires var cuts := Cuts(paragraphs[0], max);
             && Grouped(Lay(paragraphs[1..], cuts[|cuts| - 1], max), tail)
             && Flatten(tail) == [cuts[|cuts| - 1]] + CutsOfAll(paragraphs[1..], max)
    ensures var cuts := Cuts(paragraphs[0], max);
            var groups := Head(unsent) + Singles(cuts[..|cuts| - 1]) + tail;
            && Grouped(Lay(paragraphs, Join(unsent), max), groups)
            && Flatten(groups) == unsent + CutsOfAll(paragraphs, max)
  {
    var cuts := Cuts(paragraphs[0], max);
    GroupStep(Lay(paragraphs[1..], cuts[|cuts| - 1], max), unsent, cuts, tail);
    FlattenStep(unsent, cuts, tail, CutsOfAll(paragraphs[1..], max));
  }

  /** The messages are the paragraphs' cuts in order, each message joining some of them with a
      paragraph break: nothing is lost, repeated, reordered or added. */
  lemma {:induction false} MessagesConserve(paragraphs: seq<string>, unsent: seq<string>, max: nat)
      returns (groups: seq<seq<string>>)
    requires max >= 1 && (unsent != [] ==> Join(unsent) != "")
    ensures Grouped(Lay(paragraphs, Join(unsent), max), groups)
    ensures Flatten(groups) == unsent + CutsOfAll(paragraphs, max)
  {
    var current := Join(unsent);
    if paragraphs == [] {
      LastStep(unsent, max);
      groups := Head(unsent);
    } else {
      var p, rest := paragraphs[0], paragraphs[1..];
      if p == "" {
        BlankStep(paragraphs, unsent, max);
        groups := MessagesConserve(rest, unsent, max);
      } else if |Candidate(current, p)| <= max {
        ShortStep(paragraphs, unsent, max);
        groups := MessagesConserve(rest, unsent + [p], max);
      } else {
        var cuts := Cuts(p, max);
        var last := cuts[|cuts| - 1];
        var tail := MessagesConserve(rest, [last], max);
        groups := Head(unsent) + Singles(cuts[..|cuts| - 1]) + tail;
        LongStep(paragraphs, unsent, tail, max);
      }
    }
  }

  function Concat(pieces: seq<string>): string { if pieces == [] then "" else pieces[0] + Concat(pieces[1..]) }

  /** The cuts of a paragraph are its characters. */
  lemma {:induction false} CutsConcat(p: string, max: nat)
    requires max >= 1
    ensures Concat(Cuts(p, max)) == p
    decreases |p|
  {
    if |p| > max {
      CutsConcat(p[max..], max);
      assert p == p[..max] + p[max..];
      assert Cuts(p, max)[1..] == Cuts(p[max..], max);
    } else {
      assert [p][1..] == [];
    }
  }
}
