/**
 The streaming answer sanitizer of knowledge/agent_runtime/public_answer.py.

 The model follows the raw pieces of the streamed text that are handed to
 `sanitize_public_answer`; what that function does to a piece is a parameter.
 */
module AnswerStream {
  import opened Common

  const FALLBACK := "抱歉，本次回答生成异常，请重新提问。"

  /** The word lists of the patterns and the length of the tail that is kept.  Everything is
      proved for any lists of the needed shape (`Usable`); the source's lists are below. */
  datatype Rules = Rules(markers: seq<string>, words: seq<string>, watched: seq<string>, tail: nat)

  const MARKERS: seq<string> := [
    "历史会话摘要", "已确认的长期记忆", "相关历史上下文",
    "[user_preference]", "[user_context]", "[episodic_memory]", "[decision_memory]", "[procedural_memory]"
  ]

  const SUFFIX_WORDS: seq<string> := [
    "chunk", "chunkid", "chunk_id", "chunk id", "source", "sourceid", "source_id", "source id",
    "code", "doc", "document", "swagger"
  ]

  const WATCHED: seq<string> := ["chunk", "source", "code", "doc", "document", "swagger"]

  // ---- Characters ----

  /** `str.casefold` on the characters whose folding can meet a marker or a watched word. */
  function Fold(c: char): char {
    if 'A' <= c <= 'Z' then ((c as int) + 32) as char
    else if c == '\U{17f}' then 's'
    else if c == '\U{212a}' then 'k'
    else c
  }

  /** Python's IGNORECASE also lets the dotted capital and the dotless small i match `i`;
      casefold does not map them to it. */
  predicate TurkishI(c: char) { c == '\U{130}' || c == '\U{131}' }

  /** A lower-case pattern character matches a text character under IGNORECASE. */
  predicate Like(pattern: char, c: char) {
    Fold(c) == pattern || (pattern == 'i' && TurkishI(c))
  }

  predicate Blank(c: char) { c == ' ' || c == '\t' }

  // ---- The marker-line pattern ----

  predicate StartsLike(s: string, i: nat, pattern: string) {
    i + |pattern| <= |s| && forall j :: 0 <= j < |pattern| ==> Like(pattern[j], s[i + j])
  }

  predicate StartsWithMarker(markers: seq<string>, s: string, i: nat) {
    exists m :: 0 <= m < |markers| && StartsLike(s, i, markers[m])
  }

  /** The end of the blanks that begin at `i`. */
  function BlankEnd(s: string, i: nat): (r: nat)
    requires i <= |s|
    ensures i <= r <= |s|
    decreases |s| - i
  {
    if i < |s| && Blank(s[i]) then BlankEnd(s, i + 1) else i
  }

  /** The end of at most `most` hash marks that begin at `i`. */
  function HashEnd(s: string, i: nat, most: nat): (r: nat)
    requires i <= |s|
    ensures i <= r <= |s|
    decreases most
  {
    if most > 0 && i < |s| && s[i] == '#' then HashEnd(s, i + 1, most - 1) else i
  }

  /** Where the line that begins at `i` goes on after its leading blanks and its heading mark. */
  function BodyStart(s: string, i: nat): (r: nat)
    requires i <= |s|
    ensures i <= r <= |s|
  {
    HeadingEnd(s, BlankEnd(s, i), 6)
  }

  /** The end of a heading mark of at most `most` hashes, and its blanks, that begin at `i`. */
  function HeadingEnd(s: string, i: nat, most: nat): (r: nat)
    requires i <= |s|
    ensures i <= r <= |s|
  {
    if i < |s| && s[i] == '#' then BlankEnd(s, HashEnd(s, i, most)) else i
  }

  predicate Bold(s: string, i: nat) {
    i + 2 <= |s| && (s[i] == s[i + 1] == '*' || s[i] == s[i + 1] == '_')
  }

  /** `_INTERNAL_MEMORY_LINE`, after its `^`, matches at `i`. */
  predicate LineMatches(markers: seq<string>, s: string, i: nat)
    requires i <= |s|
  {
    var b := BodyStart(s, i);
    StartsWithMarker(markers, s, b) || (Bold(s, b) && StartsWithMarker(markers, s, b + 2))
  }

  predicate AtLineStart(text: string, i: nat) {
    i == 0 || (i <= |text| && text[i - 1] == '\n')
  }

  predicate MarkerLineAt(markers: seq<string>, text: string, i: nat) {
    i <= |text| && AtLineStart(text, i) && LineMatches(markers, text, i)
  }

  /** `_INTERNAL_MEMORY_LINE.search` from position `from` on: the leftmost match. */
  function SearchFrom(markers: seq<string>, text: string, from: nat): (r: Option<nat>)
    requires from <= |text|
    ensures r.Some? ==> from <= r.value <= |text|
    decreases |text| - from
  {
    if MarkerLineAt(markers, text, from) then Some(from)
    else if from == |text| then None
    else SearchFrom(markers, text, from + 1)
  }

  lemma {:induction false} SearchLeftmost(markers: seq<string>, text: string, from: nat)
    requires from <= |text|
    ensures var r := SearchFrom(markers, text, from);
            && (r.Some? ==> MarkerLineAt(markers, text, r.value))
            && forall i :: from <= i < (if r.Some? then r.value else |text| + 1) ==> !MarkerLineAt(markers, text, i)
    decreases |text| - from
  {
    if !MarkerLineAt(markers, text, from) && from < |text| {
      SearchLeftmost(markers, text, from + 1);
    }
  }

  // ---- Holding a line that may still become a marker line ----

  function LineStart(text: string): (r: nat)
    ensures r <= |text| && AtLineStart(text, r)
    ensures forall i :: r <= i < |text| ==> text[i] != '\n'
  {
    LineStartBefore(text, |text|)
  }

  function LineStartBefore(text: string, i: nat): (r: nat)
    requires i <= |text|
    ensures r <= i && AtLineStart(text, r)
    ensures forall j :: r <= j < i ==> text[j] != '\n'
  {
    if i == 0 || text[i - 1] == '\n' then i else LineStartBefore(text, i - 1)
  }

  /** One heading mark or bold mark is skipped after the leading blanks. */
  function Candidate(s: string, i: nat): (r: nat)
    requires i <= |s|
    ensures r <= |s|
  {
    var a := BlankEnd(s, i);
    if a < |s| && s[a] == '#' then BodyStart(s, i) else if Bold(s, a) then a + 2 else a
  }

  /** The text from `c` on is, up to casefold, a beginning of a marker. */
  predicate MarkerPrefix(markers: seq<string>, s: string, c: nat)
    requires c <= |s|
  {
    exists m :: 0 <= m < |markers| && |s| - c <= |markers[m]| && FoldsTo(s, c, markers[m], |s| - c)
  }

  /** `n` characters from `c` on fold to the beginning of `word`. */
  predicate FoldsTo(s: string, c: nat, word: string, n: nat) {
    c + n <= |s| && n <= |word| && forall j :: 0 <= j < n ==> Fold(s[c + j]) == word[j]
  }

  /** `_possible_memory_prefix_start` holds back the last line, which begins at `i`. */
  predicate MayBecomeMarker(markers: seq<string>, s: string, i: nat)
    requires i <= |s|
  {
    Candidate(s, i) == |s| || MarkerPrefix(markers, s, Candidate(s, i))
  }

  // ---- Holding a split internal identifier ----

  predicate AsciiWord(c: char) {
    'a' <= c <= 'z' || 'A' <= c <= 'Z' || '0' <= c <= '9' || c == '_'
  }

  /** The extra letters that an ASCII letter class matches under IGNORECASE. */
  predicate FoldsToAscii(c: char) { TurkishI(c) || c == '\U{17f}' || c == '\U{212a}' }

  predicate TokenChar(c: char) {
    (AsciiWord(c) && c != '_') || c in "._:/-" || FoldsToAscii(c)
  }

  predicate AllToken(s: string, i: nat, j: nat)
    requires j <= |s|
  {
    forall k :: i <= k < j ==> TokenChar(s[k])
  }

  /** What may follow a watched word up to the end of the text (or its last newline). */
  predicate SuffixRest(s: string, i: nat)
    requires i <= |s|
  {
    || i == |s|
    || (i + 1 == |s| && s[i] == '\n')
    || (s[i] in "_ :：=#-"
        && (AllToken(s, i + 1, |s|) || (i + 2 <= |s| && s[|s| - 1] == '\n' && AllToken(s, i + 1, |s| - 1))))
  }

  predicate SuffixAt(words: seq<string>, text: string, i: nat)
    requires i <= |text|
  {
    && (i == 0 || !(AsciiWord(text[i - 1]) || FoldsToAscii(text[i - 1])))
    && exists w :: 0 <= w < |words| && StartsLike(text, i, words[w]) && SuffixRest(text, i + |words[w]|)
  }

  /** Where `_STREAM_INTERNAL_SUFFIX` matches, or the length of the text. */
  function SuffixStart(words: seq<string>, text: string, from: nat): (r: nat)
    requires from <= |text|
    ensures from <= r <= |text|
    ensures r < |text| ==> SuffixAt(words, text, r)
    decreases |text| - from
  {
    if from == |text| || SuffixAt(words, text, from) then from else SuffixStart(words, text, from + 1)
  }

  /** The last `n` characters may be the beginning of a watched word. */
  predicate WordBegins(watched: seq<string>, buffer: string, n: nat)
    requires 1 <= n <= |buffer|
  {
    && (exists w :: 0 <= w < |watched| && FoldsTo(buffer, |buffer| - n, watched[w], n))
    && (n == |buffer| || !AsciiWord(Fold(buffer[|buffer| - n - 1])))
  }

  function HeldLength(watched: seq<string>, buffer: string, n: nat): (r: nat)
    requires 1 <= n
    ensures r <= |buffer|
    ensures r > 0 ==> r >= n && WordBegins(watched, buffer, r)
    decreases 9 - n
  {
    if n > 8 || n > |buffer| then 0
    else if WordBegins(watched, buffer, n) then n
    else HeldLength(watched, buffer, n + 1)
  }

  function CutAt(rules: Rules, buffer: string): (r: nat)
    ensures r <= |buffer|
  {
    var s := SuffixStart(rules.words, buffer, 0);
    if s < |buffer| then s else |buffer| - HeldLength(rules.watched, buffer, 1)
  }

  // ---- One feed ----

  /** What a feed takes off the buffer; `asks` is false when it returns before sanitizing. */
  datatype Piece = Piece(raw: string, rest: string, blocks: bool, asks: bool)

  /** What is released when no marker line can be under way. */
  function CutPiece(rules: Rules, buffer: string): (p: Piece)
    ensures p.raw + p.rest == buffer && !p.blocks
  {
    var cut := CutAt(rules, buffer);
    if cut > 0 then Piece(buffer[..cut], buffer[cut..], false, true)
    else if |buffer| <= rules.tail then Piece("", buffer, false, false)
    else Piece(buffer[..|buffer| - rules.tail], buffer[|buffer| - rules.tail..], false, true)
  }

  function Take(rules: Rules, buffer: string): Piece {
    match SearchFrom(rules.markers, buffer, 0)
    case Some(i) => Piece(RStrip(buffer[..i]), "", true, true)
    case None =>
      var line := LineStart(buffer);
      if MayBecomeMarker(rules.markers, buffer, line) then Piece(buffer[..line], buffer[line..], false, true)
      else CutPiece(rules, buffer)
  }

  datatype Stream = Stream(buffer: string, blocked: bool, emitted: bool)

  function Shown(p: Piece, sanitize: string -> string): string {
    if p.asks then sanitize(p.raw) else ""
  }

  function AfterFeed(rules: Rules, s: Stream, delta: string, sanitize: string -> string): (Stream, string) {
    if s.blocked then (s, "")
    else
      var p := Take(rules, s.buffer + delta);
      (Stream(p.rest, p.blocks, s.emitted || Shown(p, sanitize) != ""), Shown(p, sanitize))
  }

  function AfterFlush(s: Stream, sanitize: string -> string): (Stream, string) {
    if s.blocked then (Stream("", true, true), if s.emitted then "" else FALLBACK)
    else (Stream("", false, s.emitted || sanitize(s.buffer) != ""), sanitize(s.buffer))
  }

  class PublicAnswerStream {
    const rules: Rules
    var buffer: string
    var blocked: bool
    var emitted: bool

    function State(): Stream reads this { Stream(buffer, blocked, emitted) }

    constructor (tailChars: int)
      ensures State() == Stream("", false, false)
      ensures rules == Rules(MARKERS, SUFFIX_WORDS, WATCHED, if tailChars > 32 then tailChars else 32)
    {
      rules := Rules(MARKERS, SUFFIX_WORDS, WATCHED, if tailChars > 32 then tailChars else 32);
      buffer, blocked, emitted := "", false, false;
    }

    method Feed(delta: string, sanitize: string -> string) returns (shown: string)
      modifies this
      ensures (State(), shown) == AfterFeed(rules, old(State()), delta, sanitize)
    {
      if blocked { return ""; }
      buffer := buffer + delta;
      var piece := TakePiece(buffer);
      buffer, blocked := piece.rest, piece.blocks;
      if !piece.asks { return ""; }
      shown := sanitize(piece.raw);
      if shown != "" { emitted := true; }
    }

    method TakePiece(text: string) returns (p: Piece)
      ensures p == Take(rules, text)
    {
      var found := SearchFrom(rules.markers, text, 0);
      if found.Some? { return Piece(RStrip(text[..found.value]), "", true, true); }
      var line := LineStart(text);
      if MayBecomeMarker(rules.markers, text, line) {
        return Piece(text[..line], text[line..], false, true);
      }
      var cut := FindCut(text);
      if cut == 0 && |text| <= rules.tail { return Piece("", text, false, false); }
      if cut == 0 { cut := |text| - rules.tail; }
      return Piece(text[..cut], text[cut..], false, true);
    }

    method FindCut(text: string) returns (cut: nat)
      ensures cut == CutAt(rules, text)
    {
      cut := SuffixStart(rules.words, text, 0);
      if cut < |text| { return; }
      var n := 1;
      while n <= 8 && n <= |text|
        invariant 1 <= n <= 9
        invariant HeldLength(rules.watched, text, 1) == HeldLength(rules.watched, text, n)
      {
        if WordBegins(rules.watched, text, n) { return |text| - n; }
        n := n + 1;
      }
    }

    method Flush(sanitize: string -> string) returns (shown: string)
      modifies this
      ensures (State(), shown) == AfterFlush(old(State()), sanitize)
    {
      if blocked {
        buffer := "";
        if emitted { return ""; }
        emitted := true;
        return FALLBACK;
      }
      shown := sanitize(buffer);
      buffer := "";
      if shown != "" { emitted := true; }
    }
  }
}

/** What every chunking of a streamed text releases. */
module AnswerStreamProofs {
  import opened Common
  import opened AnswerStream

  /** The shape of the word lists that the stream relies on. */
  ghost predicate UsableMarker(m: string) {
    && m != ""
    && m[0] != '*' && m[0] != '_' && !('a' <= m[0] <= 'z')
    && m[|m| - 1] != 'i'
    && forall i :: 0 <= i < |m| ==>
         Fold(m[i]) == m[i] && !TurkishI(m[i]) && !Blank(m[i]) && m[i] != '\n' && m[i] != '#'
  }

  ghost predicate UsableMarkers(markers: seq<string>) {
    forall m :: 0 <= m < |markers| ==> UsableMarker(markers[m])
  }

  ghost predicate LetterWord(w: string) { forall i :: 0 <= i < |w| ==> 'a' <= w[i] <= 'z' }

  ghost predicate SuffixWord(w: string) {
    w != "" && 'a' <= w[0] <= 'z' && forall i :: 0 <= i < |w| ==> w[i] != '\n'
  }

  ghost predicate Usable(rules: Rules) {
    && UsableMarkers(rules.markers)
    && (forall w :: 0 <= w < |rules.words| ==> SuffixWord(rules.words[w]))
    && (forall w :: 0 <= w < |rules.watched| ==> LetterWord(rules.watched[w]))
    && rules.tail > 0
  }

  lemma {:induction false} HeadingsUsable()
    ensures forall m :: 0 <= m < 3 ==> UsableMarker(MARKERS[m])
  {
  }

  lemma {:induction false} UserTagsUsable()
    ensures UsableMarker(MARKERS[3]) && UsableMarker(MARKERS[4])
  {
  }

  lemma {:induction false} EpisodicTagUsable()
    ensures UsableMarker(MARKERS[5])
  {
  }

  lemma {:induction false} MemoryTagsUsable()
    ensures UsableMarker(MARKERS[6]) && UsableMarker(MARKERS[7])
  {
  }

  lemma {:induction false} WordsUsable()
    ensures forall w :: 0 <= w < |SUFFIX_WORDS| ==> SuffixWord(SUFFIX_WORDS[w])
    ensures forall w :: 0 <= w < |WATCHED| ==> LetterWord(WATCHED[w])
  {
  }

  lemma {:induction false} SourceRulesUsable(tail: nat)
    requires tail > 0
    ensures Usable(Rules(MARKERS, SUFFIX_WORDS, WATCHED, tail))
  {
    HeadingsUsable();
    UserTagsUsable();
    EpisodicTagUsable();
    MemoryTagsUsable();
    WordsUsable();
  }

  /** After its blanks and heading mark the line at `i` goes on with a marker, up to casefold. */
  ghost predicate Plain(markers: seq<string>, s: string, i: nat)
    requires i <= |s|
  {
    exists m :: PlainBy(markers, s, i, m)
  }

  ghost predicate PlainBy(markers: seq<string>, s: string, i: nat, m: int)
    requires i <= |s|
  {
    0 <= m < |markers| && FoldsTo(s, BodyStart(s, i), markers[m], |markers[m]|)
  }

  // ---- Cutting a text short, and dropping its front ----

  function Min(a: nat, b: nat): nat { if a < b then a else b }

  lemma {:induction false} BlankEndCut(s: string, n: nat, i: nat)
    requires i <= n <= |s|
    ensures BlankEnd(s[..n], i) == Min(BlankEnd(s, i), n)
    decreases |s| - i
  {
    if i < n && Blank(s[i]) {
      BlankEndCut(s, n, i + 1);
    }
  }

  lemma {:induction false} HashEndCut(s: string, n: nat, i: nat, most: nat)
    requires i <= n <= |s|
    ensures HashEnd(s[..n], i, most) == Min(HashEnd(s, i, most), n)
    decreases most
  {
    if i < n && most > 0 && s[i] == '#' {
      HashEndCut(s, n, i + 1, most - 1);
    }
  }

  lemma {:induction false} BodyStartCut(s: string, n: nat, i: nat)
    requires i <= n <= |s|
    ensures BodyStart(s[..n], i) == Min(BodyStart(s, i), n)
  {
    BlankEndCut(s, n, i);
    var a := BlankEnd(s, i);
    if a < n && s[a] == '#' {
      var h := HashEnd(s, a, 6);
      HashEndCut(s, n, a, 6);
      if h <= n {
        BlankEndCut(s, n, h);
      }
    }
  }

  lemma {:induction false} BlankEndDrop(s: string, d: nat, i: nat)
    requires d + i <= |s|
    ensures BlankEnd(s[d..], i) + d == BlankEnd(s, d + i)
    decreases |s| - i
  {
    if d + i < |s| && Blank(s[d + i]) {
      BlankEndDrop(s, d, i + 1);
    }
  }

  lemma {:induction false} HashEndDrop(s: string, d: nat, i: nat, most: nat)
    requires d + i <= |s|
    ensures HashEnd(s[d..], i, most) + d == HashEnd(s, d + i, most)
    decreases most
  {
    if most > 0 && d + i < |s| && s[d + i] == '#' {
      HashEndDrop(s, d, i + 1, most - 1);
    }
  }

  lemma {:induction false} HeadingEndDrop(s: string, d: nat, i: nat, most: nat)
    requires d + i <= |s|
    ensures HeadingEnd(s[d..], i, most) + d == HeadingEnd(s, d + i, most)
  {
    HashEndDrop(s, d, i, most);
    BlankEndDrop(s, d, HashEnd(s, d + i, most) - d);
  }

  lemma {:induction false} BodyStartDrop(s: string, d: nat, i: nat)
    requires d + i <= |s|
    ensures BodyStart(s[d..], i) + d == BodyStart(s, d + i)
  {
    BlankEndDrop(s, d, i);
    HeadingEndDrop(s, d, BlankEnd(s[d..], i), 6);
  }

  lemma {:induction false} StartsWithMarkerDrop(markers: seq<string>, s: string, d: nat, i: nat)
    requires d + i <= |s|
    ensures StartsWithMarker(markers, s[d..], i) <==> StartsWithMarker(markers, s, d + i)
  {
    if StartsWithMarker(markers, s, d + i) {
      var m :| 0 <= m < |markers| && StartsLike(s, d + i, markers[m]);
      assert StartsLike(s[d..], i, markers[m]);
    }
    if StartsWithMarker(markers, s[d..], i) {
      var m :| 0 <= m < |markers| && StartsLike(s[d..], i, markers[m]);
      forall j | 0 <= j < |markers[m]| ensures Like(markers[m][j], s[d + i + j]) {
        assert s[d..][i + j] == s[d + i + j];
      }
      assert StartsLike(s, d + i, markers[m]);
    }
  }

  lemma {:induction false} BodyDrop(markers: seq<string>, s: string, d: nat, i: nat)
    requires d + i <= |s|
    ensures Bold(s[d..], i) <==> Bold(s, d + i)
    ensures StartsWithMarker(markers, s[d..], i) <==> StartsWithMarker(markers, s, d + i)
    ensures Bold(s, d + i) ==> (StartsWithMarker(markers, s[d..], i + 2) <==> StartsWithMarker(markers, s, d + i + 2))
  {
    StartsWithMarkerDrop(markers, s, d, i);
    if Bold(s, d + i) {
      StartsWithMarkerDrop(markers, s, d, i + 2);
    }
  }

  lemma {:induction false} LineMatchesDrop(markers: seq<string>, s: string, d: nat, i: nat)
    requires d + i <= |s|
    ensures LineMatches(markers, s[d..], i) <==> LineMatches(markers, s, d + i)
  {
    BodyStartDrop(s, d, i);
    BodyDrop(markers, s, d, BodyStart(s[d..], i));
  }

  lemma {:induction false} MarkerPrefixDrop(markers: seq<string>, s: string, d: nat, c: nat)
    requires d + c <= |s| && MarkerPrefix(markers, s, d + c)
    ensures MarkerPrefix(markers, s[d..], c)
  {
    var n := |s| - d - c;
    var m :| 0 <= m < |markers| && n <= |markers[m]| && FoldsTo(s, d + c, markers[m], n);
    assert FoldsTo(s[d..], c, markers[m], n);
  }

  lemma {:induction false} MayBecomeMarkerDrop(markers: seq<string>, s: string, d: nat, i: nat)
    requires d + i <= |s| && MayBecomeMarker(markers, s, d + i)
    ensures MayBecomeMarker(markers, s[d..], i)
  {
    BodyStartDrop(s, d, i);
    BlankEndDrop(s, d, i);
    assert Candidate(s[d..], i) + d == Candidate(s, d + i);
    if Candidate(s, d + i) != |s| {
      MarkerPrefixDrop(markers, s, d, Candidate(s[d..], i));
    }
  }

  lemma {:induction false} BlanksOnly(s: string, i: nat)
    requires i <= |s|
    ensures forall j :: i <= j < BlankEnd(s, i) ==> Blank(s[j])
    decreases |s| - i
  {
    if i < |s| && Blank(s[i]) {
      BlanksOnly(s, i + 1);
    }
  }

  lemma {:induction false} HashesOnly(s: string, i: nat, most: nat)
    requires i <= |s|
    ensures forall j :: i <= j < HashEnd(s, i, most) ==> s[j] == '#'
    decreases most
  {
    if most > 0 && i < |s| && s[i] == '#' {
      HashesOnly(s, i + 1, most - 1);
    }
  }

  lemma {:induction false} DecorationOnly(s: string, i: nat)
    requires i <= |s|
    ensures forall j :: i <= j < BodyStart(s, i) ==> Blank(s[j]) || s[j] == '#'
  {
    BlanksOnly(s, i);
    var a := BlankEnd(s, i);
    if a < |s| && s[a] == '#' {
      HashesOnly(s, a, 6);
      BlanksOnly(s, HashEnd(s, a, 6));
    }
  }

  // ---- A plain marker line is held back at every cut ----

  /** Where a plain match by marker m ends. */
  ghost function MatchEnd(markers: seq<string>, s: string, i: nat, m: int): nat
    requires i <= |s| && PlainBy(markers, s, i, m)
  {
    BodyStart(s, i) + |markers[m]|
  }

  lemma {:induction false} PlainMatches(markers: seq<string>, s: string, i: nat, m: int, n: nat)
    requires i <= |s| && PlainBy(markers, s, i, m) && MatchEnd(markers, s, i, m) <= n <= |s|
    ensures LineMatches(markers, s[..n], i)
  {
    BodyStartCut(s, n, i);
    assert StartsLike(s[..n], BodyStart(s, i), markers[m]);
  }

  lemma {:induction false} PlainPrefixHeld(markers: seq<string>, s: string, i: nat, m: int, n: nat)
    requires i <= n <= |s| && PlainBy(markers, s, i, m) && UsableMarker(markers[m]) && n < MatchEnd(markers, s, i, m)
    ensures MayBecomeMarker(markers, s[..n], i)
  {
    var b := BodyStart(s, i);
    BodyStartCut(s, n, i);
    BlankEndCut(s, n, i);
    if b < n {
      assert Fold(s[b + 0]) == markers[m][0];
      assert Candidate(s[..n], i) == b;
      assert FoldsTo(s[..n], b, markers[m], n - b);
    } else {
      assert Candidate(s[..n], i) == n;
    }
  }

  lemma {:induction false} PlainNoNewline(markers: seq<string>, s: string, i: nat, m: int, j: nat)
    requires i <= |s| && PlainBy(markers, s, i, m) && UsableMarker(markers[m])
    requires i <= j < MatchEnd(markers, s, i, m)
    ensures s[j] != '\n'
  {
    DecorationOnly(s, i);
    var b := BodyStart(s, i);
    if b <= j {
      assert Fold(s[b + (j - b)]) == markers[m][j - b];
    }
  }

  // ---- One feed keeps the released text before the line ----

  ghost predicate Arrived(markers: seq<string>, text: string, line: nat) {
    line <= |text| && LineMatches(markers, text, line)
  }

  /** What a feed does with the buffer, as far as the marker lines decide it. */
  ghost predicate TakeShape(markers: seq<string>, b: string, t: Piece) {
    && t.raw <= b
    && (t.blocks ==>
          && (exists i :: |t.raw| <= i <= |b| && AtLineStart(b, i))
          && forall i :: 0 <= i <= |b| && MarkerLineAt(markers, b, i) ==> |t.raw| <= i)
    && (!t.blocks ==>
          && t.raw + t.rest == b
          && (forall j :: 0 <= j <= |b| ==> !MarkerLineAt(markers, b, j))
          && (MayBecomeMarker(markers, b, LineStart(b)) ==> |t.raw| == LineStart(b)))
  }

  lemma {:induction false} PieceUnblocked(rules: Rules, b: string)
    requires SearchFrom(rules.markers, b, 0).None?
    ensures var t := Take(rules, b);
            && !t.blocks && t.raw + t.rest == b
            && (MayBecomeMarker(rules.markers, b, LineStart(b)) ==> |t.raw| == LineStart(b))
  {
  }

  lemma {:induction false} TakeHasShape(rules: Rules, b: string)
    ensures TakeShape(rules.markers, b, Take(rules, b))
  {
    SearchLeftmost(rules.markers, b, 0);
    var found := SearchFrom(rules.markers, b, 0);
    if found.Some? {
      assert RStrip(b[..found.value]) <= b;
      assert AtLineStart(b, found.value);
    } else {
      PieceUnblocked(rules, b);
    }
  }

  /** A line start of the buffer is not after the line, when the line has no newline yet. */
  lemma {:induction false} NoLaterLineStart(text: string, from: nat, line: nat, i: nat)
    requires from <= line <= |text| && i <= |text| - from
    requires AtLineStart(text[from..], i)
    requires forall j :: line <= j < |text| ==> text[j] != '\n'
    ensures from + i <= line
  {
    assert i > 0 ==> text[from..][i - 1] == text[from + i - 1];
  }

  /** `from` characters are released; the rest of the text is the buffer; at `line` a line begins. */
  ghost predicate HeldSoFar(markers: seq<string>, text: string, line: nat) {
    line < |text| && !Arrived(markers, text, line) ==>
      MayBecomeMarker(markers, text, line) && forall j :: line <= j < |text| ==> text[j] != '\n'
  }

  /** The unfinished line that must not be released is the last line of the buffer. */
  lemma {:induction false} HeldLineIsLast(markers: seq<string>, text: string, from: nat, line: nat)
    requires from <= line < |text| && AtLineStart(text, line)
    requires HeldSoFar(markers, text, line) && !Arrived(markers, text, line)
    ensures LineStart(text[from..]) == line - from && MayBecomeMarker(markers, text[from..], line - from)
    ensures forall i :: 0 <= i <= |text| - from && AtLineStart(text[from..], i) ==> i <= line - from
  {
    var b := text[from..];
    assert AtLineStart(b, line - from);
    forall i | 0 <= i <= |text| - from && AtLineStart(b, i) ensures i <= line - from {
      NoLaterLineStart(text, from, line, i);
    }
    assert LineStart(b) == line - from;
    MayBecomeMarkerDrop(markers, text, from, line - from);
  }

  /** A feed blocks before every marker line of its buffer. */
  lemma {:induction false} ShapeBlocks(markers: seq<string>, b: string, t: Piece, k: nat)
    requires TakeShape(markers, b, t) && MarkerLineAt(markers, b, k)
    ensures t.blocks && |t.raw| <= k
  {
  }

  lemma {:induction false} ArrivedBlocks(markers: seq<string>, text: string, from: nat, line: nat, t: Piece)
    requires from <= line <= |text| && AtLineStart(text, line) && TakeShape(markers, text[from..], t)
    requires Arrived(markers, text, line)
    ensures t.blocks && from + |t.raw| <= line
  {
    LineMatchesDrop(markers, text, from, line - from);
    ShapeBlocks(markers, text[from..], t, line - from);
  }

  lemma {:induction false} HeldStays(markers: seq<string>, text: string, from: nat, line: nat, t: Piece)
    requires from <= line < |text| && AtLineStart(text, line) && TakeShape(markers, text[from..], t)
    requires HeldSoFar(markers, text, line) && !Arrived(markers, text, line)
    ensures from + |t.raw| <= line
  {
    HeldLineIsLast(markers, text, from, line);
    if t.blocks {
      var i :| |t.raw| <= i <= |text[from..]| && AtLineStart(text[from..], i);
    }
  }

  lemma {:induction false} ShapeKeeps(markers: seq<string>, text: string, from: nat, line: nat, t: Piece)
    requires from <= |text| && from <= line && (line <= |text| ==> AtLineStart(text, line))
    requires TakeShape(markers, text[from..], t) && HeldSoFar(markers, text, line)
    ensures from + |t.raw| <= line
    ensures !t.blocks ==> !Arrived(markers, text, line)
  {
    if Arrived(markers, text, line) {
      ArrivedBlocks(markers, text, from, line, t);
    } else if line < |text| {
      HeldStays(markers, text, from, line, t);
    }
  }

  // ---- What one feed lets go ----

  lemma {:induction false} TextEndIs(s: string, i: nat, j: nat)
    requires i <= j <= |s|
    ensures var r := TextEnd(s, i, j);
            (forall k :: r <= k < j ==> IsSpace(s[k])) && (r > i ==> !IsSpace(s[r - 1]))
  {
    if i < j && IsSpace(s[j - 1]) { TextEndIs(s, i, j - 1); }
  }

  /** A feed that blocks lets go the text before the first marker line, without the white space at its end. */
  lemma {:induction false} BlockedRelease(rules: Rules, b: string, line: nat)
    requires SearchFrom(rules.markers, b, 0) == Some(line)
    ensures var t := Take(rules, b);
            && t.blocks && t.rest == "" && |t.raw| <= line && t.raw == b[..|t.raw|]
            && (forall k :: |t.raw| <= k < line ==> IsSpace(b[k]))
            && (|t.raw| > 0 ==> !IsSpace(b[|t.raw| - 1]))
  {
    var head := b[..line];
    TextEndIs(head, 0, |head|);
    assert RStrip(head) == head[..TextEnd(head, 0, |head|)] == b[..TextEnd(head, 0, |head|)];
    forall k | TextEnd(head, 0, |head|) <= k < line ensures IsSpace(b[k]) {
      assert head[k] == b[k];
    }
  }

  /** A buffer that is held from its beginning but is longer than the tail keeps exactly the tail. */
  lemma {:induction false} TailKept(rules: Rules, b: string)
    requires SearchFrom(rules.markers, b, 0).None? && !MayBecomeMarker(rules.markers, b, LineStart(b))
    requires b != "" && SuffixAt(rules.words, b, 0)
    ensures var t := Take(rules, b);
            if |b| <= rules.tail then t == Piece("", b, false, false)
            else t.raw + t.rest == b && |t.rest| == rules.tail && !t.blocks && t.asks
  {
  }

  // ---- Any number of feeds ----

  datatype Progress = Progress(buffer: string, blocked: bool, raws: seq<string>)

  function Feeds(rules: Rules, chunks: seq<string>): Progress {
    if chunks == [] then Progress("", false, [])
    else
      var p := Feeds(rules, chunks[..|chunks| - 1]);
      if p.blocked then p.(raws := p.raws + [""])
      else
        var t := Take(rules, p.buffer + chunks[|chunks| - 1]);
        Progress(t.rest, t.blocks, p.raws + [t.raw])
  }

  function Joined(pieces: seq<string>): string {
    if pieces == [] then "" else Joined(pieces[..|pieces| - 1]) + pieces[|pieces| - 1]
  }

  lemma {:induction false} JoinedAppend(pieces: seq<string>, last: string)
    ensures Joined(pieces + [last]) == Joined(pieces) + last
  {
    assert (pieces + [last])[..|pieces|] == pieces;
  }

  /** The raw text that all feeds and a final flush hand to the sanitizer. */
  function Released(rules: Rules, chunks: seq<string>): string {
    var p := Feeds(rules, chunks);
    Joined(p.raws) + if p.blocked then "" else p.buffer
  }

  lemma {:induction false} PlainHeldSoFar(markers: seq<string>, whole: string, line: nat, m: int, n: nat)
    requires line <= |whole| && PlainBy(markers, whole, line, m) && UsableMarker(markers[m]) && n <= |whole|
    ensures HeldSoFar(markers, whole[..n], line)
  {
    if line < n && !Arrived(markers, whole[..n], line) {
      if MatchEnd(markers, whole, line, m) <= n {
        PlainMatches(markers, whole, line, m, n);
      } else {
        PlainPrefixHeld(markers, whole, line, m, n);
        forall j | line <= j < n ensures whole[..n][j] != '\n' {
          PlainNoNewline(markers, whole, line, m, j);
        }
      }
    }
  }

  lemma Rejoin(released: string, text: string, raw: string, rest: string)
    requires released <= text
    ensures raw <= text[|released|..] ==> released + raw <= text
    ensures raw + rest == text[|released|..] ==> released + raw + rest == text
  {
    assert text == released + text[|released|..];
  }

  lemma DropFront(front: string, back: string, last: string, text: string)
    requires front + back == text
    ensures (text + last)[|front|..] == back + last && front <= text + last
  {
  }

  lemma {:induction false} FeedStep(markers: seq<string>, t: Piece, released: string, text: string, whole: string,
                                    line: nat, m: int)
    requires line <= |whole| && AtLineStart(whole, line) && PlainBy(markers, whole, line, m) && UsableMarker(markers[m])
    requires text <= whole && released <= text && |released| <= line
    requires TakeShape(markers, text[|released|..], t)
    ensures released + t.raw <= text && |released| + |t.raw| <= line
    ensures !t.blocks ==> released + t.raw + t.rest == text && !Arrived(markers, text, line)
  {
    assert text == whole[..|text|];
    PlainHeldSoFar(markers, whole, line, m, |text|);
    ShapeKeeps(markers, text, |released|, line, t);
    Rejoin(released, text, t.raw, t.rest);
  }

  /** While feeding, the released text is a beginning of the text before the marker line. */
  lemma {:induction false} FeedsKeep(rules: Rules, chunks: seq<string>, whole: string, line: nat, m: int)
    requires Usable(rules) && Joined(chunks) <= whole
    requires line <= |whole| && AtLineStart(whole, line) && PlainBy(rules.markers, whole, line, m)
    ensures var p := Feeds(rules, chunks);
            && Joined(p.raws) <= whole && |Joined(p.raws)| <= line
            && (!p.blocked ==> Joined(p.raws) + p.buffer == Joined(chunks)
                               && !Arrived(rules.markers, Joined(chunks), line))
  {
    if chunks == [] {
      NothingArrived(rules.markers, line);
    } else {
      var before := chunks[..|chunks| - 1];
      var last := chunks[|chunks| - 1];
      FeedsKeep(rules, before, whole, line, m);
      var p, p' := Feeds(rules, before), Feeds(rules, chunks);
      if p.blocked {
        JoinedAppend(p.raws, "");
      } else {
        var t := Take(rules, p.buffer + last);
        TakeHasShape(rules, p.buffer + last);
        DropFront(Joined(p.raws), p.buffer, last, Joined(before));
        FeedStep(rules.markers, t, Joined(p.raws), Joined(before) + last, whole, line, m);
        JoinedAppend(p.raws, t.raw);
      }
    }
  }

  lemma {:induction false} NothingArrived(markers: seq<string>, line: nat)
    requires UsableMarkers(markers)
    ensures !Arrived(markers, "", line)
  {
  }

  /** However the text is cut into deltas, the released raw text stops before every plain marker
      line. */
  lemma {:induction false} NeverReachesPlainMarkerLine(rules: Rules, chunks: seq<string>, line: nat)
    requires Usable(rules) && line <= |Joined(chunks)| && AtLineStart(Joined(chunks), line)
    requires Plain(rules.markers, Joined(chunks), line)
    ensures Released(rules, chunks) <= Joined(chunks) && |Released(rules, chunks)| <= line
  {
    var whole := Joined(chunks);
    var m :| PlainBy(rules.markers, whole, line, m);
    FeedsKeep(rules, chunks, whole, line, m);
    PlainArrived(rules.markers, whole, line, m);
  }

  lemma {:induction false} PlainArrived(markers: seq<string>, whole: string, line: nat, m: int)
    requires line <= |whole| && PlainBy(markers, whole, line, m)
    ensures Arrived(markers, whole, line)
  {
    PlainMatches(markers, whole, line, m, |whole|);
    assert whole[..|whole|] == whole;
  }

  // ---- A marker line that is not plain can leak ----

  ghost predicate NoLetter(c: char) { !('a' <= Fold(c) <= 'z') && !TurkishI(c) }

  lemma {:induction false} StartsWithMarkerGrows(markers: seq<string>, s: string, n: nat, i: nat)
    requires n <= |s| && StartsWithMarker(markers, s[..n], i)
    ensures StartsWithMarker(markers, s, i)
  {
    var m :| 0 <= m < |markers| && StartsLike(s[..n], i, markers[m]);
    forall j | 0 <= j < |markers[m]| ensures Like(markers[m][j], s[i + j]) {
      assert s[..n][i + j] == s[i + j];
    }
    assert StartsLike(s, i, markers[m]);
  }

  lemma {:induction false} LineMatchesGrows(markers: seq<string>, s: string, n: nat, i: nat)
    requires i <= n <= |s| && LineMatches(markers, s[..n], i) && UsableMarkers(markers)
    ensures LineMatches(markers, s, i)
  {
    BodyStartCut(s, n, i);
    var b := BodyStart(s[..n], i);
    if StartsWithMarker(markers, s[..n], b) {
      StartsWithMarkerGrows(markers, s, n, b);
    } else {
      StartsWithMarkerGrows(markers, s, n, b + 2);
    }
  }

  /** The first character of a match that casefold does not map to the marker's. */
  lemma {:induction false} FirstUnfolded(s: string, b: nat, marker: string) returns (i: nat)
    requires StartsLike(s, b, marker) && !FoldsTo(s, b, marker, |marker|)
    ensures i < |marker| && Fold(s[b + i]) != marker[i] && forall j :: 0 <= j < i ==> Fold(s[b + j]) == marker[j]
  {
    i := 0;
    while i < |marker| && Fold(s[b + i]) == marker[i]
      invariant i <= |marker| && forall j :: 0 <= j < i ==> Fold(s[b + j]) == marker[j]
    {
      i := i + 1;
    }
  }

  /** The line that begins at `line` is the text's last, begins with no letter, has no whole marker
      and is not held back. */
  ghost predicate Slips(markers: seq<string>, text: string, line: nat) {
    && line < |text| && NoLetter(text[line])
    && !LineMatches(markers, text, line) && !MayBecomeMarker(markers, text, line)
    && forall j :: line <= j < |text| ==> text[j] != '\n'
  }

  /** The characters of a cut line, given those of its body. */
  lemma {:induction false} CutCharacters(s: string, line: nat, n: nat)
    requires line <= |s| && BodyStart(s, line) < n <= |s| && NoLetter(s[BodyStart(s, line)])
    requires forall j :: BodyStart(s, line) <= j < n ==> s[j] != '\n'
    ensures NoLetter(s[..n][line]) && forall j :: line <= j < n ==> s[..n][j] != '\n'
  {
    DecorationOnly(s, line);
  }

  /** One character of a match. */
  lemma {:induction false} LikeAt(s: string, i: nat, pattern: string, j: nat)
    ensures StartsLike(s, i, pattern) && j < |pattern| ==> i + j < |s| && Like(pattern[j], s[i + j])
  {
  }

  lemma {:induction false} FoldsAt(s: string, i: nat, word: string, n: nat, j: nat)
    ensures FoldsTo(s, i, word, n) && j < n ==> i + j < |s| && j < |word| && Fold(s[i + j]) == word[j]
  {
  }

  lemma {:induction false} UnfoldedMarkerTooLong(markers: seq<string>, s: string, line: nat, n: int, i: nat)
    requires line <= |s| && 0 <= n < |markers| && UsableMarker(markers[n])
    requires BodyStart(s, line) + i < |s| && TurkishI(s[BodyStart(s, line) + i])
    requires forall k :: BodyStart(s, line) <= k < BodyStart(s, line) + i ==> !TurkishI(s[k])
    requires StartsLike(s[..BodyStart(s, line) + i + 1], BodyStart(s, line), markers[n])
    ensures Plain(markers, s, line)
  {
    var b, marker := BodyStart(s, line), markers[n];
    var cut := s[..b + i + 1];
    LikeAt(cut, b, marker, i);
    forall j | 0 <= j < |marker| ensures Fold(s[b + j]) == marker[j] {
      assert Like(marker[j], cut[b + j]);
    }
    assert PlainBy(markers, s, line, n);
  }

  /** Cut right after a dotted or dotless i, a marker is neither whole nor a folded beginning. */
  lemma {:induction false} TurkishSlips(markers: seq<string>, s: string, line: nat, m: int) returns (n: nat)
    requires UsableMarkers(markers) && line <= |s| && 0 <= m < |markers|
    requires StartsLike(s, BodyStart(s, line), markers[m]) && !Plain(markers, s, line)
    ensures line < n <= |s| && Slips(markers, s[..n], line)
  {
    var b, marker := BodyStart(s, line), markers[m];
    assert !PlainBy(markers, s, line, m);
    var i := FirstUnfolded(s, b, marker);
    assert Like(marker[i], s[b + i]) && Like(marker[0], s[b + 0]);
    n := b + i + 1;
    TurkishCharacters(s, b, marker, i);
    CutCharacters(s, line, n);
    BodyStartCut(s, n, line);
    BlankEndCut(s, n, line);
    var cut := s[..n];
    assert cut[b] == s[b] && cut[b + i] == s[b + i];
    assert Candidate(cut, line) == b;
    forall k | 0 <= k < |markers| ensures !StartsLike(cut, b, markers[k]) && !FoldsTo(cut, b, markers[k], i + 1) {
      if StartsLike(cut, b, markers[k]) {
        UnfoldedMarkerTooLong(markers, s, line, k, i);
      }
      FoldsAt(cut, b, markers[k], i + 1, i);
    }
  }

  lemma {:induction false} TurkishCharacters(s: string, b: nat, marker: string, i: nat)
    requires UsableMarker(marker) && i < |marker| && b + |marker| <= |s|
    requires forall j :: 0 <= j < i ==> Fold(s[b + j]) == marker[j]
    requires Like(marker[i], s[b + i]) && Fold(s[b + i]) != marker[i]
    ensures i > 0 && NoLetter(s[b]) && Fold(s[b]) == marker[0] && TurkishI(s[b + i])
    ensures forall j :: b <= j <= b + i ==> s[j] != '\n'
    ensures forall j :: b <= j < b + i ==> !TurkishI(s[j])
  {
    assert i > 0;
    assert Fold(s[b + 0]) == marker[0];
    forall j | b <= j <= b + i ensures s[j] != '\n' && (j < b + i ==> !TurkishI(s[j])) {
      assert j < b + i ==> Fold(s[b + (j - b)]) == marker[j - b];
    }
  }

  lemma {:induction false} BoldSlips(markers: seq<string>, s: string, line: nat) returns (n: nat)
    requires UsableMarkers(markers) && line <= |s| && Bold(s, BodyStart(s, line))
    ensures line < n <= |s| && Slips(markers, s[..n], line)
  {
    var b := BodyStart(s, line);
    n := b + 1;
    CutCharacters(s, line, n);
    BodyStartCut(s, n, line);
    BlankEndCut(s, n, line);
    var cut := s[..n];
    assert cut[b] == s[b];
    assert Candidate(cut, line) == b;
    forall k | 0 <= k < |markers| ensures !StartsLike(cut, b, markers[k]) && !FoldsTo(cut, b, markers[k], 1) {
      LikeAt(cut, b, markers[k], 0);
      FoldsAt(cut, b, markers[k], 1, 0);
    }
  }

  lemma {:induction false} MatchSlips(markers: seq<string>, s: string, line: nat) returns (n: nat)
    requires UsableMarkers(markers) && line <= |s|
    requires LineMatches(markers, s, line) && !Plain(markers, s, line)
    ensures line < n <= |s| && Slips(markers, s[..n], line)
  {
    var b := BodyStart(s, line);
    if Bold(s, b) {
      n := BoldSlips(markers, s, line);
    } else {
      var m :| 0 <= m < |markers| && StartsLike(s, b, markers[m]);
      n := TurkishSlips(markers, s, line, m);
    }
  }

  lemma {:induction false} SuffixNotAcrossLines(word: string, s: string, i: nat, n: nat)
    requires SuffixWord(word) && StartsLike(s, i, word) && SuffixRest(s, i + |word|)
    requires i <= n && n + 1 < |s|
    ensures s[n] != '\n'
  {
    if n < i + |word| {
      assert Like(word[n - i], s[i + (n - i)]);
    }
  }

  /** When the last line begins with no letter, the tail that is kept begins later. */
  lemma {:induction false} CutPastLineStart(rules: Rules, text: string, line: nat)
    requires Usable(rules) && line < |text| && AtLineStart(text, line) && NoLetter(text[line])
    ensures CutAt(rules, text) > line
  {
    var s := SuffixStart(rules.words, text, 0);
    if s < |text| {
      if s <= line {
        SuffixNotBefore(rules, text, line, s);
      }
    } else {
      var n := HeldLength(rules.watched, text, 1);
      if n > 0 && |text| - n <= line {
        WordNotBefore(rules, text, line, n);
      }
    }
  }

  lemma {:induction false} WordNotBefore(rules: Rules, text: string, line: nat, n: nat)
    requires Usable(rules) && line < |text| && NoLetter(text[line]) && 1 <= n <= |text| && |text| - n <= line
    ensures !WordBegins(rules.watched, text, n)
  {
    forall w | 0 <= w < |rules.watched| ensures !FoldsTo(text, |text| - n, rules.watched[w], n) {
      FoldsAt(text, |text| - n, rules.watched[w], n, line - (|text| - n));
    }
  }

  lemma {:induction false} SuffixNotBefore(rules: Rules, text: string, line: nat, s: nat)
    requires Usable(rules) && line < |text| && AtLineStart(text, line) && NoLetter(text[line]) && s <= line
    ensures !SuffixAt(rules.words, text, s)
  {
    forall w | 0 <= w < |rules.words|
      ensures !(StartsLike(text, s, rules.words[w]) && SuffixRest(text, s + |rules.words[w]|))
    {
      assert SuffixWord(rules.words[w]);
      LikeAt(text, s, rules.words[w], 0);
      if s < line && StartsLike(text, s, rules.words[w]) && SuffixRest(text, s + |rules.words[w]|) {
        SuffixNotAcrossLines(rules.words[w], text, s, line - 1);
      }
    }
  }

  lemma {:induction false} NoMatchInCut(markers: seq<string>, whole: string, line: nat, n: nat, j: nat)
    requires UsableMarkers(markers) && line < n <= |whole| && j <= n
    requires j < line ==> !MarkerLineAt(markers, whole, j)
    requires Slips(markers, whole[..n], line)
    ensures !MarkerLineAt(markers, whole[..n], j)
  {
    if j < line && MarkerLineAt(markers, whole[..n], j) {
      LineMatchesGrows(markers, whole, n, j);
    }
  }

  /** A feed whose last line slips releases into that line. */
  lemma {:induction false} SlippingFeed(rules: Rules, text: string, line: nat)
    requires Usable(rules) && AtLineStart(text, line) && Slips(rules.markers, text, line)
    requires SearchFrom(rules.markers, text, 0).None?
    ensures |Take(rules, text).raw| > line
  {
    CutPastLineStart(rules, text, line);
    assert LineStart(text) == line;
  }

  lemma {:induction false} FeedsOne(rules: Rules, first: string)
    ensures var t := Take(rules, first); Feeds(rules, [first]) == Progress(t.rest, t.blocks, [t.raw])
    ensures Joined(Feeds(rules, [first]).raws) == Take(rules, first).raw
  {
    assert [first][..0] == [] && "" + first == first;
    var t := Take(rules, first);
    assert [t.raw][..0] == [] && "" + t.raw == t.raw;
  }

  lemma {:induction false} ReleasedGrows(rules: Rules, chunks: seq<string>, last: string)
    ensures |Released(rules, chunks + [last])| >= |Joined(Feeds(rules, chunks).raws)|
  {
    assert (chunks + [last])[..|chunks|] == chunks;
    var raws, raws' := Feeds(rules, chunks).raws, Feeds(rules, chunks + [last]).raws;
    assert raws'[..|raws'| - 1] == raws;
  }

  lemma {:induction false} JoinedTwo(first: string, second: string)
    ensures Joined([first] + [second]) == first + second
  {
    JoinedAppend([], first);
    JoinedAppend([first], second);
    assert [] + [first] == [first] && "" + first == first;
  }

  lemma {:induction false} TwoChunks(rules: Rules, whole: string, n: nat) returns (chunks: seq<string>)
    requires n <= |whole|
    ensures Joined(chunks) == whole && |Released(rules, chunks)| >= |Take(rules, whole[..n]).raw|
  {
    chunks := [whole[..n]] + [whole[n..]];
    JoinedTwo(whole[..n], whole[n..]);
    assert whole[..n] + whole[n..] == whole;
    FeedsOne(rules, whole[..n]);
    ReleasedGrows(rules, [whole[..n]], whole[n..]);
  }

  lemma {:induction false} LeakyPrefix(rules: Rules, whole: string, line: nat) returns (n: nat)
    requires Usable(rules) && SearchFrom(rules.markers, whole, 0) == Some(line)
    requires !Plain(rules.markers, whole, line)
    ensures n <= |whole| && |Take(rules, whole[..n]).raw| > line
  {
    SearchLeftmost(rules.markers, whole, 0);
    n := MatchSlips(rules.markers, whole, line);
    forall j | 0 <= j <= n ensures !MarkerLineAt(rules.markers, whole[..n], j) {
      NoMatchInCut(rules.markers, whole, line, n, j);
    }
    SearchLeftmost(rules.markers, whole[..n], 0);
    SlippingFeed(rules, whole[..n], line);
  }

  lemma {:induction false} LeakyChunks(rules: Rules, whole: string, line: nat) returns (chunks: seq<string>)
    requires Usable(rules) && SearchFrom(rules.markers, whole, 0) == Some(line)
    requires !Plain(rules.markers, whole, line)
    ensures Joined(chunks) == whole && |Released(rules, chunks)| > line
  {
    var n := LeakyPrefix(rules, whole, line);
    chunks := TwoChunks(rules, whole, n);
  }

  /** The exact condition: every chunking of a text stops before its first marker line if and only
      if that line is plain (`NotPlainExactly` says which lines are not). */
  lemma {:induction false} SafeExactlyWhenPlain(rules: Rules, whole: string, line: nat)
    requires Usable(rules) && SearchFrom(rules.markers, whole, 0) == Some(line)
    ensures Plain(rules.markers, whole, line) <==>
              forall chunks :: Joined(chunks) == whole ==> |Released(rules, chunks)| <= line
  {
    SearchLeftmost(rules.markers, whole, 0);
    if Plain(rules.markers, whole, line) {
      forall chunks | Joined(chunks) == whole ensures |Released(rules, chunks)| <= line {
        NeverReachesPlainMarkerLine(rules, chunks, line);
      }
    } else {
      var chunks := LeakyChunks(rules, whole, line);
    }
  }

  /** The source's own word lists, in particular. */
  lemma {:induction false} SourceSafeExactlyWhenPlain(tail: nat, whole: string, line: nat)
    requires tail >= 32 && SearchFrom(MARKERS, whole, 0) == Some(line)
    ensures Plain(MARKERS, whole, line) <==>
              forall chunks :: Joined(chunks) == whole ==>
                |Released(Rules(MARKERS, SUFFIX_WORDS, WATCHED, tail), chunks)| <= line
  {
    SourceRulesUsable(tail);
    SafeExactlyWhenPlain(Rules(MARKERS, SUFFIX_WORDS, WATCHED, tail), whole, line);
  }

  /** What plain means, written out: blanks, at most six hashes with blanks, then a marker. */
  lemma {:induction false} PlainWrittenOut(markers: seq<string>, before: string, indent: string, hashes: string,
                                           gap: string, m: int, rest: string)
    requires 0 <= m < |markers| && UsableMarker(markers[m]) && |hashes| <= 6 && (hashes == "" ==> gap == "")
    requires forall i :: 0 <= i < |indent| ==> Blank(indent[i])
    requires forall i :: 0 <= i < |gap| ==> Blank(gap[i])
    requires forall i :: 0 <= i < |hashes| ==> hashes[i] == '#'
    ensures Plain(markers, before + indent + hashes + gap + markers[m] + rest, |before|)
  {
    var s := before + indent + hashes + gap + markers[m] + rest;
    var g := |before| + |indent| + |hashes| + |gap|;
    assert s[g..g + |markers[m]|] == markers[m];
    PlainAt(markers, s, |before|, |before| + |indent|, |before| + |indent| + |hashes|,
            |before| + |indent| + |hashes| + |gap|, m);
  }

  lemma {:induction false} PlainAt(markers: seq<string>, s: string, i: nat, a: nat, h: nat, g: nat, m: int)
    requires 0 <= m < |markers| && UsableMarker(markers[m]) && i <= a <= h <= g && h - a <= 6 && (a == h ==> h == g)
    requires g + |markers[m]| <= |s| && s[g..g + |markers[m]|] == markers[m]
    requires forall j :: i <= j < a ==> Blank(s[j])
    requires forall j :: a <= j < h ==> s[j] == '#'
    requires forall j :: h <= j < g ==> Blank(s[j])
    ensures Plain(markers, s, i)
  {
    var found := s[g..g + |markers[m]|];
    assert forall j :: 0 <= j < |found| ==> found[j] == s[g + j];
    assert s[g + 0] == markers[m][0];
    if a == h {
      BlankRun(s, i, g);
    } else {
      BlankRun(s, i, a);
      HashRun(s, a, h, 6);
      BlankRun(s, h, g);
    }
    assert PlainBy(markers, s, i, m);
  }

  lemma {:induction false} BlankRun(s: string, i: nat, j: nat)
    requires i <= j < |s| && !Blank(s[j]) && forall n :: i <= n < j ==> Blank(s[n])
    ensures BlankEnd(s, i) == j
    decreases j - i
  {
    if i < j { BlankRun(s, i + 1, j); }
  }

  lemma {:induction false} HashRun(s: string, i: nat, j: nat, most: nat)
    requires i <= j < |s| && s[j] != '#' && j - i <= most && forall n :: i <= n < j ==> s[n] == '#'
    ensures HashEnd(s, i, most) == j
    decreases j - i
  {
    if i < j { HashRun(s, i + 1, j, most - 1); }
  }

  // ---- What plain excludes ----

  /** A dotted capital or dotless small i is among the `n` characters from `b` on. */
  ghost predicate SpelledTurkish(s: string, b: nat, n: nat) {
    exists j {:trigger s[j]} :: b <= j < b + n && j < |s| && TurkishI(s[j])
  }

  lemma {:induction false} FoldedIsNotTurkish(s: string, b: nat, marker: string)
    requires UsableMarker(marker) && FoldsTo(s, b, marker, |marker|)
    ensures StartsLike(s, b, marker) && !SpelledTurkish(s, b, |marker|) && !Bold(s, b)
  {
    forall j | b <= j < b + |marker| ensures !TurkishI(s[j]) {
      assert Fold(s[b + (j - b)]) == marker[j - b];
    }
    assert Fold(s[b + 0]) == marker[0];
  }

  lemma {:induction false} UnfoldedIsTurkish(s: string, b: nat, marker: string)
    requires StartsLike(s, b, marker) && !FoldsTo(s, b, marker, |marker|)
    ensures SpelledTurkish(s, b, |marker|)
  {
    var i := FirstUnfolded(s, b, marker);
    assert Like(marker[i], s[b + i]);
  }

  lemma {:induction false} BoldIsNoMarker(markers: seq<string>, s: string, line: nat)
    requires UsableMarkers(markers) && line <= |s| && Bold(s, BodyStart(s, line))
    ensures !Plain(markers, s, line)
  {
    forall m | 0 <= m < |markers| ensures !PlainBy(markers, s, line, m) {
      FoldsAt(s, BodyStart(s, line), markers[m], |markers[m]|, 0);
    }
  }

  /** A marker line is not plain exactly when it carries a bold mark, or every marker that it can be read
      as is spelled with a dotted capital or dotless small i. */
  lemma {:induction false} NotPlainExactly(markers: seq<string>, s: string, line: nat)
    requires UsableMarkers(markers) && line <= |s| && LineMatches(markers, s, line)
    ensures var b := BodyStart(s, line);
            !Plain(markers, s, line) <==>
              || Bold(s, b)
              || forall m :: 0 <= m < |markers| && StartsLike(s, b, markers[m]) ==> SpelledTurkish(s, b, |markers[m]|)
  {
    var b := BodyStart(s, line);
    if Bold(s, b) {
      BoldIsNoMarker(markers, s, line);
    } else if Plain(markers, s, line) {
      var m :| PlainBy(markers, s, line, m);
      FoldedIsNotTurkish(s, b, markers[m]);
    } else {
      forall m | 0 <= m < |markers| && StartsLike(s, b, markers[m]) ensures SpelledTurkish(s, b, |markers[m]|) {
        assert !PlainBy(markers, s, line, m);
        UnfoldedIsTurkish(s, b, markers[m]);
      }
    }
  }

  lemma {:induction false} BoldMatches(markers: seq<string>, whole: string)
    requires UsableMarkers(markers) && |markers| > 0 && |whole| >= 2 && whole[0] == whole[1] == '*'
    requires StartsLike(whole, 2, markers[0])
    ensures SearchFrom(markers, whole, 0) == Some(0) && !Plain(markers, whole, 0)
  {
    assert BodyStart(whole, 0) == 0;
    BoldIsNoMarker(markers, whole, 0);
  }

  /** A first delta of one asterisk goes out at once. */
  lemma {:induction false} AsteriskLeaks(rules: Rules, rest: string)
    requires Usable(rules)
    ensures |Released(rules, ["*"] + [rest])| > 0 && Joined(["*"] + [rest]) == "*" + rest
  {
    JoinedTwo("*", rest);
    AsteriskSlips(rules.markers);
    SlippingFeed(rules, "*", 0);
    FeedsOne(rules, "*");
    ReleasedGrows(rules, ["*"], rest);
  }

  const BOLD_LINE := "**历史会话摘要"

  lemma {:induction false} BoldLine()
    ensures StartsLike(BOLD_LINE, 2, MARKERS[0]) && "*" + BOLD_LINE[1..] == BOLD_LINE
  {
  }

  /** A line for which the promise fails, and two deltas that show it. */
  lemma {:induction false} BoldLineLeaks(tail: nat)
    requires tail >= 32
    ensures SearchFrom(MARKERS, BOLD_LINE, 0) == Some(0) && !Plain(MARKERS, BOLD_LINE, 0)
    ensures Joined(["*"] + [BOLD_LINE[1..]]) == BOLD_LINE
    ensures |Released(Rules(MARKERS, SUFFIX_WORDS, WATCHED, tail), ["*"] + [BOLD_LINE[1..]])| > 0
  {
    SourceRulesUsable(tail);
    BoldLine();
    BoldMatches(MARKERS, BOLD_LINE);
    AsteriskLeaks(Rules(MARKERS, SUFFIX_WORDS, WATCHED, tail), BOLD_LINE[1..]);
  }

  lemma {:induction false} AsteriskSlips(markers: seq<string>)
    requires UsableMarkers(markers)
    ensures Slips(markers, "*", 0) && SearchFrom(markers, "*", 0).None?
  {
    forall i, m | 0 <= i <= 1 && 0 <= m < |markers|
      ensures !StartsLike("*", i, markers[m]) && !FoldsTo("*", 0, markers[m], 1)
    {
      LikeAt("*", i, markers[m], 0);
      FoldsAt("*", 0, markers[m], 1, 0);
    }
    assert BodyStart("*", 0) == 0 && BodyStart("*", 1) == 1;
    assert SearchFrom(markers, "*", 1).None?;
  }

  // ---- Without markers nothing is lost ----

  ghost predicate MarkerFree(markers: seq<string>, text: string) {
    forall i :: 0 <= i <= |text| ==> !StartsWithMarker(markers, text, i)
  }

  lemma {:induction false} FreeLine(markers: seq<string>, text: string, i: nat)
    requires MarkerFree(markers, text) && i <= |text|
    ensures !LineMatches(markers, text, i)
  {
  }

  lemma {:induction false} NoMatchInPart(markers: seq<string>, text: string, i: nat, j: nat, k: nat)
    requires MarkerFree(markers, text) && i <= j <= |text| && i + k <= j && UsableMarkers(markers)
    ensures !LineMatches(markers, text[..j][i..], k)
  {
    FreeLine(markers, text, i + k);
    LineMatchesDrop(markers, text[..j], i, k);
    if LineMatches(markers, text[..j], i + k) { LineMatchesGrows(markers, text, j, i + k); }
  }

  lemma {:induction false} PartUnblocked(rules: Rules, text: string, i: nat, j: nat)
    requires MarkerFree(rules.markers, text) && i <= j <= |text| && UsableMarkers(rules.markers)
    ensures var t := Take(rules, text[..j][i..]); !t.blocks && t.raw + t.rest == text[..j][i..]
  {
    var b := text[..j][i..];
    forall k | 0 <= k <= |b| ensures !MarkerLineAt(rules.markers, b, k) {
      NoMatchInPart(rules.markers, text, i, j, k);
    }
    SearchLeftmost(rules.markers, b, 0);
    PieceUnblocked(rules, b);
  }

  lemma {:induction false} FeedsLossless(rules: Rules, chunks: seq<string>, whole: string)
    requires Joined(chunks) <= whole && MarkerFree(rules.markers, whole) && UsableMarkers(rules.markers)
    ensures var p := Feeds(rules, chunks); !p.blocked && Joined(p.raws) + p.buffer == Joined(chunks)
  {
    if chunks != [] {
      var before, last := chunks[..|chunks| - 1], chunks[|chunks| - 1];
      FeedsLossless(rules, before, whole);
      var p := Feeds(rules, before);
      var i := |Joined(p.raws)|;
      DropFront(Joined(p.raws), p.buffer, last, Joined(before));
      assert whole[..|Joined(chunks)|] == Joined(chunks);
      PartUnblocked(rules, whole, i, |Joined(chunks)|);
      var t := Take(rules, p.buffer + last);
      JoinedAppend(p.raws, t.raw);
      Rejoin(Joined(p.raws), Joined(chunks), t.raw, t.rest);
    }
  }

  /** A text in which no marker occurs is released whole, whatever the deltas. */
  lemma {:induction false} Lossless(rules: Rules, chunks: seq<string>)
    requires MarkerFree(rules.markers, Joined(chunks)) && UsableMarkers(rules.markers)
    ensures Released(rules, chunks) == Joined(chunks)
  {
    FeedsLossless(rules, chunks, Joined(chunks));
  }

  // ---- The fallback sentence ----

  datatype Call = FeedCall(delta: string, sanitize: string -> string) | FlushCall(sanitize: string -> string)

  function AfterCall(rules: Rules, s: Stream, c: Call): (Stream, string) {
    match c
    case FeedCall(delta, sanitize) => AfterFeed(rules, s, delta, sanitize)
    case FlushCall(sanitize) => AfterFlush(s, sanitize)
  }

  /** The stream after the calls, and what each of them returned. */
  function Play(rules: Rules, calls: seq<Call>): (r: (Stream, seq<string>))
    ensures |r.1| == |calls|
  {
    if |calls| == 0 then (Stream("", false, false), [])
    else
      var (s, outs) := Play(rules, calls[..|calls| - 1]);
      var (s', out) := AfterCall(rules, s, calls[|calls| - 1]);
      (s', outs + [out])
  }

  // ---- The feeds are those of the class ----

  function FeedCalls(chunks: seq<string>, sanitize: string -> string): (r: seq<Call>)
    ensures |r| == |chunks|
  {
    if |chunks| == 0 then []
    else FeedCalls(chunks[..|chunks| - 1], sanitize) + [FeedCall(chunks[|chunks| - 1], sanitize)]
  }

  /** The call returned what the sanitizer made of the raw piece, or did not ask it about an empty one. */
  ghost predicate Handed(out: string, raw: string, sanitize: string -> string) {
    out == sanitize(raw) || (out == "" && raw == "")
  }

  lemma {:induction false} FeedHands(rules: Rules, s: Stream, p: Progress, delta: string, sanitize: string -> string)
    requires s.buffer == p.buffer && s.blocked == p.blocked
    ensures var (s', out) := AfterFeed(rules, s, delta, sanitize);
            var t := Take(rules, p.buffer + delta);
            if p.blocked then s' == s && out == ""
            else s'.buffer == t.rest && s'.blocked == t.blocks && Handed(out, t.raw, sanitize)
  {
  }

  /** Feeding the deltas one by one leaves the buffer and the block that `Feeds` tells, and each call hands
      out its raw piece. */
  lemma {:induction false} PlayFeeds(rules: Rules, chunks: seq<string>, sanitize: string -> string)
    ensures var (s, outs) := Play(rules, FeedCalls(chunks, sanitize));
            var p := Feeds(rules, chunks);
            && s.buffer == p.buffer && s.blocked == p.blocked && |outs| == |p.raws| == |chunks|
            && forall i :: 0 <= i < |outs| ==> Handed(outs[i], p.raws[i], sanitize)
  {
    if |chunks| > 0 {
      var before, last := chunks[..|chunks| - 1], chunks[|chunks| - 1];
      var calls, earlier := FeedCalls(chunks, sanitize), FeedCalls(before, sanitize);
      PlayFeeds(rules, before, sanitize);
      assert calls[..|calls| - 1] == earlier && calls[|calls| - 1] == FeedCall(last, sanitize);
      FeedHands(rules, Play(rules, earlier).0, Feeds(rules, before), last, sanitize);
    }
  }

  /** A flush after the feeds hands out the rest, unless the stream is blocked. */
  lemma {:induction false} FlushHands(rules: Rules, chunks: seq<string>, sanitize: string -> string)
    requires !Feeds(rules, chunks).blocked
    ensures Play(rules, FeedCalls(chunks, sanitize) + [FlushCall(sanitize)]).1[|chunks|] ==
              sanitize(Feeds(rules, chunks).buffer)
  {
    var feeds := FeedCalls(chunks, sanitize);
    var calls := feeds + [FlushCall(sanitize)];
    PlayFeeds(rules, chunks, sanitize);
    assert calls[..|feeds|] == feeds;
    PlayPrefix(rules, calls, |feeds|);
  }

  ghost predicate AllEmpty(outs: seq<string>) { forall i :: 0 <= i < |outs| ==> outs[i] == "" }

  lemma {:induction false} CallEmits(rules: Rules, s: Stream, c: Call)
    ensures var (s', out) := AfterCall(rules, s, c);
            && (s'.emitted <==> s.emitted || out != "")
            && (s.blocked ==> s'.blocked && out == if c.FlushCall? && !s.emitted then FALLBACK else "")
  {
  }

  lemma {:induction false} EmittedExactly(rules: Rules, calls: seq<Call>)
    ensures Play(rules, calls).0.emitted <==> !AllEmpty(Play(rules, calls).1)
  {
    if |calls| > 0 {
      var before := calls[..|calls| - 1];
      EmittedExactly(rules, before);
      CallEmits(rules, Play(rules, before).0, calls[|calls| - 1]);
      var outs, outs' := Play(rules, before).1, Play(rules, calls).1;
      assert outs'[..|outs|] == outs;
      assert outs'[|outs|] == AfterCall(rules, Play(rules, before).0, calls[|calls| - 1]).1;
    }
  }

  lemma {:induction false} PlayPrefix(rules: Rules, calls: seq<Call>, n: nat)
    requires n <= |calls|
    ensures Play(rules, calls[..n]).1 == Play(rules, calls).1[..n]
    ensures n < |calls| ==>
              Play(rules, calls).1[n] == AfterCall(rules, Play(rules, calls[..n]).0, calls[n]).1
  {
    if n == |calls| {
      assert calls[..n] == calls;
    } else {
      var before := calls[..|calls| - 1];
      PlayPrefix(rules, before, n);
      assert before[..n] == calls[..n];
      if n < |before| { assert before[n] == calls[n]; } else { assert before[..n] == before; }
    }
  }

  lemma {:induction false} StaysBlocked(rules: Rules, calls: seq<Call>, n: nat)
    requires n <= |calls| && Play(rules, calls[..n]).0.blocked
    ensures Play(rules, calls).0.blocked
  {
    if n == |calls| {
      assert calls[..n] == calls;
    } else {
      var before := calls[..|calls| - 1];
      assert before[..n] == calls[..n];
      StaysBlocked(rules, before, n);
      CallEmits(rules, Play(rules, before).0, calls[|calls| - 1]);
    }
  }

  /** Once the stream is blocked, a call returns the fallback if it is a flush and nothing was
      returned by any call before it, and returns nothing otherwise; so the fallback comes at most
      once. */
  lemma {:induction false} FallbackExact(rules: Rules, calls: seq<Call>, n: nat, k: nat)
    requires n <= k < |calls| && Play(rules, calls[..n]).0.blocked
    ensures var outs := Play(rules, calls).1;
            outs[k] == if calls[k].FlushCall? && AllEmpty(outs[..k]) then FALLBACK else ""
  {
    PlayPrefix(rules, calls, k);
    assert calls[..k][..n] == calls[..n];
    StaysBlocked(rules, calls[..k], n);
    EmittedExactly(rules, calls[..k]);
    CallEmits(rules, Play(rules, calls[..k]).0, calls[k]);
  }
}
