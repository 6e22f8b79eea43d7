/**
 What the streaming answer sanitizer of knowledge/agent_runtime/public_answer.py keeps together.

 An internal identifier is sanitized as a whole, so no boundary between two released pieces may lie
 inside it.
 */
module AnswerStreamTokens {
  import opened Common
  import opened AnswerStream
  import opened AnswerStreamProofs

  // ---- Identifiers ----

  /** ASCII letters and digits, and the letters that an ASCII class matches under IGNORECASE. */
  predicate Alphanumeric(c: char) {
    || 'a' <= c <= 'z' || 'A' <= c <= 'Z' || '0' <= c <= '9'
    || c == '\U{130}' || c == '\U{131}' || c == '\U{17f}' || c == '\U{212a}'
  }

  predicate IdentifierPart(c: char) { Alphanumeric(c) || c == '.' || c == '_' || c == ':' || c == '/' || c == '-' }

  /** No word character stands before `i`. */
  predicate Apart(text: string, i: nat) {
    i == 0 || (i <= |text| && !Alphanumeric(text[i - 1]) && text[i - 1] != '_')
  }

  /** The identifier from `i` to `j`: a watched word, a hyphen or underscore, and all the letters, digits
      and `._:/-` after it. */
  ghost predicate IdentifierBy(watched: seq<string>, text: string, i: nat, j: nat, w: nat) {
    && w < |watched| && Apart(text, i) && FoldsTo(text, i, watched[w], |watched[w]|)
    && i + |watched[w]| < j <= |text|
    && (text[i + |watched[w]|] == '-' || text[i + |watched[w]|] == '_')
    && (forall k :: i + |watched[w]| <= k < j ==> IdentifierPart(text[k]))
    && (j < |text| ==> !IdentifierPart(text[j]))
  }

  ghost predicate Identifier(watched: seq<string>, text: string, i: nat, j: nat) {
    exists w: nat :: IdentifierBy(watched, text, i, j, w)
  }

  predicate Separates(c: char) { c == ' ' || c == '：' || c == '=' || c == '#' }

  /** A listed word that begins inside the identifier and reaches over its end, or up to its end with a
      separator behind. */
  ghost predicate InnerBy(words: seq<string>, text: string, i: nat, j: nat, s: nat, w: nat) {
    && i < s < j && w < |words| && Apart(text, s) && StartsLike(text, s, words[w])
    && (s + |words[w]| > j || (s + |words[w]| == j && j < |text| && Separates(text[j])))
  }

  ghost predicate InnerWord(words: seq<string>, text: string, i: nat, j: nat) {
    exists s: nat, w: nat :: InnerBy(words, text, i, j, s, w)
  }

  /** Where the pieces of the first `k` feeds end. */
  ghost function Boundary(rules: Rules, chunks: seq<string>, k: nat): nat
    requires k <= |chunks|
  {
    |Joined(Feeds(rules, chunks[..k]).raws)|
  }

  /** Some boundary lies strictly between `i` and `j`. */
  ghost predicate Splits(rules: Rules, chunks: seq<string>, i: nat, j: nat) {
    exists k: nat :: k <= |chunks| && i < Boundary(rules, chunks, k) < j
  }

  /** The buffer of every feed, the new delta included. */
  ghost function BufferAt(rules: Rules, chunks: seq<string>, k: nat): string
    requires k < |chunks|
  {
    Feeds(rules, chunks[..k]).buffer + chunks[k]
  }

  /** The buffer never outgrows the tail. */
  ghost predicate Fits(rules: Rules, chunks: seq<string>) {
    forall k: nat :: k < |chunks| && !Feeds(rules, chunks[..k]).blocked ==> |BufferAt(rules, chunks, k)| <= rules.tail
  }

  /** What the word lists need besides `Usable`. */
  ghost predicate ListedWord(word: string) {
    && |word| > 0 && forall k :: 0 <= k < |word| ==> 'a' <= word[k] <= 'z' || word[k] == '_' || word[k] == ' '
  }

  ghost predicate Listed(rules: Rules) {
    && (forall w :: 0 <= w < |rules.watched| ==> 0 < |rules.watched[w]| <= 9 && rules.watched[w] in rules.words)
    && (forall w :: 0 <= w < |rules.words| ==> ListedWord(rules.words[w]))
  }

  // ---- One feed ----

  lemma {:induction false} SuffixLeftmost(words: seq<string>, b: string, from: nat, k: nat)
    requires from <= k <= |b| && SuffixAt(words, b, k)
    ensures SuffixStart(words, b, from) <= k
    decreases |b| - from
  {
    if from < k && !SuffixAt(words, b, from) { SuffixLeftmost(words, b, from + 1, k); }
  }

  lemma {:induction false} PartIsToken(c: char)
    ensures IdentifierPart(c) <==> TokenChar(c)
    ensures Alphanumeric(c) || c == '_' <==> AsciiWord(c) || FoldsToAscii(c)
  {
  }

  lemma {:induction false} ApartInBuffer(text: string, from: nat, n: nat, i: nat)
    requires from <= i <= n <= |text| && Apart(text, i)
    ensures i == from || !(AsciiWord(text[from..n][i - from - 1]) || FoldsToAscii(text[from..n][i - from - 1]))
  {
    if from < i { PartIsToken(text[i - 1]); }
  }

  lemma {:induction false} FoldsIsLike(text: string, i: nat, word: string)
    requires FoldsTo(text, i, word, |word|)
    ensures StartsLike(text, i, word)
  {
  }

  lemma {:induction false} LikeInBuffer(text: string, from: nat, n: nat, i: nat, word: string)
    requires from <= i && i + |word| <= n <= |text|
    ensures StartsLike(text[from..n], i - from, word) <==> StartsLike(text, i, word)
  {
    var b := text[from..n];
    if StartsLike(text, i, word) {
      forall k | 0 <= k < |word| ensures Like(word[k], b[i - from + k]) { LikeAt(text, i, word, k); }
    }
    if StartsLike(b, i - from, word) {
      forall k | 0 <= k < |word| ensures Like(word[k], text[i + k]) { LikeAt(b, i - from, word, k); }
    }
  }

  lemma {:induction false} TokensInBuffer(text: string, from: nat, n: nat, i: nat, m: nat)
    requires from <= i && m <= n <= |text| && from <= m && forall k :: i <= k < m ==> IdentifierPart(text[k])
    ensures AllToken(text[from..n], i - from, m - from)
  {
    forall k | i - from <= k < m - from ensures TokenChar(text[from..n][k]) { PartIsToken(text[from + k]); }
  }

  /** An identifier whose word has arrived is matched where it begins, while it goes on to the end of the
      buffer, or to a newline there. */
  lemma {:induction false} IdentifierMatches(rules: Rules, text: string, from: nat, n: nat, i: nat, j: nat, w: nat)
    requires Listed(rules) && IdentifierBy(rules.watched, text, i, j, w) && from <= i && n <= |text|
    requires i + |rules.watched[w]| <= n && (n <= j || (n == j + 1 && text[j] == '\n'))
    ensures SuffixAt(rules.words, text[from..n], i - from)
  {
    var b, word := text[from..n], rules.watched[w];
    var e := i + |word|;
    ApartInBuffer(text, from, n, i);
    FoldsIsLike(text, i, word);
    LikeInBuffer(text, from, n, i, word);
    var v :| 0 <= v < |rules.words| && rules.words[v] == word;
    if e < n {
      assert b[e - from] == text[e];
      if n <= j {
        TokensInBuffer(text, from, n, e + 1, n);
      } else {
        TokensInBuffer(text, from, n, e + 1, j);
        assert b[|b| - 1] == text[j];
      }
    }
    assert SuffixRest(b, e - from);
  }

  lemma {:induction false} CutAtMost(rules: Rules, b: string, k: nat)
    requires k < |b| && SuffixAt(rules.words, b, k)
    ensures CutAt(rules, b) <= k
  {
    SuffixLeftmost(rules.words, b, 0, k);
  }

  /** Characters that fold to letters are word characters. */
  lemma {:induction false} FoldedLetter(text: string, i: nat, word: string, n: nat, k: nat)
    requires LetterWord(word) && FoldsTo(text, i, word, n) && k < n
    ensures Alphanumeric(text[i + k]) && AsciiWord(Fold(text[i + k]))
  {
    assert Fold(text[i + k]) == word[k];
  }

  lemma {:induction false} HeldFirst(watched: seq<string>, b: string, start: nat, m: nat)
    requires 1 <= start <= m <= 8 && m <= |b| && WordBegins(watched, b, m)
    requires forall k :: start <= k < m ==> !WordBegins(watched, b, k)
    ensures HeldLength(watched, b, start) == m
    decreases m - start
  {
    if start < m { HeldFirst(watched, b, start + 1, m); }
  }

  /** The identifier's word has arrived in part. */
  ghost predicate Partial(rules: Rules, text: string, from: nat, n: nat, i: nat, j: nat, w: nat) {
    && IdentifierBy(rules.watched, text, i, j, w) && from <= i < n <= |text| && n < i + |rules.watched[w]|
    && (forall v :: 0 <= v < |rules.watched| ==> LetterWord(rules.watched[v]))
  }

  lemma {:induction false} PartialLetters(rules: Rules, text: string, from: nat, n: nat, i: nat, j: nat, w: nat, k: nat)
    requires Partial(rules, text, from, n, i, j, w) && i <= k < n
    ensures Alphanumeric(text[k]) && AsciiWord(Fold(text[from..n][k - from]))
  {
    var word := rules.watched[w];
    FoldedLetter(text, i, word, |word|, k - i);
  }

  lemma {:induction false} NoSuffixInside(rules: Rules, text: string, from: nat, n: nat, i: nat, j: nat, w: nat, k: nat)
    requires Partial(rules, text, from, n, i, j, w) && i < k < n
    ensures !SuffixAt(rules.words, text[from..n], k - from)
  {
    PartialLetters(rules, text, from, n, i, j, w, k - 1);
    PartIsToken(text[k - 1]);
    assert text[from..n][k - from - 1] == text[k - 1];
  }

  lemma {:induction false} PartialBegins(rules: Rules, text: string, from: nat, n: nat, i: nat, j: nat, w: nat)
    requires Partial(rules, text, from, n, i, j, w)
    ensures WordBegins(rules.watched, text[from..n], n - i)
    ensures forall m :: 1 <= m < n - i ==> !WordBegins(rules.watched, text[from..n], m)
  {
    var b, word := text[from..n], rules.watched[w];
    forall k | 0 <= k < n - i ensures Fold(b[|b| - (n - i) + k]) == word[k] {
      FoldsAt(text, i, word, |word|, k);
    }
    assert FoldsTo(b, |b| - (n - i), word, n - i);
    if from < i { NotAsciiFolded(text[i - 1]); }
    forall m | 1 <= m < n - i ensures !WordBegins(rules.watched, b, m) {
      PartialLetters(rules, text, from, n, i, j, w, n - m - 1);
    }
  }

  lemma {:induction false} NotAsciiFolded(c: char)
    requires !Alphanumeric(c) && c != '_'
    ensures !AsciiWord(Fold(c))
  {
  }

  lemma {:induction false} PartialHeld(rules: Rules, text: string, from: nat, n: nat, i: nat, j: nat, w: nat)
    requires Partial(rules, text, from, n, i, j, w) && Listed(rules)
    ensures CutAt(rules, text[from..n]) <= i - from
  {
    var b := text[from..n];
    var s := SuffixStart(rules.words, b, 0);
    if s < |b| {
      if s > i - from { NoSuffixInside(rules, text, from, n, i, j, w, from + s); }
    } else {
      PartialBegins(rules, text, from, n, i, j, w);
      HeldFirst(rules.watched, b, 1, n - i);
    }
  }

  // ---- An identifier that has passed ----

  /** Where a suffix match inside a passed identifier leads. */
  lemma {:induction false} SuffixInsidePassed(rules: Rules, text: string, from: nat, n: nat, i: nat, j: nat, w: nat,
                                              s: nat)
    requires Listed(rules) && IdentifierBy(rules.watched, text, i, j, w) && from <= i < s < j < n <= |text|
    requires SuffixAt(rules.words, text[from..n], s - from)
    ensures InnerWord(rules.words, text, i, j) || (n == j + 1 && text[j] == '\n')
  {
    var b := text[from..n];
    var v: nat :| v < |rules.words| && StartsLike(b, s - from, rules.words[v])
                  && SuffixRest(b, s - from + |rules.words[v]|);
    var e := s + |rules.words[v]|;
    LikeInBuffer(text, from, n, s, rules.words[v]);
    PartIsToken(text[s - 1]);
    assert b[s - from - 1] == text[s - 1];
    assert Apart(text, s);
    if e > j {
      assert InnerBy(rules.words, text, i, j, s, v);
    } else if e == j {
      assert b[e - from] == text[j];
      RestAtEnd(text, from, n, j);
      if Separates(text[j]) { assert InnerBy(rules.words, text, i, j, s, v); }
    } else {
      RestInside(text, from, n, e, j);
    }
  }

  lemma {:induction false} RestAtEnd(text: string, from: nat, n: nat, j: nat)
    requires from <= j < n <= |text| && !IdentifierPart(text[j]) && SuffixRest(text[from..n], j - from)
    ensures Separates(text[j]) || (n == j + 1 && text[j] == '\n')
  {
    assert text[from..n][j - from] == text[j];
  }

  lemma {:induction false} RestInside(text: string, from: nat, n: nat, e: nat, j: nat)
    requires from <= e < j < n <= |text| && !IdentifierPart(text[j]) && SuffixRest(text[from..n], e - from)
    ensures n == j + 1 && text[j] == '\n'
  {
    var b := text[from..n];
    assert b[j - from] == text[j] && b[|b| - 1] == text[n - 1];
    PartIsToken(text[j]);
  }

  /** The characters of a watched word that may be under way at the end of the buffer. */
  lemma {:induction false} HeldLetters(rules: Rules, text: string, from: nat, n: nat, j: nat, m: nat)
    requires from <= n <= |text| && 1 <= m <= n - from && WordBegins(rules.watched, text[from..n], m)
    requires n - m <= j < n
    requires forall v :: 0 <= v < |rules.watched| ==> LetterWord(rules.watched[v])
    ensures IdentifierPart(text[j])
  {
    var b := text[from..n];
    var v :| 0 <= v < |rules.watched| && FoldsTo(b, |b| - m, rules.watched[v], m);
    FoldedLetter(b, |b| - m, rules.watched[v], m, j - (n - m));
    assert b[|b| - m + (j - (n - m))] == text[j];
  }

  /** The cut of a buffer is not strictly inside an identifier without inner words. */
  lemma {:induction false} CutNotInside(rules: Rules, text: string, from: nat, n: nat, i: nat, j: nat, w: nat)
    requires Listed(rules) && IdentifierBy(rules.watched, text, i, j, w) && from <= i < n <= |text|
    requires forall v :: 0 <= v < |rules.watched| ==> LetterWord(rules.watched[v])
    requires !InnerWord(rules.words, text, i, j)
    ensures !(i < from + CutAt(rules, text[from..n]) < j)
  {
    var b := text[from..n];
    if n < i + |rules.watched[w]| {
      PartialHeld(rules, text, from, n, i, j, w);
    } else if n <= j {
      IdentifierMatches(rules, text, from, n, i, j, w);
      CutAtMost(rules, b, i - from);
    } else {
      PassedNotInside(rules, text, from, n, i, j, w);
    }
  }

  lemma {:induction false} PassedNotInside(rules: Rules, text: string, from: nat, n: nat, i: nat, j: nat, w: nat)
    requires Listed(rules) && IdentifierBy(rules.watched, text, i, j, w) && from <= i && j < n <= |text|
    requires forall v :: 0 <= v < |rules.watched| ==> LetterWord(rules.watched[v])
    requires !InnerWord(rules.words, text, i, j)
    ensures !(i < from + CutAt(rules, text[from..n]) < j)
  {
    if SuffixStart(rules.words, text[from..n], 0) < n - from {
      SuffixOutside(rules, text, from, n, i, j, w);
    } else {
      HeldOutside(rules, text, from, n, i, j);
    }
  }

  /** The identifier is matched where it begins, so nothing later is. */
  lemma {:induction false} StartAtMost(rules: Rules, text: string, from: nat, n: nat, i: nat, j: nat, w: nat)
    requires Listed(rules) && IdentifierBy(rules.watched, text, i, j, w) && from <= i && n == j + 1 <= |text|
    requires text[j] == '\n'
    ensures from + SuffixStart(rules.words, text[from..n], 0) <= i
  {
    IdentifierMatches(rules, text, from, n, i, j, w);
    SuffixLeftmost(rules.words, text[from..n], 0, i - from);
  }

  lemma {:induction false} SuffixOutside(rules: Rules, text: string, from: nat, n: nat, i: nat, j: nat, w: nat)
    requires Listed(rules) && IdentifierBy(rules.watched, text, i, j, w) && from <= i && j < n <= |text|
    requires !InnerWord(rules.words, text, i, j) && SuffixStart(rules.words, text[from..n], 0) < n - from
    ensures !(i < from + SuffixStart(rules.words, text[from..n], 0) < j)
  {
    var s := SuffixStart(rules.words, text[from..n], 0);
    StartMatches(rules.words, text[from..n]);
    if n == j + 1 && text[j] == '\n' {
      StartAtMost(rules, text, from, n, i, j, w);
    } else if i < from + s < j {
      SuffixInsidePassed(rules, text, from, n, i, j, w, from + s);
    }
  }

  lemma {:induction false} StartMatches(words: seq<string>, b: string)
    ensures var s := SuffixStart(words, b, 0); s < |b| ==> SuffixAt(words, b, s)
  {
  }

  lemma {:induction false} HeldOutside(rules: Rules, text: string, from: nat, n: nat, i: nat, j: nat)
    requires from <= i < j < n <= |text| && !IdentifierPart(text[j])
    requires forall v :: 0 <= v < |rules.watched| ==> LetterWord(rules.watched[v])
    ensures !(i < n - HeldLength(rules.watched, text[from..n], 1) < j)
  {
    var m := HeldLength(rules.watched, text[from..n], 1);
    if m > 0 && n - m <= j { HeldLetters(rules, text, from, n, j, m); }
  }

  // ---- Every feed ----

  lemma {:induction false} AllParts(watched: seq<string>, text: string, i: nat, j: nat, w: nat, k: nat)
    requires IdentifierBy(watched, text, i, j, w) && LetterWord(watched[w]) && i <= k < j
    ensures IdentifierPart(text[k])
  {
    if k < i + |watched[w]| { FoldedLetter(text, i, watched[w], |watched[w]|, k - i); }
  }

  lemma {:induction false} SpaceBehind(s: string, i: nat, j: nat)
    requires i <= j <= |s| && TextEnd(s, i, j) < j
    ensures IsSpace(s[TextEnd(s, i, j)])
  {
    if TextEnd(s, i, j - 1) < j - 1 { SpaceBehind(s, i, j - 1); }
  }

  lemma {:induction false} SpaceIsNoPart(c: char)
    requires IsSpace(c)
    ensures !IdentifierPart(c)
  {
  }

  /** The feed need not cut by length. */
  ghost predicate Unforced(rules: Rules, b: string) { CutAt(rules, b) > 0 || |b| <= rules.tail }

  /** What is released before a marker line ends behind a newline, or before white space. */
  lemma {:induction false} BlockedEnds(b: string, m: nat)
    requires m <= |b| && AtLineStart(b, m)
    ensures var r := |RStrip(b[..m])|;
            && r <= |b| && RStrip(b[..m]) == b[..r] && (r == 0 || b[r - 1] == '\n' || (r < |b| && IsSpace(b[r])))
  {
    var head := b[..m];
    var r := TextEnd(head, 0, |head|);
    assert RStrip(head) == head[..r] == b[..r];
    if r < |head| {
      SpaceBehind(head, 0, |head|);
      assert head[r] == b[r];
    }
  }

  /** What a feed that does not block releases ends at a cut or behind a newline. */
  lemma {:induction false} OpenEnds(rules: Rules, b: string)
    requires Unforced(rules, b) && SearchFrom(rules.markers, b, 0).None?
    ensures var t := Take(rules, b);
            && |t.raw| <= |b| && t.raw == b[..|t.raw|]
            && (|t.raw| == 0 || |t.raw| == CutAt(rules, b) || b[|t.raw| - 1] == '\n')
  {
    if MayBecomeMarker(rules.markers, b, LineStart(b)) {
    } else {
      CutEnds(rules, b);
    }
  }

  lemma {:induction false} CutEnds(rules: Rules, b: string)
    requires Unforced(rules, b)
    ensures var t := CutPiece(rules, b);
            |t.raw| <= |b| && t.raw == b[..|t.raw|] && (|t.raw| == 0 || |t.raw| == CutAt(rules, b))
  {
  }

  /** What a feed releases ends at a cut, behind a newline, or before white space. */
  lemma {:induction false} ReleaseEnds(rules: Rules, b: string)
    requires Unforced(rules, b)
    ensures var r := |Take(rules, b).raw|;
            && r <= |b| && Take(rules, b).raw == b[..r]
            && (r == 0 || r == CutAt(rules, b) || b[r - 1] == '\n' || (r < |b| && IsSpace(b[r])))
  {
    var found := SearchFrom(rules.markers, b, 0);
    if found.Some? {
      SearchLeftmost(rules.markers, b, 0);
      BlockedEnds(b, found.value);
    } else {
      OpenEnds(rules, b);
    }
  }

  ghost predicate NoInner(rules: Rules, text: string, i: nat, j: nat, w: nat) {
    && IdentifierBy(rules.watched, text, i, j, w) && !InnerWord(rules.words, text, i, j) && Listed(rules)
    && (forall v :: 0 <= v < |rules.watched| ==> LetterWord(rules.watched[v]))
  }

  lemma {:induction false} EndNotInside(watched: seq<string>, text: string, i: nat, j: nat, w: nat, p: nat)
    requires IdentifierBy(watched, text, i, j, w) && LetterWord(watched[w]) && p <= |text|
    requires (p > 0 && text[p - 1] == '\n') || (p < |text| && IsSpace(text[p]))
    ensures !(i < p < j)
  {
    if i < p && p < j {
      if p < |text| && IsSpace(text[p]) { SpaceIsNoPart(text[p]); }
      AllParts(watched, text, i, j, w, p);
      AllParts(watched, text, i, j, w, p - 1);
    }
  }

  lemma {:induction false} EndsOutside(rules: Rules, text: string, from: nat, n: nat, i: nat, j: nat, w: nat, r: nat)
    requires NoInner(rules, text, i, j, w) && from <= n <= |text| && 0 < r <= n - from
    requires text[from..n][r - 1] == '\n' || (r < n - from && IsSpace(text[from..n][r]))
    ensures !(i < from + r < j)
  {
    CharactersAround(text, from, n, r);
    EndNotInside(rules.watched, text, i, j, w, from + r);
  }

  lemma {:induction false} FeedNotInside(rules: Rules, text: string, from: nat, n: nat, i: nat, j: nat, w: nat)
    requires NoInner(rules, text, i, j, w) && from <= n <= |text| && !(i < from < j)
    requires Unforced(rules, text[from..n])
    ensures !(i < from + |Take(rules, text[from..n]).raw| < j)
  {
    ReleaseEnds(rules, text[from..n]);
    var r := |Take(rules, text[from..n]).raw|;
    if r > 0 && r != CutAt(rules, text[from..n]) {
      EndsOutside(rules, text, from, n, i, j, w, r);
    } else if r > 0 && from <= i < n {
      CutNotInside(rules, text, from, n, i, j, w);
    }
  }

  lemma {:induction false} PartNotInside(rules: Rules, text: string, from: nat, n: nat, b: string, i: nat, j: nat, w: nat)
    requires NoInner(rules, text, i, j, w) && from <= n <= |text| && b == text[from..n] && !(i < from < j)
    requires Unforced(rules, b)
    ensures !(i < from + |Take(rules, b).raw| < j)
  {
    FeedNotInside(rules, text, from, n, i, j, w);
  }

  /** The same for a buffer that follows what is released. */
  lemma {:induction false} BufferNotInside(rules: Rules, released: string, b: string, text: string, i: nat, j: nat, w: nat)
    requires NoInner(rules, text, i, j, w) && released + b <= text && !(i < |released| < j) && Unforced(rules, b)
    ensures !(i < |released| + |Take(rules, b).raw| < j)
  {
    PrefixLength(text, released, b);
    PartNotInside(rules, text, |released|, |released| + |b|, b, i, j, w);
  }

  lemma {:induction false} CharactersAround(text: string, from: nat, n: nat, r: nat)
    requires from <= n <= |text| && 0 < r <= n - from
    ensures text[from..n][r - 1] == text[from + r - 1] && (r < n - from ==> text[from..n][r] == text[from + r])
  {
  }

  ghost predicate NeverForced(rules: Rules, chunks: seq<string>) {
    forall k: nat :: k < |chunks| && !Feeds(rules, chunks[..k]).blocked ==> Unforced(rules, BufferAt(rules, chunks, k))
  }

  lemma {:induction false} PrefixLength(text: string, released: string, buffer: string)
    requires released + buffer <= text
    ensures buffer == text[|released|..|released| + |buffer|] && released == text[..|released|]
  {
    var all := released + buffer;
    assert all == text[..|all|];
    assert all[|released|..] == buffer && all[..|released|] == released;
    assert text[..|all|][|released|..] == text[|released|..|all|];
  }

  /** What is released is a beginning of the text that ends inside no identifier, and until a feed blocks
      the buffer is the rest of the text so far. */
  ghost predicate Kept(released: string, buffer: string, blocked: bool, sofar: string, text: string, i: nat, j: nat) {
    released <= text && !(i < |released| < j) && (!blocked ==> released + buffer == sofar)
  }

  ghost predicate KeptSo(rules: Rules, chunks: seq<string>, text: string, i: nat, j: nat) {
    var p := Feeds(rules, chunks);
    Kept(Joined(p.raws), p.buffer, p.blocked, Joined(chunks), text, i, j)
  }

  /** One feed on values. */
  lemma {:induction false} KeptOn(released: string, buffer: string, last: string, sofar: string, t: Piece, text: string,
                                  i: nat, j: nat)
    requires Kept(released, buffer, false, sofar, text, i, j) && sofar + last <= text
    requires t.raw <= buffer + last && (!t.blocks ==> t.raw + t.rest == buffer + last)
    requires !(i < |released| + |t.raw| < j)
    ensures Kept(released + t.raw, t.rest, t.blocks, sofar + last, text, i, j)
  {
    BufferMore(released, buffer, last);
    var b := buffer + last;
    assert b == t.raw + b[|t.raw|..];
    assert released + b == released + t.raw + b[|t.raw|..];
  }

  lemma {:induction false} BufferMore(released: string, buffer: string, last: string)
    ensures released + buffer + last == released + (buffer + last)
  {
  }

  lemma {:induction false} FeedKeepsSo(rules: Rules, chunks: seq<string>, last: string, text: string, i: nat, j: nat, w: nat)
    requires NoInner(rules, text, i, j, w) && Joined(chunks) + last <= text && KeptSo(rules, chunks, text, i, j)
    requires !Feeds(rules, chunks).blocked ==> Unforced(rules, Feeds(rules, chunks).buffer + last)
    ensures KeptSo(rules, chunks + [last], text, i, j)
  {
    var p := Feeds(rules, chunks);
    FeedsMore(rules, chunks, last);
    JoinedAppend(chunks, last);
    if p.blocked {
      JoinedAppend(p.raws, "");
      BlockedKept(Joined(p.raws), p.buffer, Joined(chunks), last, text, i, j);
    } else {
      var t := Take(rules, p.buffer + last);
      JoinedAppend(p.raws, t.raw);
      BufferMore(Joined(p.raws), p.buffer, last);
      BufferNotInside(rules, Joined(p.raws), p.buffer + last, text, i, j, w);
      TakeJoins(rules, p.buffer + last);
      TakeBegins(rules, p.buffer + last);
      KeptOn(Joined(p.raws), p.buffer, last, Joined(chunks), t, text, i, j);
    }
  }

  lemma {:induction false} BlockedKept(released: string, buffer: string, sofar: string, last: string, text: string,
                                       i: nat, j: nat)
    requires Kept(released, buffer, true, sofar, text, i, j)
    ensures Kept(released + "", buffer, true, sofar + last, text, i, j)
  {
    assert released + "" == released;
  }

  lemma {:induction false} TakeBegins(rules: Rules, b: string)
    requires Unforced(rules, b)
    ensures Take(rules, b).raw <= b
  {
    ReleaseEnds(rules, b);
  }

  lemma {:induction false} FeedsMore(rules: Rules, chunks: seq<string>, last: string)
    ensures var p, p' := Feeds(rules, chunks), Feeds(rules, chunks + [last]);
            if p.blocked then p' == p.(raws := p.raws + [""])
            else
              var t := Take(rules, p.buffer + last);
              p' == Progress(t.rest, t.blocks, p.raws + [t.raw])
  {
    assert (chunks + [last])[..|chunks|] == chunks;
  }

  lemma {:induction false} TakeJoins(rules: Rules, b: string)
    ensures var t := Take(rules, b); !t.blocks ==> t.raw + t.rest == b
  {
  }

  lemma {:induction false} NextKept(rules: Rules, chunks: seq<string>, k: nat, text: string, i: nat, j: nat, w: nat)
    requires NoInner(rules, text, i, j, w) && k < |chunks| && Joined(chunks[..k]) + chunks[k] <= text
    requires !Feeds(rules, chunks[..k]).blocked ==> Unforced(rules, Feeds(rules, chunks[..k]).buffer + chunks[k])
    requires KeptSo(rules, chunks[..k], text, i, j)
    ensures KeptSo(rules, chunks[..k + 1], text, i, j)
  {
    FeedKeepsSo(rules, chunks[..k], chunks[k], text, i, j, w);
    assert chunks[..k] + [chunks[k]] == chunks[..k + 1];
  }

  lemma {:induction false} FeedsKeepSo(rules: Rules, chunks: seq<string>, k: nat, i: nat, j: nat, w: nat)
    requires NoInner(rules, Joined(chunks), i, j, w) && k <= |chunks| && NeverForced(rules, chunks)
    ensures KeptSo(rules, chunks[..k], Joined(chunks), i, j)
  {
    if k > 0 {
      FeedsKeepSo(rules, chunks, k - 1, i, j, w);
      JoinedMore(chunks, k - 1);
      UnforcedAt(rules, chunks, k - 1);
      NextKept(rules, chunks, k - 1, Joined(chunks), i, j, w);
    } else {
      assert chunks[..0] == [];
      NothingKept(rules, Joined(chunks), i, j);
    }
  }

  lemma {:induction false} UnforcedAt(rules: Rules, chunks: seq<string>, k: nat)
    requires NeverForced(rules, chunks) && k < |chunks|
    ensures !Feeds(rules, chunks[..k]).blocked ==> Unforced(rules, Feeds(rules, chunks[..k]).buffer + chunks[k])
  {
    assert !Feeds(rules, chunks[..k]).blocked ==> Unforced(rules, BufferAt(rules, chunks, k));
  }

  lemma {:induction false} NothingKept(rules: Rules, text: string, i: nat, j: nat)
    ensures KeptSo(rules, [], text, i, j)
  {
  }

  lemma {:induction false} JoinedPrefix(chunks: seq<string>, k: nat)
    requires k <= |chunks|
    ensures Joined(chunks[..k]) <= Joined(chunks)
    decreases |chunks|
  {
    if k < |chunks| {
      JoinedPrefix(chunks[..|chunks| - 1], k);
      assert chunks[..|chunks| - 1][..k] == chunks[..k];
    } else {
      assert chunks[..k] == chunks;
    }
  }

  lemma {:induction false} NeverSplitsUnforced(rules: Rules, chunks: seq<string>, i: nat, j: nat, w: nat)
    requires NoInner(rules, Joined(chunks), i, j, w) && NeverForced(rules, chunks)
    ensures !Splits(rules, chunks, i, j)
  {
    forall k: nat | k <= |chunks| ensures !(i < Boundary(rules, chunks, k) < j) {
      FeedsKeepSo(rules, chunks, k, i, j, w);
    }
  }

  /** While the buffer never outgrows the tail, no boundary lies inside an identifier that has no listed word
      inside it which goes on behind its end. */
  lemma {:induction false} NeverSplits(rules: Rules, chunks: seq<string>, i: nat, j: nat)
    requires Usable(rules) && Listed(rules) && Fits(rules, chunks)
    requires Identifier(rules.watched, Joined(chunks), i, j) && !InnerWord(rules.words, Joined(chunks), i, j)
    ensures !Splits(rules, chunks, i, j)
  {
    var w: nat :| IdentifierBy(rules.watched, Joined(chunks), i, j, w);
    NeverSplitsUnforced(rules, chunks, i, j, w);
  }

  // ---- Texts in which no feed is cut by length ----

  predicate RunSeparator(c: char) { Separates(c) || c == '_' || c == ':' || c == '-' }

  /** A listed word, or one with a separator and letters, digits or `._:/-` behind it. */
  ghost predicate RunBy(words: seq<string>, text: string, a: nat, b: nat, w: nat) {
    && w < |words| && a + |words[w]| <= b <= |text| && StartsLike(text, a, words[w])
    && (b == a + |words[w]|
        || (RunSeparator(text[a + |words[w]|]) && forall k :: a + |words[w]| < k < b ==> IdentifierPart(text[k])))
  }

  /** All the runs are shorter than the tail. */
  ghost predicate Short(rules: Rules, text: string) {
    forall a: nat, b: nat, w: nat :: RunBy(rules.words, text, a, b, w) ==> b - a < rules.tail
  }

  lemma {:induction false} HeldAtMost(watched: seq<string>, b: string, n: nat)
    requires 1 <= n
    ensures HeldLength(watched, b, n) <= 8
    decreases 9 - n
  {
    if n <= 8 && n <= |b| && !WordBegins(watched, b, n) { HeldAtMost(watched, b, n + 1); }
  }

  lemma {:induction false} TokensAreParts(text: string, from: nat, n: nat, i: nat, m: nat)
    requires from <= i && from <= m <= n <= |text| && AllToken(text[from..n], i - from, m - from)
    ensures forall k :: i <= k < m ==> IdentifierPart(text[k])
  {
    forall k | i <= k < m ensures IdentifierPart(text[k]) {
      PartIsToken(text[k]);
      assert text[from..n][k - from] == text[k];
    }
  }

  /** What follows a listed word up to the end of the buffer makes a run with it, but for a newline at the
      end. */
  lemma {:induction false} RestIsRun(rules: Rules, text: string, from: nat, n: nat, v: nat)
    requires from < n <= |text| && v < |rules.words| && StartsLike(text, from, rules.words[v])
    requires from + |rules.words[v]| < n && SuffixRest(text[from..n], |rules.words[v]|)
    ensures RunBy(rules.words, text, from, n, v) || RunBy(rules.words, text, from, n - 1, v)
  {
    var b, e := text[from..n], from + |rules.words[v]|;
    assert b[e - from] == text[e];
    if AllToken(b, e + 1 - from, |b|) {
      TokensAreParts(text, from, n, e + 1, n);
    } else if e + 1 < n {
      TokensAreParts(text, from, n, e + 1, n - 1);
    }
  }

  /** A suffix match from the beginning of the buffer is no longer than the tail. */
  lemma {:induction false} SuffixIsRun(rules: Rules, text: string, from: nat, n: nat)
    requires from < n <= |text| && SuffixAt(rules.words, text[from..n], 0) && Short(rules, text)
    ensures n - from <= rules.tail
  {
    var b := text[from..n];
    var v: nat :| v < |rules.words| && StartsLike(b, 0, rules.words[v]) && SuffixRest(b, |rules.words[v]|);
    LikeInBuffer(text, from, n, from, rules.words[v]);
    if from + |rules.words[v]| == n {
      assert RunBy(rules.words, text, from, n, v);
    } else {
      RestIsRun(rules, text, from, n, v);
    }
  }

  lemma {:induction false} ShortUnforced(rules: Rules, text: string, from: nat, n: nat)
    requires from <= n <= |text| && Short(rules, text) && rules.tail >= 8
    ensures Unforced(rules, text[from..n])
  {
    var b := text[from..n];
    if CutAt(rules, b) == 0 && from < n {
      if SuffixStart(rules.words, b, 0) < |b| {
        SuffixIsRun(rules, text, from, n);
      } else {
        HeldAtMost(rules.watched, b, 1);
      }
    }
  }

  /** Until a feed blocks, what is released and what is left make up the text so far. */
  lemma {:induction false} FeedsJoin(rules: Rules, chunks: seq<string>)
    ensures var p := Feeds(rules, chunks); !p.blocked ==> Joined(p.raws) + p.buffer == Joined(chunks)
  {
    if chunks != [] {
      var before, last := chunks[..|chunks| - 1], chunks[|chunks| - 1];
      assert before + [last] == chunks;
      FeedsJoin(rules, before);
      FeedsMore(rules, before, last);
      JoinedAppend(before, last);
      var p := Feeds(rules, before);
      if !p.blocked {
        var t := Take(rules, p.buffer + last);
        TakeJoins(rules, p.buffer + last);
        JoinedAppend(p.raws, t.raw);
        JoinsOn(Joined(p.raws), p.buffer, last, t);
      }
    }
  }

  lemma {:induction false} JoinsOn(released: string, buffer: string, last: string, t: Piece)
    requires !t.blocks ==> t.raw + t.rest == buffer + last
    ensures !t.blocks ==> released + t.raw + t.rest == released + buffer + last
  {
    if !t.blocks { assert released + t.raw + t.rest == released + (t.raw + t.rest); }
  }

  lemma {:induction false} JoinedMore(chunks: seq<string>, k: nat)
    requires k < |chunks|
    ensures Joined(chunks[..k]) + chunks[k] <= Joined(chunks)
  {
    JoinedPrefix(chunks, k + 1);
    JoinedAppend(chunks[..k], chunks[k]);
    assert chunks[..k] + [chunks[k]] == chunks[..k + 1];
  }

  lemma {:induction false} BufferSlice(released: string, buffer: string, last: string, text: string)
    requires released + buffer + last <= text
    ensures |released| + |buffer + last| <= |text|
    ensures buffer + last == text[|released|..|released| + |buffer + last|]
  {
    BufferMore(released, buffer, last);
    PrefixLength(text, released, buffer + last);
  }

  /** The buffer of a feed is a part of the text. */
  lemma {:induction false} BufferIsPart(rules: Rules, chunks: seq<string>, k: nat) returns (from: nat, n: nat)
    requires k < |chunks| && !Feeds(rules, chunks[..k]).blocked
    ensures from <= n <= |Joined(chunks)| && BufferAt(rules, chunks, k) == Joined(chunks)[from..n]
  {
    var p := Feeds(rules, chunks[..k]);
    FeedsJoin(rules, chunks[..k]);
    JoinedMore(chunks, k);
    BufferSlice(Joined(p.raws), p.buffer, chunks[k], Joined(chunks));
    from, n := |Joined(p.raws)|, |Joined(p.raws)| + |p.buffer + chunks[k]|;
  }

  lemma {:induction false} ShortNeverForced(rules: Rules, chunks: seq<string>)
    requires Short(rules, Joined(chunks)) && rules.tail >= 8
    ensures NeverForced(rules, chunks)
  {
    forall k: nat | k < |chunks| && !Feeds(rules, chunks[..k]).blocked ensures Unforced(rules, BufferAt(rules, chunks, k)) {
      var from, n := BufferIsPart(rules, chunks, k);
      ShortUnforced(rules, Joined(chunks), from, n);
    }
  }

  // ---- An inner word splits an identifier ----

  /** What the word lists and markers need so that an inner word is indeed cut off. */
  ghost predicate OneJoint(word: string) {
    forall k, l :: 0 <= k < l < |word| ==> 'a' <= word[k] <= 'z' || 'a' <= word[l] <= 'z'
  }

  predicate Opens(marker: string, k: nat, word: string) {
    k + 1 < |marker| && |word| >= 2 && marker[k] == word[0] && marker[k + 1] == word[1]
  }

  /** No watched word begins a word of the marker. */
  ghost predicate NoWatched(marker: string, watched: seq<string>) {
    forall k: nat, v :: k < |marker| && 0 <= v < |watched| && (k == 0 || !AsciiWord(marker[k - 1])) ==>
      !Opens(marker, k, watched[v])
  }

  ghost predicate Cutting(rules: Rules) {
    && (forall w :: 0 <= w < |rules.words| ==> OneJoint(rules.words[w]))
    && (forall w :: 0 <= w < |rules.watched| ==> |rules.watched[w]| >= 2)
    && (forall m :: 0 <= m < |rules.markers| ==> NoWatched(rules.markers[m], rules.watched))
  }

  /** A character of a listed word in the text. */
  lemma {:induction false} ListedCharacter(text: string, s: nat, word: string, k: nat)
    requires ListedWord(word) && StartsLike(text, s, word) && s <= k < s + |word|
    ensures 'a' <= word[k - s] <= 'z' ==> Alphanumeric(text[k])
    ensures !('a' <= word[k - s] <= 'z') ==> text[k] == word[k - s]
    ensures text[k] != '\n' && text[k] != '-'
  {
    LikeAt(text, s, word, k - s);
  }

  /** A listed word in the text holds at most one character that is no letter. */
  lemma {:induction false} OneOutside(text: string, s: nat, word: string, k: nat, l: nat)
    requires ListedWord(word) && OneJoint(word) && StartsLike(text, s, word) && s <= k < l < s + |word|
    ensures Alphanumeric(text[k]) || Alphanumeric(text[l])
  {
    ListedCharacter(text, s, word, k);
    ListedCharacter(text, s, word, l);
  }

  /** The identifier's hyphen or underscore is no letter or digit. */
  lemma {:induction false} JointOf(watched: seq<string>, text: string, i: nat, j: nat, w: nat)
    requires IdentifierBy(watched, text, i, j, w)
    ensures var k := i + |watched[w]|; i <= k < j && !Alphanumeric(text[k]) && IdentifierPart(text[k])
  {
  }

  /** No listed word that begins at or before the identifier covers it: it would hold a second joint. */
  lemma {:induction false} NotCovered(rules: Rules, text: string, i: nat, j: nat, w: nat, s: nat, k: nat, v: nat)
    requires Listed(rules) && Cutting(rules) && IdentifierBy(rules.watched, text, i, j, w) && j < |text|
    requires v < |rules.words| && StartsLike(text, k, rules.words[v]) && k <= i < s < j && Apart(text, s)
    requires 0 < |rules.watched[w]|
    ensures k + |rules.words[v]| < j
  {
    var word, joint := rules.words[v], i + |rules.watched[w]|;
    JointOf(rules.watched, text, i, j, w);
    if k + |word| >= j {
      if k < i { OneOutside(text, k, word, i - 1, joint); }
      if s - 1 < joint { OneOutside(text, k, word, s - 1, joint); }
      if joint < s - 1 { OneOutside(text, k, word, joint, s - 1); }
      if k + |word| > j {
        OneOutside(text, k, word, joint, j);
      }
      ListedCharacter(text, k, word, s - 1);
      assert false;
    }
  }

  /** The inner word has arrived, with its separator if it needs one. */
  ghost predicate Arrives(rules: Rules, text: string, i: nat, j: nat, s: nat, v: nat, n: nat) {
    && InnerBy(rules.words, text, i, j, s, v) && j < n <= |text|
    && n == if s + |rules.words[v]| > j then s + |rules.words[v]| else j + 1
  }

  lemma {:induction false} InnerMatches(rules: Rules, text: string, i: nat, j: nat, s: nat, v: nat, n: nat)
    requires Arrives(rules, text, i, j, s, v, n)
    ensures SuffixAt(rules.words, text[0..n], s)
  {
    var b, e := text[0..n], s + |rules.words[v]|;
    ApartInBuffer(text, 0, n, s);
    LikeInBuffer(text, 0, n, s, rules.words[v]);
    if e == j {
      assert b[e] == text[j];
      assert AllToken(b, e + 1, |b|);
    }
  }

  lemma {:induction false} NoNewlineInside(rules: Rules, text: string, i: nat, j: nat, w: nat, s: nat, v: nat, n: nat, k: nat)
    requires Listed(rules) && Arrives(rules, text, i, j, s, v, n) && IdentifierBy(rules.watched, text, i, j, w)
    requires LetterWord(rules.watched[w]) && i <= k < n
    ensures text[k] != '\n'
  {
    if k < j {
      AllParts(rules.watched, text, i, j, w, k);
    } else if s + |rules.words[v]| > j {
      ListedCharacter(text, s, rules.words[v], k);
    }
  }

  /** Nothing is matched at or before the identifier. */
  lemma {:induction false} NoEarlierSuffix(rules: Rules, text: string, i: nat, j: nat, w: nat, s: nat, v: nat, n: nat, k: nat)
    requires Listed(rules) && Cutting(rules) && Arrives(rules, text, i, j, s, v, n) && k <= i
    requires IdentifierBy(rules.watched, text, i, j, w) && LetterWord(rules.watched[w])
    ensures !SuffixAt(rules.words, text[0..n], k)
  {
    var b := text[0..n];
    if SuffixAt(rules.words, b, k) {
      var u: nat :| u < |rules.words| && StartsLike(b, k, rules.words[u]) && SuffixRest(b, k + |rules.words[u]|);
      LikeInBuffer(text, 0, n, k, rules.words[u]);
      NotCovered(rules, text, i, j, w, s, k, u);
      RestInside(text, 0, n, k + |rules.words[u]|, j);
      NoNewlineInside(rules, text, i, j, w, s, v, n, j);
      assert false;
    }
  }

  lemma {:induction false} CutInside(rules: Rules, text: string, i: nat, j: nat, w: nat, s: nat, v: nat, n: nat)
    requires Listed(rules) && Cutting(rules) && Arrives(rules, text, i, j, s, v, n)
    requires IdentifierBy(rules.watched, text, i, j, w) && LetterWord(rules.watched[w])
    ensures i < CutAt(rules, text[0..n]) < j
  {
    var b := text[0..n];
    InnerMatches(rules, text, i, j, s, v, n);
    SuffixLeftmost(rules.words, b, 0, s);
    var first := SuffixStart(rules.words, b, 0);
    if first <= i { NoEarlierSuffix(rules, text, i, j, w, s, v, n, first); }
  }

  // ---- The line of an identifier is not held back ----

  predicate Visible(c: char) { !Blank(c) && c != '#' && c != '*' && c != '_' }

  lemma {:induction false} BlankEndBefore(s: string, a: nat, i: nat)
    requires a <= i < |s| && !Blank(s[i])
    ensures BlankEnd(s, a) <= i
    decreases i - a
  {
    if a < i && Blank(s[a]) { BlankEndBefore(s, a + 1, i); }
  }

  lemma {:induction false} HashEndBefore(s: string, a: nat, i: nat, most: nat)
    requires a <= i < |s| && s[i] != '#'
    ensures HashEnd(s, a, most) <= i
    decreases most
  {
    if most > 0 && a < i && s[a] == '#' { HashEndBefore(s, a + 1, i, most - 1); }
  }

  lemma {:induction false} CandidateBefore(s: string, line: nat, i: nat)
    requires line <= i < |s| && Visible(s[i])
    ensures Candidate(s, line) <= i
  {
    BlankEndBefore(s, line, i);
    var a := BlankEnd(s, line);
    if a < |s| && s[a] == '#' {
      HashEndBefore(s, a, i, 6);
      BlankEndBefore(s, HashEnd(s, a, 6), i);
    }
  }

  lemma {:induction false} NotMarkerPrefix(rules: Rules, b: string, c: nat, i: nat, w: nat)
    requires Cutting(rules) && c <= i && w < |rules.watched| && i + 1 < |b|
    requires FoldsTo(b, i, rules.watched[w], 2) && (i == 0 || !AsciiWord(Fold(b[i - 1])))
    ensures !MarkerPrefix(rules.markers, b, c)
  {
    forall m | 0 <= m < |rules.markers| && |b| - c <= |rules.markers[m]|
      ensures !FoldsTo(b, c, rules.markers[m], |b| - c)
    {
      var marker := rules.markers[m];
      if FoldsTo(b, c, marker, |b| - c) {
        FoldsAt(b, c, marker, |b| - c, i - c);
        FoldsAt(b, c, marker, |b| - c, i - c + 1);
        FoldsAt(b, i, rules.watched[w], 2, 0);
        FoldsAt(b, i, rules.watched[w], 2, 1);
        if c < i { FoldsAt(b, c, marker, |b| - c, i - c - 1); }
        assert NoWatched(marker, rules.watched);
        assert Opens(marker, i - c, rules.watched[w]);
        assert false;
      }
    }
  }

  lemma {:induction false} NotHeld(rules: Rules, text: string, i: nat, j: nat, w: nat, s: nat, v: nat, n: nat)
    requires Listed(rules) && Cutting(rules) && Arrives(rules, text, i, j, s, v, n)
    requires IdentifierBy(rules.watched, text, i, j, w) && LetterWord(rules.watched[w])
    ensures var b := text[0..n]; LineStart(b) <= i && !MayBecomeMarker(rules.markers, b, LineStart(b))
  {
    var b, word := text[0..n], rules.watched[w];
    var line := LineStart(b);
    if line > i { NoNewlineInside(rules, text, i, j, w, s, v, n, line - 1); }
    FoldedLetter(text, i, word, |word|, 0);
    assert b[i] == text[i];
    CandidateBefore(b, line, i);
    FoldsAt(text, i, word, |word|, 0);
    FoldsAt(text, i, word, |word|, 1);
    assert b[i + 1] == text[i + 1];
    assert FoldsTo(b, i, word, 2);
    if i > 0 { NotAsciiFolded(text[i - 1]); }
    NotMarkerPrefix(rules, b, Candidate(b, line), i, w);
  }

  lemma {:induction false} PrefixSearch(markers: seq<string>, text: string, n: nat)
    requires UsableMarkers(markers) && SearchFrom(markers, text, 0).None? && n <= |text|
    ensures SearchFrom(markers, text[..n], 0).None?
  {
    SearchLeftmost(markers, text, 0);
    SearchLeftmost(markers, text[..n], 0);
    var found := SearchFrom(markers, text[..n], 0);
    if found.Some? {
      LineMatchesGrows(markers, text, n, found.value);
      assert MarkerLineAt(markers, text, found.value);
    }
  }

  /** The text up to its inner word is cut inside the identifier. */
  lemma {:induction false} InnerTaken(rules: Rules, text: string, i: nat, j: nat, w: nat, s: nat, v: nat, n: nat)
    requires Usable(rules) && Listed(rules) && Cutting(rules) && SearchFrom(rules.markers, text, 0).None?
    requires Arrives(rules, text, i, j, s, v, n) && IdentifierBy(rules.watched, text, i, j, w)
    ensures i < |Take(rules, text[..n]).raw| < j
  {
    assert text[..n] == text[0..n];
    PrefixSearch(rules.markers, text, n);
    CutInside(rules, text, i, j, w, s, v, n);
    NotHeld(rules, text, i, j, w, s, v, n);
  }

  lemma {:induction false} CutSplits(rules: Rules, text: string, i: nat, j: nat, n: nat) returns (chunks: seq<string>)
    requires n <= |text| && i < |Take(rules, text[..n]).raw| < j
    ensures Joined(chunks) == text && Splits(rules, chunks, i, j)
  {
    chunks := [text[..n]] + [text[n..]];
    JoinedTwo(text[..n], text[n..]);
    assert text[..n] + text[n..] == text;
    FeedsOne(rules, text[..n]);
    assert chunks[..1] == [text[..n]];
    assert i < Boundary(rules, chunks, 1) < j;
  }

  /** Two deltas, the first ending behind the inner word. */
  lemma {:induction false} InnerSplits(rules: Rules, text: string, i: nat, j: nat) returns (chunks: seq<string>)
    requires Usable(rules) && Listed(rules) && Cutting(rules) && SearchFrom(rules.markers, text, 0).None?
    requires Identifier(rules.watched, text, i, j) && InnerWord(rules.words, text, i, j)
    ensures Joined(chunks) == text && Splits(rules, chunks, i, j)
  {
    var w: nat :| IdentifierBy(rules.watched, text, i, j, w);
    var s: nat, v: nat :| InnerBy(rules.words, text, i, j, s, v);
    var n: nat := if s + |rules.words[v]| > j then s + |rules.words[v]| else j + 1;
    InnerTaken(rules, text, i, j, w, s, v, n);
    chunks := CutSplits(rules, text, i, j, n);
  }

  /** The exact condition: in a text without marker lines and without runs as long as the tail, every chunking
      keeps the identifier in one piece if and only if no listed word begins inside it and goes on behind its
      end. */
  lemma {:induction false} KeptWholeExactly(rules: Rules, text: string, i: nat, j: nat)
    requires Usable(rules) && Listed(rules) && Cutting(rules) && rules.tail >= 8
    requires SearchFrom(rules.markers, text, 0).None? && Short(rules, text) && Identifier(rules.watched, text, i, j)
    ensures !InnerWord(rules.words, text, i, j) <==>
              forall chunks :: Joined(chunks) == text ==> !Splits(rules, chunks, i, j)
  {
    if InnerWord(rules.words, text, i, j) {
      var chunks := InnerSplits(rules, text, i, j);
    } else {
      var w: nat :| IdentifierBy(rules.watched, text, i, j, w);
      forall chunks | Joined(chunks) == text ensures !Splits(rules, chunks, i, j) {
        ShortNeverForced(rules, chunks);
        NeverSplitsUnforced(rules, chunks, i, j, w);
      }
    }
  }

  // ---- The source's own lists ----

  lemma {:induction false} WordsListed()
    ensures forall w :: 0 <= w < |SUFFIX_WORDS| ==> ListedWord(SUFFIX_WORDS[w])
    ensures forall w :: 0 <= w < |WATCHED| ==> 2 <= |WATCHED[w]| <= 9
  {
  }

  lemma {:induction false} WatchedListed()
    ensures forall w :: 0 <= w < |WATCHED| ==> WATCHED[w] in SUFFIX_WORDS
  {
    assert SUFFIX_WORDS[0] == WATCHED[0] && SUFFIX_WORDS[4] == WATCHED[1] && SUFFIX_WORDS[8] == WATCHED[2];
    assert SUFFIX_WORDS[9] == WATCHED[3] && SUFFIX_WORDS[10] == WATCHED[4] && SUFFIX_WORDS[11] == WATCHED[5];
  }

  lemma {:induction false} WordsOneJoint()
    ensures forall w :: 0 <= w < |SUFFIX_WORDS| ==> OneJoint(SUFFIX_WORDS[w])
  {
  }

  lemma {:induction false} HeadingNoWatched(marker: string)
    requires forall k :: 0 <= k < |marker| ==> marker[k] > 'z'
    ensures NoWatched(marker, WATCHED)
  {
    forall v | 0 <= v < |WATCHED| ensures WATCHED[v][0] <= 'z' { }
  }

  lemma {:induction false} TagNoWatched(marker: string)
    requires |marker| > 2 && marker[0] == '[' && marker[|marker| - 1] == ']'
    requires forall k :: 0 < k < |marker| - 1 ==> AsciiWord(marker[k])
    requires forall v :: 0 <= v < |WATCHED| ==> !Opens(marker, 1, WATCHED[v])
    ensures NoWatched(marker, WATCHED)
  {
    forall v | 0 <= v < |WATCHED| ensures WATCHED[v][0] != '[' && WATCHED[v][0] != ']' { }
  }

  lemma {:induction false} HeadingMarkers()
    ensures forall m :: 0 <= m < 3 ==> forall k :: 0 <= k < |MARKERS[m]| ==> MARKERS[m][k] > 'z'
  {
  }

  predicate TagShape(marker: string) {
    && |marker| > 2 && marker[0] == '[' && marker[|marker| - 1] == ']' && marker[1] in "uedp"
    && (marker[1] == 'd' ==> marker[2] == 'e') && forall k :: 0 < k < |marker| - 1 ==> AsciiWord(marker[k])
  }

  lemma {:induction false} UserTags()
    ensures TagShape(MARKERS[3]) && TagShape(MARKERS[4])
  {
  }

  lemma {:induction false} EpisodicTag()
    ensures TagShape(MARKERS[5])
  {
  }

  lemma {:induction false} MemoryTags()
    ensures TagShape(MARKERS[6]) && TagShape(MARKERS[7])
  {
  }

  lemma {:induction false} MarkersNoWatched(m: nat)
    requires m < |MARKERS|
    ensures NoWatched(MARKERS[m], WATCHED)
  {
    if m < 3 {
      HeadingMarkers();
      HeadingNoWatched(MARKERS[m]);
    } else {
      UserTags();
      EpisodicTag();
      MemoryTags();
      assert TagShape(MARKERS[m]);
      TagOpensNone(MARKERS[m]);
      TagNoWatched(MARKERS[m]);
    }
  }

  lemma {:induction false} TagOpensNone(marker: string)
    requires TagShape(marker)
    ensures forall v :: 0 <= v < |WATCHED| ==> !Opens(marker, 1, WATCHED[v])
  {
  }

  lemma {:induction false} SourceCutting(tail: nat)
    requires tail > 0
    ensures var rules := Rules(MARKERS, SUFFIX_WORDS, WATCHED, tail); Usable(rules) && Listed(rules) && Cutting(rules)
  {
    SourceRulesUsable(tail);
    WordsListed();
    WatchedListed();
    WordsOneJoint();
    forall m | 0 <= m < |MARKERS| ensures NoWatched(MARKERS[m], WATCHED) { MarkersNoWatched(m); }
  }

  /** For the source's own lists. */
  lemma {:induction false} SourceKeptWholeExactly(tail: nat, text: string, i: nat, j: nat)
    requires tail >= 32 && SearchFrom(MARKERS, text, 0).None?
    requires Short(Rules(MARKERS, SUFFIX_WORDS, WATCHED, tail), text) && Identifier(WATCHED, text, i, j)
    ensures !InnerWord(SUFFIX_WORDS, text, i, j) <==>
              forall chunks :: Joined(chunks) == text ==>
                !Splits(Rules(MARKERS, SUFFIX_WORDS, WATCHED, tail), chunks, i, j)
  {
    SourceCutting(tail);
    KeptWholeExactly(Rules(MARKERS, SUFFIX_WORDS, WATCHED, tail), text, i, j);
  }

  // ---- An identifier that is split ----

  const SPLIT_TEXT := "code-a.chunk id"

  lemma {:induction false} SplitIdentifier()
    ensures IdentifierBy(WATCHED, SPLIT_TEXT, 0, 12, 2)
  {
    assert FoldsTo(SPLIT_TEXT, 0, "code", 4);
  }

  lemma {:induction false} SplitInner()
    ensures InnerBy(SUFFIX_WORDS, SPLIT_TEXT, 0, 12, 7, 0)
  {
    assert StartsLike(SPLIT_TEXT, 7, "chunk");
  }

  lemma {:induction false} NoMarkerWithoutBracket(markers: seq<string>, text: string)
    requires forall m :: 0 <= m < |markers| ==> |markers[m]| > 0 && (markers[m][0] == '[' || markers[m][0] > '\U{2000}')
    requires forall k :: 0 <= k < |text| ==> text[k] != '[' && text[k] < '\U{100}'
    ensures SearchFrom(markers, text, 0).None?
  {
    SearchLeftmost(markers, text, 0);
    forall k, m | 0 <= k <= |text| && 0 <= m < |markers| ensures !StartsLike(text, k, markers[m]) {
      LikeAt(text, k, markers[m], 0);
    }
  }

  lemma {:induction false} MarkerBeginnings()
    ensures forall m :: 0 <= m < |MARKERS| ==> |MARKERS[m]| > 0 && (MARKERS[m][0] == '[' || MARKERS[m][0] > '\U{2000}')
  {
  }

  /** The identifier "code-a.chunk" is cut in two when "chunk id" comes to stand at the end of a buffer. */
  lemma {:induction false} SplitsIdentifier(tail: nat) returns (chunks: seq<string>)
    requires tail >= 32
    ensures Identifier(WATCHED, SPLIT_TEXT, 0, 12) && SearchFrom(MARKERS, SPLIT_TEXT, 0).None?
    ensures Joined(chunks) == SPLIT_TEXT && Splits(Rules(MARKERS, SUFFIX_WORDS, WATCHED, tail), chunks, 0, 12)
  {
    SplitIdentifier();
    SplitInner();
    MarkerBeginnings();
    NoMarkerWithoutBracket(MARKERS, SPLIT_TEXT);
    SourceCutting(tail);
    chunks := InnerSplits(Rules(MARKERS, SUFFIX_WORDS, WATCHED, tail), SPLIT_TEXT, 0, 12);
  }

  // ---- References under way ----

  /** From `i` to the end of the buffer: a listed word, or one with a separator and letters, digits or `._:/-`
      behind it. */
  ghost predicate UnderWay(rules: Rules, b: string, i: nat, w: nat) {
    Apart(b, i) && RunBy(rules.words, b, i, |b|, w)
  }

  lemma {:induction false} UnderWayMatches(rules: Rules, b: string, i: nat, w: nat)
    requires UnderWay(rules, b, i, w)
    ensures SuffixAt(rules.words, b, i)
  {
    var e := i + |rules.words[w]|;
    if i > 0 { PartIsToken(b[i - 1]); }
    if e < |b| {
      assert b[0..|b|] == b;
      TokensInBuffer(b, 0, |b|, e + 1, |b|);
    }
  }

  lemma {:induction false} UnderWayLine(rules: Rules, b: string, i: nat, w: nat, k: nat)
    requires Listed(rules) && UnderWay(rules, b, i, w) && i <= k < |b|
    ensures b[k] != '\n'
  {
    if k < i + |rules.words[w]| { ListedCharacter(b, i, rules.words[w], k); }
  }

  lemma {:induction false} UnderWayLineStart(rules: Rules, b: string, i: nat, w: nat)
    requires Listed(rules) && UnderWay(rules, b, i, w)
    ensures LineStart(b) <= i
  {
    var line := LineStart(b);
    if line > i { UnderWayLine(rules, b, i, w, line - 1); }
  }

  lemma {:induction false} TakeAtMost(rules: Rules, b: string, k: nat)
    requires SearchFrom(rules.markers, b, 0).None? && LineStart(b) <= k && CutAt(rules, b) <= k && |b| <= rules.tail
    ensures |Take(rules, b).raw| <= k
  {
    CutEnds(rules, b);
  }

  /** A reference that is under way at the end of a buffer is not begun to be handed over, unless the buffer
      has outgrown the tail. */
  lemma {:induction false} UnderWayHeld(rules: Rules, b: string, i: nat, w: nat)
    requires Listed(rules) && UnderWay(rules, b, i, w) && |b| <= rules.tail
    requires SearchFrom(rules.markers, b, 0).None?
    ensures |Take(rules, b).raw| <= i
  {
    UnderWayMatches(rules, b, i, w);
    UnderWayBefore(rules, b, i, w);
    CutAtMost(rules, b, i);
    UnderWayLineStart(rules, b, i, w);
    TakeAtMost(rules, b, i);
  }

  lemma {:induction false} UnderWayBefore(rules: Rules, b: string, i: nat, w: nat)
    requires Listed(rules) && UnderWay(rules, b, i, w)
    ensures i < |b|
  {
  }
}
