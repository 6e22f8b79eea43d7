/** Small types and text helpers shared by the models. */
module Common {

  datatype Option<+T> = None | Some(value: T)

  datatype Result<+T, +E> = Ok(value: T) | Err(error: E)

  lemma {:induction false} SubsetSize<T>(a: set<T>, b: set<T>)
    requires a <= b
    ensures |a| <= |b|
  {
    assert b == a + (b - a);
  }

  /** One element less is left to go through. */
  lemma {:induction false} OneLessLeft<T>(all: set<T>, left: set<T>, x: T)
    requires x in left
    ensures |all - (left - {x})| == |all - left| + if x in all then 1 else 0
  {
    if x in all {
      assert all - (left - {x}) == (all - left) + {x};
    } else {
      assert all - (left - {x}) == all - left;
    }
  }

  /** The characters for which Python's `str.isspace` holds. */
  predicate IsSpace(c: char) {
    || '\t' <= c <= '\r'
    || '\U{1c}' <= c <= ' '
    || c == '\U{85}' || c == '\U{a0}' || c == '\U{1680}'
    || '\U{2000}' <= c <= '\U{200a}'
    || c == '\U{2028}' || c == '\U{2029}' || c == '\U{202f}' || c == '\U{205f}' || c == '\U{3000}'
  }

  /** The first place at or after `i` that is not white space. */
  function TextStart(s: string, i: nat): (r: nat)
    requires i <= |s|
    ensures i <= r <= |s|
    decreases |s| - i
  {
    if i < |s| && IsSpace(s[i]) then TextStart(s, i + 1) else i
  }

  /** The end of `s[i..j]` without its trailing white space. */
  function TextEnd(s: string, i: nat, j: nat): (r: nat)
    requires i <= j <= |s|
    ensures i <= r <= j
  {
    if i < j && IsSpace(s[j - 1]) then TextEnd(s, i, j - 1) else j
  }

  /** `str.rstrip()`. */
  function RStrip(s: string): (r: string)
    ensures r <= s
  {
    s[..TextEnd(s, 0, |s|)]
  }

  /** `str.strip()`. */
  function Strip(s: string): string {
    s[TextStart(s, 0)..TextEnd(s, TextStart(s, 0), |s|)]
  }

  /** Byte order on text (SQLite's BINARY collation; equal to code-point order on ASCII). */
  predicate TextLess(a: string, b: string) {
    && b != []
    && (a == [] || a[0] < b[0] || (a[0] == b[0] && TextLess(a[1..], b[1..])))
  }

  lemma {:induction false} TextLessTotal(a: string, b: string)
    ensures TextLess(a, b) || a == b || TextLess(b, a)
    ensures !(TextLess(a, b) && TextLess(b, a))
    ensures !TextLess(a, a)
  {
    if a != [] {
      TextLessTotal(a[1..], a[1..]);
      if b != [] {
        TextLessTotal(a[1..], b[1..]);
        assert a == [a[0]] + a[1..] && b == [b[0]] + b[1..];
      }
    }
  }

  lemma {:induction false} TextLessTransitive(a: string, b: string, c: string)
    requires TextLess(a, b) && TextLess(b, c)
    ensures TextLess(a, c)
  {
    if a != [] && a[0] == b[0] == c[0] {
      TextLessTransitive(a[1..], b[1..], c[1..]);
    }
  }
}
