/**
 The key of the metric result cache (knowledge/agent_runtime/metric_mcp.py, `_key` and `_normalize`):
 compact JSON text of user, conversation, tool and the arguments without white space.

 `Write(j, rest)` is the JSON text of `j` followed by `rest`.
 */
module ResultKey {
  import opened Common

  /** A parsed JSON value; the fields of an object stand in key order, as `sort_keys` writes them,
      and a number is the text that Python writes for it. */
  datatype Json = Null | Bool(b: bool) | Number(text: string) | Text(s: string) | List(items: Items) | Dict(fields: Fields)

  datatype Items = End | Item(head: Json, tail: Items)

  datatype Fields = NoField | Field(name: string, value: Json, others: Fields)

  // ---- _normalize ----

  /** `"".join(value.split())`. */
  function NoSpaces(s: string): (r: string)
    ensures forall i :: 0 <= i < |r| ==> !IsSpace(r[i])
  {
    if s == [] then [] else (if IsSpace(s[0]) then [] else [s[0]]) + NoSpaces(s[1..])
  }

  function Normalize(j: Json): Json {
    match j
    case Text(s) => Text(NoSpaces(s))
    case List(items) => List(NormalizeItems(items))
    case Dict(fields) => Dict(NormalizeFields(fields))
    case _ => j
  }

  function NormalizeItems(items: Items): Items {
    match items
    case End => End
    case Item(head, tail) => Item(Normalize(head), NormalizeItems(tail))
  }

  function NormalizeFields(fields: Fields): Fields {
    match fields
    case NoField => NoField
    case Field(name, value, others) => Field(name, Normalize(value), NormalizeFields(others))
  }

  // ---- json.dumps(..., ensure_ascii=False, separators=(",", ":")) ----

  function Hex(d: nat): char
    requires d < 16
  {
    if d < 10 then '0' + d as char else 'a' + (d - 10) as char
  }

  function WriteChar(c: char, rest: string): string {
    if c == '"' || c == '\\' then ['\\'] + ([c] + rest)
    else if c == '\U{8}' then ['\\'] + (['b'] + rest)
    else if c == '\U{c}' then ['\\'] + (['f'] + rest)
    else if c == '\n' then ['\\'] + (['n'] + rest)
    else if c == '\r' then ['\\'] + (['r'] + rest)
    else if c == '\t' then ['\\'] + (['t'] + rest)
    else if c < ' ' then
      ['\\'] + (['u'] + (['0'] + (['0'] + ([Hex(c as nat / 16)] + ([Hex(c as nat % 16)] + rest)))))
    else [c] + rest
  }

  /** The rest of a string literal: the characters, the closing quote, and what follows. */
  function WriteChars(s: string, rest: string): string {
    if s == [] then ['"'] + rest else WriteChar(s[0], WriteChars(s[1..], rest))
  }

  function WriteText(s: string, rest: string): string { ['"'] + WriteChars(s, rest) }

  function Write(j: Json, rest: string): string {
    match j
    case Null => ['n'] + ("ull" + rest)
    case Bool(true) => ['t'] + ("rue" + rest)
    case Bool(false) => ['f'] + ("alse" + rest)
    case Number(text) => text + rest
    case Text(s) => WriteText(s, rest)
    case List(items) => ['['] + (if items.End? then [']'] + rest else WriteItems(items, rest))
    case Dict(fields) => ['{'] + (if fields.NoField? then ['}'] + rest else WriteFields(fields, rest))
  }

  function WriteItems(items: Items, rest: string): string
    requires items.Item?
  {
    Write(items.head, if items.tail.End? then [']'] + rest else [','] + WriteItems(items.tail, rest))
  }

  function WriteFields(fields: Fields, rest: string): string
    requires fields.Field?
  {
    WriteText(fields.name,
              [':'] + Write(fields.value,
                            if fields.others.NoField? then ['}'] + rest else [','] + WriteFields(fields.others, rest)))
  }

  function KeyValue(user: string, conversation: string, tool: string, arguments: Json): Json {
    List(Item(Text(user), Item(Text(conversation), Item(Text(tool), Item(Normalize(arguments), End)))))
  }

  /** `_key`. */
  function Key(user: string, conversation: string, tool: string, arguments: Json): string {
    Write(KeyValue(user, conversation, tool, arguments), "")
  }

  // ---- The text determines the value ----

  predicate Delimiter(c: char) { c == ',' || c == ']' || c == '}' }

  /** Number texts hold no delimiter and do not begin like another kind of value. */
  predicate NumberText(t: string) {
    && t != [] && t[0] !in "ntf\"[{]}"
    && forall i :: 0 <= i < |t| ==> !Delimiter(t[i])
  }

  predicate Numbers(j: Json) {
    match j
    case Number(text) => NumberText(text)
    case List(items) => NumbersIn(items)
    case Dict(fields) => NumbersOf(fields)
    case _ => true
  }

  predicate NumbersIn(items: Items) { items.Item? ==> Numbers(items.head) && NumbersIn(items.tail) }

  predicate NumbersOf(fields: Fields) { fields.Field? ==> Numbers(fields.value) && NumbersOf(fields.others) }

  predicate Ends(rest: string) { rest == [] || Delimiter(rest[0]) }

  lemma {:induction false} SameFirst(c: char, x: string, d: char, y: string)
    requires [c] + x == [d] + y
    ensures c == d && x == y
  {
    assert ([c] + x)[0] == c && ([d] + y)[0] == d;
    assert ([c] + x)[1..] == x && ([d] + y)[1..] == y;
  }

  lemma {:induction false} SameTail(t: string, x: string, y: string)
    requires t + x == t + y
    ensures x == y
  {
    assert (t + x)[|t|..] == x && (t + y)[|t|..] == y;
  }

  predicate Plain(c: char) { c >= ' ' && c != '"' && c != '\\' }

  /** The letter after the backslash. */
  function Letter(c: char): char
    requires !Plain(c)
  {
    if c == '\U{8}' then 'b' else if c == '\U{c}' then 'f' else if c == '\n' then 'n' else if c == '\r' then 'r'
    else if c == '\t' then 't' else if c < ' ' then 'u' else c
  }

  /** What follows that letter. */
  function AfterLetter(c: char, rest: string): string
    requires !Plain(c)
  {
    if Letter(c) == 'u' then ['0'] + (['0'] + ([Hex(c as nat / 16)] + ([Hex(c as nat % 16)] + rest))) else rest
  }

  lemma {:induction false} EscapedChar(c: char, rest: string)
    requires !Plain(c)
    ensures WriteChar(c, rest) == ['\\'] + ([Letter(c)] + AfterLetter(c, rest))
  {
  }

  lemma {:induction false} CharSame(c: char, x: string, d: char, y: string)
    requires WriteChar(c, x) == WriteChar(d, y)
    ensures c == d && x == y
  {
    if Plain(c) && Plain(d) {
      SameFirst(c, x, d, y);
    } else if Plain(c) {
      EscapedChar(d, y);
      SameFirst(c, x, '\\', [Letter(d)] + AfterLetter(d, y));
    } else if Plain(d) {
      EscapedChar(c, x);
      SameFirst(d, y, '\\', [Letter(c)] + AfterLetter(c, x));
    } else {
      EscapedChar(c, x);
      EscapedChar(d, y);
      EscapesSame(c, x, d, y);
    }
  }

  lemma {:induction false} EscapesSame(c: char, x: string, d: char, y: string)
    requires !Plain(c) && !Plain(d)
    requires ['\\'] + ([Letter(c)] + AfterLetter(c, x)) == ['\\'] + ([Letter(d)] + AfterLetter(d, y))
    ensures c == d && x == y
  {
    SameFirst('\\', [Letter(c)] + AfterLetter(c, x), '\\', [Letter(d)] + AfterLetter(d, y));
    SameFirst(Letter(c), AfterLetter(c, x), Letter(d), AfterLetter(d, y));
    if Letter(c) == 'u' {
      var p, q := [Hex(c as nat % 16)] + x, [Hex(d as nat % 16)] + y;
      SameFirst('0', ['0'] + ([Hex(c as nat / 16)] + p), '0', ['0'] + ([Hex(d as nat / 16)] + q));
      SameFirst('0', [Hex(c as nat / 16)] + p, '0', [Hex(d as nat / 16)] + q);
      SameFirst(Hex(c as nat / 16), p, Hex(d as nat / 16), q);
      SameFirst(Hex(c as nat % 16), x, Hex(d as nat % 16), y);
      HexSame(c as nat / 16, d as nat / 16);
      HexSame(c as nat % 16, d as nat % 16);
    }
  }

  lemma {:induction false} HexSame(a: nat, b: nat)
    requires a < 16 && b < 16 && Hex(a) == Hex(b)
    ensures a == b
  {
  }

  lemma {:induction false} QuoteEnds(s: string, x: string)
    ensures WriteChars(s, x) != [] && (WriteChars(s, x)[0] == '"' <==> s == [])
  {
  }

  lemma {:induction false} CharsSame(s: string, x: string, t: string, y: string)
    requires WriteChars(s, x) == WriteChars(t, y)
    ensures s == t && x == y
  {
    if s != [] && t != [] {
      CharSame(s[0], WriteChars(s[1..], x), t[0], WriteChars(t[1..], y));
      CharsSame(s[1..], x, t[1..], y);
      assert s == [s[0]] + s[1..] && t == [t[0]] + t[1..];
    } else {
      QuoteEnds(s, x);
      QuoteEnds(t, y);
      SameFirst('"', x, '"', y);
    }
  }

  lemma {:induction false} CharacterAt(t: string, x: string, i: nat)
    ensures i < |t| ==> (t + x)[i] == t[i]
    ensures |t| <= i < |t + x| ==> (t + x)[i] == x[i - |t|]
  {
  }

  lemma {:induction false} NumberSame(t: string, x: string, u: string, y: string)
    requires NumberText(t) && NumberText(u) && Ends(x) && Ends(y) && t + x == u + y
    ensures t == u && x == y
  {
    CharacterAt(t, x, |u|);
    CharacterAt(u, y, |t|);
    CharacterAt(t, x, |t|);
    CharacterAt(u, y, |u|);
    assert |t| == |u|;
    assert t == (t + x)[..|t|] && u == (u + y)[..|u|];
    SameTail(t, x, y);
  }

  /** The first character tells the kind of value. */
  function First(j: Json): char
    requires Numbers(j)
  {
    match j
    case Null => 'n'
    case Bool(b) => if b then 't' else 'f'
    case Number(text) => text[0]
    case Text(_) => '"'
    case List(_) => '['
    case Dict(_) => '{'
  }

  lemma {:induction false} WriteFirst(j: Json, rest: string)
    requires Numbers(j)
    ensures Write(j, rest) != [] && Write(j, rest)[0] == First(j)
  {
  }

  /** The text of a value, up to the next delimiter, determines the value and what follows. */
  lemma {:induction false} WriteSame(a: Json, x: string, b: Json, y: string)
    requires Numbers(a) && Numbers(b) && Ends(x) && Ends(y) && Write(a, x) == Write(b, y)
    ensures a == b && x == y
    decreases a
  {
    WriteFirst(a, x);
    WriteFirst(b, y);
    match a
    case Null =>
      SameFirst('n', "ull" + x, 'n', "ull" + y);
      SameTail("ull", x, y);
    case Bool(true) =>
      SameFirst('t', "rue" + x, 't', "rue" + y);
      SameTail("rue", x, y);
    case Bool(false) =>
      SameFirst('f', "alse" + x, 'f', "alse" + y);
      SameTail("alse", x, y);
    case Number(t) => NumberSame(t, x, b.text, y);
    case Text(s) =>
      SameFirst('"', WriteChars(s, x), '"', WriteChars(b.s, y));
      CharsSame(s, x, b.s, y);
    case List(items) => ListSame(items, x, b.items, y);
    case Dict(fields) => DictSame(fields, x, b.fields, y);
  }

  lemma {:induction false} ItemsSame(a: Items, x: string, b: Items, y: string)
    requires a.Item? && b.Item? && NumbersIn(a) && NumbersIn(b) && WriteItems(a, x) == WriteItems(b, y)
    ensures a == b && x == y
    decreases a, 0
  {
    var p := if a.tail.End? then [']'] + x else [','] + WriteItems(a.tail, x);
    var q := if b.tail.End? then [']'] + y else [','] + WriteItems(b.tail, y);
    WriteSame(a.head, p, b.head, q);
    assert p[0] == q[0];
    if a.tail.End? {
      SameFirst(']', x, ']', y);
    } else {
      SameFirst(',', WriteItems(a.tail, x), ',', WriteItems(b.tail, y));
      ItemsSame(a.tail, x, b.tail, y);
    }
  }

  lemma {:induction false} ListSame(a: Items, x: string, b: Items, y: string)
    requires NumbersIn(a) && NumbersIn(b) && Write(List(a), x) == Write(List(b), y)
    ensures a == b && x == y
    decreases a, 1
  {
    var p := if a.End? then [']'] + x else WriteItems(a, x);
    var q := if b.End? then [']'] + y else WriteItems(b, y);
    SameFirst('[', p, '[', q);
    assert a.End? <==> p[0] == ']' by { ItemsFirst(a, x); }
    assert b.End? <==> q[0] == ']' by { ItemsFirst(b, y); }
    if a.End? { SameFirst(']', x, ']', y); } else { ItemsSame(a, x, b, y); }
  }

  lemma {:induction false} ItemsFirst(a: Items, x: string)
    requires NumbersIn(a)
    ensures a.Item? ==> WriteItems(a, x) != [] && WriteItems(a, x)[0] != ']'
  {
    if a.Item? { WriteFirst(a.head, if a.tail.End? then [']'] + x else [','] + WriteItems(a.tail, x)); }
  }

  lemma {:induction false} FieldsSame(a: Fields, x: string, b: Fields, y: string)
    requires a.Field? && b.Field? && NumbersOf(a) && NumbersOf(b) && WriteFields(a, x) == WriteFields(b, y)
    ensures a == b && x == y
    decreases a, 0
  {
    var p := if a.others.NoField? then ['}'] + x else [','] + WriteFields(a.others, x);
    var q := if b.others.NoField? then ['}'] + y else [','] + WriteFields(b.others, y);
    SameFirst('"', WriteChars(a.name, [':'] + Write(a.value, p)), '"', WriteChars(b.name, [':'] + Write(b.value, q)));
    CharsSame(a.name, [':'] + Write(a.value, p), b.name, [':'] + Write(b.value, q));
    SameFirst(':', Write(a.value, p), ':', Write(b.value, q));
    WriteSame(a.value, p, b.value, q);
    assert p[0] == q[0];
    if a.others.NoField? {
      SameFirst('}', x, '}', y);
    } else {
      SameFirst(',', WriteFields(a.others, x), ',', WriteFields(b.others, y));
      FieldsSame(a.others, x, b.others, y);
    }
  }

  lemma {:induction false} DictSame(a: Fields, x: string, b: Fields, y: string)
    requires NumbersOf(a) && NumbersOf(b) && Write(Dict(a), x) == Write(Dict(b), y)
    ensures a == b && x == y
    decreases a, 1
  {
    var p := if a.NoField? then ['}'] + x else WriteFields(a, x);
    var q := if b.NoField? then ['}'] + y else WriteFields(b, y);
    SameFirst('{', p, '{', q);
    assert a.Field? ==> p[0] == '"';
    assert b.Field? ==> q[0] == '"';
    if a.NoField? { SameFirst('}', x, '}', y); } else { FieldsSame(a, x, b, y); }
  }

  lemma {:induction false} NormalNumbers(j: Json)
    requires Numbers(j)
    ensures Numbers(Normalize(j))
    decreases j
  {
    match j
    case List(items) => NormalNumbersIn(items);
    case Dict(fields) => NormalNumbersOf(fields);
    case _ =>
  }

  lemma {:induction false} NormalNumbersIn(items: Items)
    requires NumbersIn(items)
    ensures NumbersIn(NormalizeItems(items))
    decreases items
  {
    if items.Item? {
      NormalNumbers(items.head);
      NormalNumbersIn(items.tail);
    }
  }

  lemma {:induction false} NormalNumbersOf(fields: Fields)
    requires NumbersOf(fields)
    ensures NumbersOf(NormalizeFields(fields))
    decreases fields
  {
    if fields.Field? {
      NormalNumbers(fields.value);
      NormalNumbersOf(fields.others);
    }
  }

  lemma {:induction false} KeyNumbers(user: string, conversation: string, tool: string, arguments: Json)
    requires Numbers(arguments)
    ensures Numbers(KeyValue(user, conversation, tool, arguments))
  {
    NormalNumbers(arguments);
    var last := Item(Normalize(arguments), End);
    assert NumbersIn(last);
    assert NumbersIn(Item(Text(tool), last));
    assert NumbersIn(Item(Text(conversation), Item(Text(tool), last)));
  }

  // ---- Equal up to white space ----

  /** The texts hold the same characters in the same order, apart from white space. */
  predicate SameLetters(s: string, t: string)
    decreases |s| + |t|
  {
    if s != [] && IsSpace(s[0]) then SameLetters(s[1..], t)
    else if t != [] && IsSpace(t[0]) then SameLetters(s, t[1..])
    else if s == [] || t == [] then s == t
    else s[0] == t[0] && SameLetters(s[1..], t[1..])
  }

  /** The values are the same apart from white space in their texts; names of fields and all else agree. */
  predicate UpToSpaces(a: Json, b: Json) {
    match a
    case Text(s) => b.Text? && SameLetters(s, b.s)
    case List(items) => b.List? && ItemsUpToSpaces(items, b.items)
    case Dict(fields) => b.Dict? && FieldsUpToSpaces(fields, b.fields)
    case _ => a == b
  }

  predicate ItemsUpToSpaces(a: Items, b: Items) {
    a.Item? == b.Item? && (a.Item? ==> UpToSpaces(a.head, b.head) && ItemsUpToSpaces(a.tail, b.tail))
  }

  predicate FieldsUpToSpaces(a: Fields, b: Fields) {
    && a.Field? == b.Field?
    && (a.Field? ==> a.name == b.name && UpToSpaces(a.value, b.value) && FieldsUpToSpaces(a.others, b.others))
  }

  lemma {:induction false} FirstSkipped(s: string)
    requires s != [] && IsSpace(s[0])
    ensures NoSpaces(s) == NoSpaces(s[1..])
  {
    assert [] + NoSpaces(s[1..]) == NoSpaces(s[1..]);
  }

  lemma {:induction false} FirstLetters(s: string, t: string)
    requires s != [] && t != [] && !IsSpace(s[0]) && !IsSpace(t[0])
    ensures NoSpaces(s) == NoSpaces(t) <==> s[0] == t[0] && NoSpaces(s[1..]) == NoSpaces(t[1..])
  {
    assert NoSpaces(s) == [s[0]] + NoSpaces(s[1..]) && NoSpaces(t) == [t[0]] + NoSpaces(t[1..]);
    if NoSpaces(s) == NoSpaces(t) { SameFirst(s[0], NoSpaces(s[1..]), t[0], NoSpaces(t[1..])); }
  }

  lemma {:induction false} SameLettersIs(s: string, t: string)
    ensures SameLetters(s, t) <==> NoSpaces(s) == NoSpaces(t)
    decreases |s| + |t|
  {
    if s != [] && IsSpace(s[0]) {
      FirstSkipped(s);
      SameLettersIs(s[1..], t);
    } else if t != [] && IsSpace(t[0]) {
      FirstSkipped(t);
      SameLettersIs(s, t[1..]);
    } else if s != [] && t != [] {
      FirstLetters(s, t);
      SameLettersIs(s[1..], t[1..]);
    }
  }

  lemma {:induction false} UpToSpacesIs(a: Json, b: Json)
    ensures UpToSpaces(a, b) <==> Normalize(a) == Normalize(b)
    decreases a
  {
    match a
    case Text(s) => if b.Text? { SameLettersIs(s, b.s); }
    case List(items) => if b.List? { ItemsUpToSpacesIs(items, b.items); }
    case Dict(fields) => if b.Dict? { FieldsUpToSpacesIs(fields, b.fields); }
    case _ =>
  }

  lemma {:induction false} ItemsUpToSpacesIs(a: Items, b: Items)
    ensures ItemsUpToSpaces(a, b) <==> NormalizeItems(a) == NormalizeItems(b)
    decreases a
  {
    if a.Item? && b.Item? {
      UpToSpacesIs(a.head, b.head);
      ItemsUpToSpacesIs(a.tail, b.tail);
    }
  }

  lemma {:induction false} FieldsUpToSpacesIs(a: Fields, b: Fields)
    ensures FieldsUpToSpaces(a, b) <==> NormalizeFields(a) == NormalizeFields(b)
    decreases a
  {
    if a.Field? && b.Field? {
      UpToSpacesIs(a.value, b.value);
      FieldsUpToSpacesIs(a.others, b.others);
    }
  }

  /** Two calls share a cache entry exactly when user, conversation and tool are the same and the
      arguments are the same up to white space in their texts. */
  lemma {:induction false} SharesExactly(user: string, conversation: string, tool: string, arguments: Json,
                                         user': string, conversation': string, tool': string, arguments': Json)
    requires Numbers(arguments) && Numbers(arguments')
    ensures Key(user, conversation, tool, arguments) == Key(user', conversation', tool', arguments') <==>
              user == user' && conversation == conversation' && tool == tool' && UpToSpaces(arguments, arguments')
  {
    KeyNumbers(user, conversation, tool, arguments);
    KeyNumbers(user', conversation', tool', arguments');
    var a := KeyValue(user, conversation, tool, arguments);
    var b := KeyValue(user', conversation', tool', arguments');
    if Write(a, "") == Write(b, "") { WriteSame(a, "", b, ""); }
    UpToSpacesIs(arguments, arguments');
  }

  // ---- What up to white space means ----

  /** `b` is `a` with one more white space character somewhere in one of its texts. */
  ghost predicate OneSpaceMore(a: Json, b: Json) {
    match a
    case Text(s) => b.Text? && exists i :: 0 <= i < |b.s| && IsSpace(b.s[i]) && s == b.s[..i] + b.s[i + 1..]
    case List(items) => b.List? && OneSpaceMoreIn(items, b.items)
    case Dict(fields) => b.Dict? && OneSpaceMoreOf(fields, b.fields)
    case _ => false
  }

  ghost predicate OneSpaceMoreIn(a: Items, b: Items) {
    && a.Item? && b.Item?
    && ((OneSpaceMore(a.head, b.head) && a.tail == b.tail) || (a.head == b.head && OneSpaceMoreIn(a.tail, b.tail)))
  }

  ghost predicate OneSpaceMoreOf(a: Fields, b: Fields) {
    && a.Field? && b.Field? && a.name == b.name
    && ((OneSpaceMore(a.value, b.value) && a.others == b.others)
        || (a.value == b.value && OneSpaceMoreOf(a.others, b.others)))
  }

  lemma {:induction false} SpaceDropped(s: string, i: nat)
    requires i < |s| && IsSpace(s[i])
    ensures NoSpaces(s[..i] + s[i + 1..]) == NoSpaces(s)
  {
    var t := s[..i] + s[i + 1..];
    if i == 0 {
      assert t == s[1..];
      assert [] + NoSpaces(t) == NoSpaces(t);
    } else {
      SpaceDropped(s[1..], i - 1);
      assert t[1..] == s[1..][..i - 1] + s[1..][i..];
    }
  }

  lemma {:induction false} OneSpaceSame(a: Json, b: Json)
    requires OneSpaceMore(a, b)
    ensures Normalize(a) == Normalize(b)
    decreases a
  {
    match a
    case Text(s) =>
      var i :| 0 <= i < |b.s| && IsSpace(b.s[i]) && s == b.s[..i] + b.s[i + 1..];
      SpaceDropped(b.s, i);
    case List(items) => OneSpaceSameIn(items, b.items);
    case Dict(fields) => OneSpaceSameOf(fields, b.fields);
  }

  lemma {:induction false} OneSpaceSameIn(a: Items, b: Items)
    requires OneSpaceMoreIn(a, b)
    ensures NormalizeItems(a) == NormalizeItems(b)
    decreases a
  {
    if a.head == b.head && OneSpaceMoreIn(a.tail, b.tail) {
      OneSpaceSameIn(a.tail, b.tail);
    } else {
      OneSpaceSame(a.head, b.head);
    }
  }

  lemma {:induction false} OneSpaceSameOf(a: Fields, b: Fields)
    requires OneSpaceMoreOf(a, b)
    ensures NormalizeFields(a) == NormalizeFields(b)
    decreases a
  {
    if a.value == b.value && OneSpaceMoreOf(a.others, b.others) {
      OneSpaceSameOf(a.others, b.others);
    } else {
      OneSpaceSame(a.value, b.value);
    }
  }

  /** One more white space character, anywhere in the arguments, leaves the key as it is. */
  lemma {:induction false} SpaceKeepsKey(user: string, conversation: string, tool: string, a: Json, b: Json)
    requires OneSpaceMore(a, b)
    ensures Key(user, conversation, tool, a) == Key(user, conversation, tool, b)
  {
    OneSpaceSame(a, b);
  }

  /** No text of the value holds white space. */
  predicate Spaceless(j: Json) {
    match j
    case Text(s) => forall i :: 0 <= i < |s| ==> !IsSpace(s[i])
    case List(items) => SpacelessIn(items)
    case Dict(fields) => SpacelessOf(fields)
    case _ => true
  }

  predicate SpacelessIn(items: Items) { items.Item? ==> Spaceless(items.head) && SpacelessIn(items.tail) }

  predicate SpacelessOf(fields: Fields) { fields.Field? ==> Spaceless(fields.value) && SpacelessOf(fields.others) }

  lemma {:induction false} SpacelessIsNormal(j: Json)
    requires Spaceless(j)
    ensures Normalize(j) == j
    decreases j
  {
    match j
    case Text(s) => NoSpacesStays(s);
    case List(items) => SpacelessIsNormalIn(items);
    case Dict(fields) => SpacelessIsNormalOf(fields);
    case _ =>
  }

  lemma {:induction false} SpacelessIsNormalIn(items: Items)
    requires SpacelessIn(items)
    ensures NormalizeItems(items) == items
    decreases items
  {
    if items.Item? {
      SpacelessIsNormal(items.head);
      SpacelessIsNormalIn(items.tail);
    }
  }

  lemma {:induction false} SpacelessIsNormalOf(fields: Fields)
    requires SpacelessOf(fields)
    ensures NormalizeFields(fields) == fields
    decreases fields
  {
    if fields.Field? {
      SpacelessIsNormal(fields.value);
      SpacelessIsNormalOf(fields.others);
    }
  }

  /** Without white space in the texts, the key tells the arguments themselves. */
  lemma {:induction false} SpacelessKeysDiffer(user: string, conversation: string, tool: string, a: Json, b: Json)
    requires Numbers(a) && Numbers(b) && Spaceless(a) && Spaceless(b)
    ensures Key(user, conversation, tool, a) == Key(user, conversation, tool, b) <==> a == b
  {
    SharesExactly(user, conversation, tool, a, user, conversation, tool, b);
    UpToSpacesIs(a, b);
    SpacelessIsNormal(a);
    SpacelessIsNormal(b);
  }

  // ---- Normal forms ----

  lemma {:induction false} NoSpacesStays(s: string)
    requires forall i :: 0 <= i < |s| ==> !IsSpace(s[i])
    ensures NoSpaces(s) == s
  {
    if s != [] { NoSpacesStays(s[1..]); }
  }

  /** Normal arguments are their own normal form. */
  lemma {:induction false} NormalizeTwice(j: Json)
    ensures Normalize(Normalize(j)) == Normalize(j)
    decreases j
  {
    match j
    case Text(s) => NoSpacesStays(NoSpaces(s));
    case List(items) => NormalizeItemsTwice(items);
    case Dict(fields) => NormalizeFieldsTwice(fields);
    case _ =>
  }

  lemma {:induction false} NormalizeItemsTwice(items: Items)
    ensures NormalizeItems(NormalizeItems(items)) == NormalizeItems(items)
    decreases items
  {
    if items.Item? {
      NormalizeTwice(items.head);
      NormalizeItemsTwice(items.tail);
    }
  }

  lemma {:induction false} NormalizeFieldsTwice(fields: Fields)
    ensures NormalizeFields(NormalizeFields(fields)) == NormalizeFields(fields)
    decreases fields
  {
    if fields.Field? {
      NormalizeTwice(fields.value);
      NormalizeFieldsTwice(fields.others);
    }
  }
}
