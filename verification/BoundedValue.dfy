/**
 Bounding the evidence given to the model (knowledge/bug_graph/service.py, `_bounded_value`).
 */
module BoundedValue {
  import opened Common

  const DEPTH := 5
  const FAN := 30
  const KEY := 200

  /** `Scalar` is an int, float or bool; `Other` is any other object with the text that `str` gives. */
  datatype Value =
    | Null | Scalar(literal: string) | Text(s: string) | Other(shown: string) | List(items: Items) | Dict(entries: Entries)

  datatype Items = End | Item(head: Value, tail: Items)

  /** Keys are given as `str(key)`; two keys may show the same text. */
  datatype Entries = NoEntry | Entry(key: string, value: Value, rest: Entries)

  function Cut(s: string, n: nat): string { if |s| > n then s[..n] else s }

  /** Setting a key of a dictionary: the first place, the latest value. */
  function Put(e: Entries, key: string, v: Value): Entries {
    match e
    case NoEntry => Entry(key, v, NoEntry)
    case Entry(k, w, rest) => if k == key then Entry(k, v, rest) else Entry(k, w, Put(rest, key, v))
  }

  function Bounded(v: Value, max: nat, depth: nat): Value {
    if depth >= DEPTH then Null
    else
      match v
      case Text(s) => Text(Cut(s, max))
      case Dict(entries) => Dict(BoundedEntries(entries, max, depth + 1, FAN, NoEntry))
      case List(items) => List(BoundedItems(items, max, depth + 1, FAN))
      case Other(shown) => Text(Cut(shown, max))
      case _ => v
  }

  function BoundedItems(items: Items, max: nat, depth: nat, left: nat): Items {
    if items.End? || left == 0 then End
    else Item(Bounded(items.head, max, depth), BoundedItems(items.tail, max, depth, left - 1))
  }

  function BoundedEntries(entries: Entries, max: nat, depth: nat, left: nat, done: Entries): Entries {
    if entries.NoEntry? || left == 0 then done
    else
      BoundedEntries(entries.rest, max, depth, left - 1,
                     Put(done, Cut(entries.key, KEY), Bounded(entries.value, max, depth)))
  }

  // ---- The shape of the result ----

  function CountItems(items: Items): nat { if items.End? then 0 else 1 + CountItems(items.tail) }

  function CountEntries(e: Entries): nat { if e.NoEntry? then 0 else 1 + CountEntries(e.rest) }

  function KeysOf(e: Entries): set<string> { if e.NoEntry? then {} else {e.key} + KeysOf(e.rest) }

  predicate DistinctKeys(e: Entries) { e.Entry? ==> e.key !in KeysOf(e.rest) && DistinctKeys(e.rest) }

  /** Within every bound, from a given depth on. */
  predicate Within(v: Value, max: nat, depth: nat) {
    if depth >= DEPTH then v.Null?
    else
      match v
      case Text(s) => |s| <= max
      case Dict(entries) => CountEntries(entries) <= FAN && DistinctKeys(entries) && EntriesWithin(entries, max, depth + 1)
      case List(items) => CountItems(items) <= FAN && ItemsWithin(items, max, depth + 1)
      case Other(_) => false
      case _ => true
  }

  predicate ItemsWithin(items: Items, max: nat, depth: nat) {
    items.Item? ==> Within(items.head, max, depth) && ItemsWithin(items.tail, max, depth)
  }

  predicate EntriesWithin(e: Entries, max: nat, depth: nat) {
    e.Entry? ==> |e.key| <= KEY && Within(e.value, max, depth) && EntriesWithin(e.rest, max, depth)
  }

  lemma {:induction false} PutWithin(e: Entries, key: string, v: Value, max: nat, depth: nat)
    requires EntriesWithin(e, max, depth) && DistinctKeys(e) && |key| <= KEY && Within(v, max, depth)
    ensures EntriesWithin(Put(e, key, v), max, depth) && DistinctKeys(Put(e, key, v))
    ensures KeysOf(Put(e, key, v)) == KeysOf(e) + {key}
    ensures CountEntries(Put(e, key, v)) == CountEntries(e) + if key in KeysOf(e) then 0 else 1
  {
    if e.Entry? && e.key != key { PutWithin(e.rest, key, v, max, depth); }
  }

  /** The result is within every bound. */
  lemma {:induction false} BoundedWithin(v: Value, max: nat, depth: nat)
    ensures Within(Bounded(v, max, depth), max, depth)
    decreases v, 1
  {
    if depth < DEPTH {
      match v
      case List(items) => BoundedItemsWithin(items, max, depth + 1, FAN);
      case Dict(entries) => BoundedEntriesWithin(entries, max, depth + 1, FAN, NoEntry);
      case _ =>
    }
  }

  lemma {:induction false} BoundedItemsWithin(items: Items, max: nat, depth: nat, left: nat)
    ensures ItemsWithin(BoundedItems(items, max, depth, left), max, depth)
    ensures CountItems(BoundedItems(items, max, depth, left)) <= left
    decreases items, 0
  {
    if items.Item? && left > 0 {
      BoundedWithin(items.head, max, depth);
      BoundedItemsWithin(items.tail, max, depth, left - 1);
    }
  }

  lemma {:induction false} BoundedEntriesWithin(e: Entries, max: nat, depth: nat, left: nat, done: Entries)
    requires EntriesWithin(done, max, depth) && DistinctKeys(done)
    ensures var r := BoundedEntries(e, max, depth, left, done);
            EntriesWithin(r, max, depth) && DistinctKeys(r) && CountEntries(r) <= CountEntries(done) + left
    decreases e, 0
  {
    if e.Entry? && left > 0 {
      BoundedWithin(e.value, max, depth);
      PutWithin(done, Cut(e.key, KEY), Bounded(e.value, max, depth), max, depth);
      BoundedEntriesWithin(e.rest, max, depth, left - 1, Put(done, Cut(e.key, KEY), Bounded(e.value, max, depth)));
    }
  }

  // ---- Values within the bounds are left alone ----

  function Append(e: Entries, f: Entries): Entries {
    match e
    case NoEntry => f
    case Entry(k, v, rest) => Entry(k, v, Append(rest, f))
  }

  lemma {:induction false} PutNew(e: Entries, key: string, v: Value)
    requires key !in KeysOf(e)
    ensures Put(e, key, v) == Append(e, Entry(key, v, NoEntry))
  {
    if e.Entry? { PutNew(e.rest, key, v); }
  }

  lemma {:induction false} AppendFacts(e: Entries, f: Entries, g: Entries)
    ensures Append(Append(e, f), g) == Append(e, Append(f, g))
    ensures KeysOf(Append(e, f)) == KeysOf(e) + KeysOf(f)
    ensures Append(e, NoEntry) == e
  {
    if e.Entry? { AppendFacts(e.rest, f, g); }
  }

  lemma {:induction false} WithinUnchanged(v: Value, max: nat, depth: nat)
    requires Within(v, max, depth)
    ensures Bounded(v, max, depth) == v
    decreases v, 1
  {
    if depth < DEPTH {
      match v
      case List(items) => ItemsUnchanged(items, max, depth + 1, FAN);
      case Dict(entries) => EntriesUnchanged(entries, max, depth + 1, FAN, NoEntry);
      case _ =>
    }
  }

  lemma {:induction false} ItemsUnchanged(items: Items, max: nat, depth: nat, left: nat)
    requires ItemsWithin(items, max, depth) && CountItems(items) <= left
    ensures BoundedItems(items, max, depth, left) == items
    decreases items, 0
  {
    if items.Item? {
      WithinUnchanged(items.head, max, depth);
      ItemsUnchanged(items.tail, max, depth, left - 1);
    }
  }

  lemma {:induction false} EntriesUnchanged(e: Entries, max: nat, depth: nat, left: nat, done: Entries)
    requires EntriesWithin(e, max, depth) && DistinctKeys(e) && CountEntries(e) <= left && KeysOf(done) !! KeysOf(e)
    ensures BoundedEntries(e, max, depth, left, done) == Append(done, e)
    decreases e, 0
  {
    if e.Entry? {
      WithinUnchanged(e.value, max, depth);
      PutNew(done, e.key, e.value);
      var one := Entry(e.key, e.value, NoEntry);
      AppendFacts(done, one, e.rest);
      EntriesUnchanged(e.rest, max, depth, left - 1, Append(done, one));
    } else {
      AppendFacts(done, e, e);
    }
  }

  /** Bounding changes exactly the values that break a bound. */
  lemma {:induction false} UnchangedExactlyWithin(v: Value, max: nat, depth: nat)
    ensures Bounded(v, max, depth) == v <==> Within(v, max, depth)
  {
    BoundedWithin(v, max, depth);
    if Within(v, max, depth) { WithinUnchanged(v, max, depth); }
  }

  /** Bounding twice is bounding once. */
  lemma {:induction false} BoundedTwice(v: Value, max: nat, depth: nat)
    ensures Bounded(Bounded(v, max, depth), max, depth) == Bounded(v, max, depth)
  {
    BoundedWithin(v, max, depth);
    WithinUnchanged(Bounded(v, max, depth), max, depth);
  }

  // ---- Size ----

  function Nodes(v: Value): nat {
    match v
    case List(items) => 1 + NodesOfItems(items)
    case Dict(entries) => 1 + NodesOfEntries(entries)
    case _ => 1
  }

  function NodesOfItems(items: Items): nat { if items.End? then 0 else Nodes(items.head) + NodesOfItems(items.tail) }

  function NodesOfEntries(e: Entries): nat { if e.NoEntry? then 0 else Nodes(e.value) + NodesOfEntries(e.rest) }

  function Max(a: nat, b: nat): nat { if a > b then a else b }

  /** The number of levels below a value. */
  function Height(v: Value): nat {
    match v
    case List(items) => if items.End? then 0 else 1 + HeightOfItems(items)
    case Dict(entries) => if entries.NoEntry? then 0 else 1 + HeightOfEntries(entries)
    case _ => 0
  }

  function HeightOfItems(items: Items): nat { if items.End? then 0 else Max(Height(items.head), HeightOfItems(items.tail)) }

  function HeightOfEntries(e: Entries): nat { if e.NoEntry? then 0 else Max(Height(e.value), HeightOfEntries(e.rest)) }

  /** 1 + 30 + ... + 30^n. */
  function Cap(n: nat): nat { if n == 0 then 1 else 1 + FAN * Cap(n - 1) }

  function Left(depth: nat): nat { if depth >= DEPTH then 0 else DEPTH - depth }

  lemma {:induction false} WithinSmall(v: Value, max: nat, depth: nat)
    requires Within(v, max, depth)
    ensures Nodes(v) <= Cap(Left(depth)) && Height(v) <= Left(depth)
    decreases v, 1
  {
    if depth < DEPTH {
      var cap := Cap(Left(depth + 1));
      match v
      case List(items) =>
        ItemsSmall(items, max, depth + 1);
        Times(CountItems(items), cap);
      case Dict(entries) =>
        EntriesSmall(entries, max, depth + 1);
        Times(CountEntries(entries), cap);
      case _ =>
    }
  }

  lemma {:induction false} Times(count: nat, cap: nat)
    requires count <= FAN
    ensures count * cap <= FAN * cap
  {
  }

  lemma {:induction false} ItemsSmall(items: Items, max: nat, depth: nat)
    requires ItemsWithin(items, max, depth)
    ensures NodesOfItems(items) <= CountItems(items) * Cap(Left(depth)) && HeightOfItems(items) <= Left(depth)
    decreases items, 0
  {
    if items.Item? {
      WithinSmall(items.head, max, depth);
      ItemsSmall(items.tail, max, depth);
    }
  }

  lemma {:induction false} EntriesSmall(e: Entries, max: nat, depth: nat)
    requires EntriesWithin(e, max, depth)
    ensures NodesOfEntries(e) <= CountEntries(e) * Cap(Left(depth)) && HeightOfEntries(e) <= Left(depth)
    decreases e, 0
  {
    if e.Entry? {
      WithinSmall(e.value, max, depth);
      EntriesSmall(e.rest, max, depth);
    }
  }

  /** From depth 0: at most five levels and 1 + 30 + 30^2 + 30^3 + 30^4 + 30^5 nodes. */
  lemma {:induction false} BoundedIsSmall(v: Value, max: nat)
    ensures Height(Bounded(v, max, 0)) <= 5
    ensures Nodes(Bounded(v, max, 0)) <= 1 + 30 + 900 + 27000 + 810000 + 24300000
  {
    BoundedWithin(v, max, 0);
    WithinSmall(Bounded(v, max, 0), max, 0);
    assert Cap(1) == 31 && Cap(2) == 931;
    assert Cap(3) == 27931 && Cap(4) == 837931;
    assert Cap(5) == 25137931;
  }

  // ---- What is kept ----

  /** The item at place `i`, counted from the front. */
  function ItemAt(items: Items, i: nat): Option<Value> {
    if items.End? then None else if i == 0 then Some(items.head) else ItemAt(items.tail, i - 1)
  }

  /** The value that stands under a key. */
  function ValueAt(e: Entries, key: string): Option<Value> {
    if e.NoEntry? then None else if e.key == key then Some(e.value) else ValueAt(e.rest, key)
  }

  /** The last value among the first `n` entries whose key begins with, or is, the given key of at most two
      hundred characters. */
  function LatestUnder(e: Entries, n: nat, key: string): Option<Value> {
    if e.NoEntry? || n == 0 then None
    else
      var later := LatestUnder(e.rest, n - 1, key);
      if later.Some? then later
      else if key <= e.key && |key| == (if |e.key| < 200 then |e.key| else 200) then Some(e.value)
      else None
  }

  /** A long text keeps its beginning. */
  lemma {:induction false} TextKept(s: string, max: nat, depth: nat)
    requires depth < 5
    ensures Bounded(Text(s), max, depth).Text? && Bounded(Other(s), max, depth).Text?
    ensures var r := Bounded(Text(s), max, depth).s; r <= s && |r| == if |s| < max then |s| else max
    ensures Bounded(Other(s), max, depth) == Bounded(Text(s), max, depth)
  {
  }

  /** A list keeps its first thirty items, each bounded one level deeper. */
  lemma {:induction false} ItemsKept(items: Items, max: nat, depth: nat, left: nat, i: nat)
    ensures ItemAt(BoundedItems(items, max, depth, left), i) ==
              if i < left && ItemAt(items, i).Some? then Some(Bounded(ItemAt(items, i).value, max, depth)) else None
    decreases i
  {
    if items.Item? && left > 0 && i > 0 { ItemsKept(items.tail, max, depth, left - 1, i - 1); }
  }

  lemma {:induction false} PutAt(e: Entries, k: string, v: Value, key: string)
    ensures ValueAt(Put(e, k, v), key) == if k == key then Some(v) else ValueAt(e, key)
  {
    if e.Entry? && e.key != k { PutAt(e.rest, k, v, key); }
  }

  lemma {:induction false} CutIs(s: string, key: string)
    ensures Cut(s, KEY) == key <==> key <= s && |key| == if |s| < 200 then |s| else 200
  {
  }

  lemma {:induction false} EntriesKeptOver(e: Entries, max: nat, depth: nat, left: nat, done: Entries, key: string)
    ensures var latest := LatestUnder(e, left, key);
            ValueAt(BoundedEntries(e, max, depth, left, done), key) ==
              if latest.Some? then Some(Bounded(latest.value, max, depth)) else ValueAt(done, key)
    decreases e
  {
    if e.Entry? && left > 0 {
      var v := Bounded(e.value, max, depth);
      PutAt(done, Cut(e.key, KEY), v, key);
      CutIs(e.key, key);
      EntriesKeptOver(e.rest, max, depth, left - 1, Put(done, Cut(e.key, KEY), v), key);
    }
  }

  /** What a bounded list or dictionary holds. */
  lemma {:induction false} ContentKept(v: Value, max: nat, depth: nat)
    requires depth < 5
    ensures v.List? ==>
              Bounded(v, max, depth).List?
              && forall i :: ItemAt(Bounded(v, max, depth).items, i) ==
                               if i < 30 && ItemAt(v.items, i).Some?
                               then Some(Bounded(ItemAt(v.items, i).value, max, depth + 1)) else None
    ensures v.Dict? ==>
              Bounded(v, max, depth).Dict?
              && forall key :: ValueAt(Bounded(v, max, depth).entries, key) ==
                                 if LatestUnder(v.entries, 30, key).Some?
                                 then Some(Bounded(LatestUnder(v.entries, 30, key).value, max, depth + 1)) else None
    ensures v.Null? || v.Scalar? ==> Bounded(v, max, depth) == v
  {
    if v.List? {
      forall i ensures ItemAt(Bounded(v, max, depth).items, i) ==
                         if i < 30 && ItemAt(v.items, i).Some?
                         then Some(Bounded(ItemAt(v.items, i).value, max, depth + 1)) else None
      {
        ItemsKept(v.items, max, depth + 1, FAN, i);
      }
    }
    if v.Dict? {
      forall key ensures ValueAt(Bounded(v, max, depth).entries, key) ==
                           if LatestUnder(v.entries, 30, key).Some?
                           then Some(Bounded(LatestUnder(v.entries, 30, key).value, max, depth + 1)) else None
      {
        EntriesKeptOver(v.entries, max, depth + 1, FAN, NoEntry, key);
      }
    }
  }
}
