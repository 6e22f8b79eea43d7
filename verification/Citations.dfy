/**
 Choosing the public citations (knowledge/agent_runtime/context.py, `public_citations`).
 */
module Citations {
  import opened Common

  /** A score; `Lowest` stands for minus infinity. */
  datatype Score = Lowest | Score(value: real)

  /** The `_retrieval` metadata: nothing, a dictionary, or something truthy that is no dictionary. */
  datatype Retrieval =
    | Nothing
    | Odd
    | Facts(exact: bool, rerankApplied: bool, rerank: Score, fusion: real, rank: int, supplemental: bool)

  /** `plain` is the title without case and extra white space. */
  datatype Citation = Citation(
    kind: string, id: string, title: string, plain: string,
    branch: Option<string>, relativePath: Option<string>, path: Option<string>, symbolName: Option<string>,
    symbol: Option<string>, sourceId: Option<string>, heading: Option<string>, retrieval: Retrieval)

  /** Both minimum scores, or no gate. */
  datatype Gate = Gate(minRerank: real, minRrf: real)

  const UNRANKED := 1000000

  // ---- quality ----

  function FactsOf(c: Citation): Retrieval {
    if c.retrieval.Facts? then c.retrieval else Facts(false, false, Lowest, 0.0, UNRANKED, false)
  }

  predicate Exact(c: Citation) { c.kind == "mcp_tool" || c.kind == "swagger" || c.kind == "log_trace" || FactsOf(c).exact }

  predicate Gated(c: Citation) { c.kind == "code" || c.kind == "product_document" }

  predicate Reaches(s: Score, least: real) { s.Score? && s.value >= least }

  predicate Eligible(c: Citation, g: Gate) {
    !Gated(c) || Exact(c) || if FactsOf(c).rerankApplied then Reaches(FactsOf(c).rerank, g.minRerank)
                             else FactsOf(c).fusion >= g.minRrf
  }

  predicate Higher(a: Score, b: Score) { a.Score? && (b.Lowest? || a.value > b.value) }

  /** Exact first, then by rerank score, fusion score and rank. */
  predicate Better(a: Citation, b: Citation) {
    if Exact(a) != Exact(b) then Exact(a)
    else if FactsOf(a).rerank != FactsOf(b).rerank then Higher(FactsOf(a).rerank, FactsOf(b).rerank)
    else if FactsOf(a).fusion != FactsOf(b).fusion then FactsOf(a).fusion > FactsOf(b).fusion
    else FactsOf(a).rank < FactsOf(b).rank
  }

  function Keep(s: seq<Citation>, g: Gate): seq<Citation> {
    if s == [] then [] else Keep(s[..|s| - 1], g) + if Eligible(s[|s| - 1], g) then [s[|s| - 1]] else []
  }

  /** A stable sort: each citation goes behind those that are not worse. */
  function Place(s: seq<Citation>, c: Citation): seq<Citation> {
    if s == [] || !Better(c, s[|s| - 1]) then s + [c] else Place(s[..|s| - 1], c) + [s[|s| - 1]]
  }

  function Ranked(s: seq<Citation>): seq<Citation> {
    if s == [] then [] else Place(Ranked(s[..|s| - 1]), s[|s| - 1])
  }

  predicate Supplemental(c: Citation) { c.retrieval.Facts? && c.retrieval.supplemental }

  function Those(s: seq<Citation>, supplemental: bool): seq<Citation> {
    if s == [] then []
    else Those(s[..|s| - 1], supplemental) + if Supplemental(s[|s| - 1]) == supplemental then [s[|s| - 1]] else []
  }

  /** Supplemental citations go behind the two best others. */
  function Arranged(s: seq<Citation>): seq<Citation> {
    var extra, primary := Those(s, true), Those(s, false);
    if extra == [] || primary == [] then s
    else
      var k := if |primary| < 2 then |primary| else 2;
      primary[..k] + extra + primary[k..]
  }

  function Candidates(s: seq<Citation>, gate: Option<Gate>): seq<Citation> {
    match gate case None => s case Some(g) => Arranged(Ranked(Keep(s, g)))
  }

  // ---- Logical identity ----

  datatype Key =
    | CodeKey(branch: Option<string>, path: Option<string>, symbol: Option<string>)
    | DocumentKey(source: Option<string>, path: Option<string>, heading: Option<string>)
    | OtherKey(kind: string, id: string)

  function OrElse(a: Option<string>, b: Option<string>): Option<string> {
    if a.Some? && a.value != "" then a else b
  }

  function KeyOf(c: Citation): Key {
    if c.kind == "code" then CodeKey(c.branch, OrElse(c.relativePath, c.path), OrElse(c.symbolName, c.symbol))
    else if c.kind == "product_document" then
      DocumentKey(c.sourceId, OrElse(c.relativePath, c.path), OrElse(c.heading, Some(c.title)))
    else OtherKey(c.kind, c.id)
  }

  predicate Titled(c: Citation) { Gated(c) && c.plain != "" }

  /** The two show the same thing. */
  predicate Same(a: Citation, b: Citation) {
    KeyOf(a) == KeyOf(b) || (Titled(a) && Titled(b) && a.kind == b.kind && a.plain == b.plain)
  }

  predicate Shown(s: seq<Citation>, c: Citation) { exists i :: 0 <= i < |s| && Same(s[i], c) }

  /** The first citation of each kind of sameness, in order. */
  function Distinct(s: seq<Citation>): seq<Citation> {
    if s == [] then []
    else
      var before := Distinct(s[..|s| - 1]);
      if Shown(before, s[|s| - 1]) then before else before + [s[|s| - 1]]
  }

  // ---- Selection ----

  predicate FirstOfKind(s: seq<Citation>, i: nat)
    requires i < |s|
  {
    forall j :: 0 <= j < i ==> s[j].kind != s[i].kind
  }

  function Firsts(s: seq<Citation>, n: nat): set<nat>
    requires n <= |s|
  {
    set i: nat | i < n && FirstOfKind(s, i)
  }

  /** `max` indexes: the first of each kind as far as they fit, then the earliest others. */
  ghost predicate Selects(s: seq<Citation>, max: nat, chosen: set<nat>) {
    && (forall i :: i in chosen ==> i < |s|) && |chosen| == max
    && (chosen <= Firsts(s, |s|) || Firsts(s, |s|) <= chosen)
    && (forall i, j: nat :: i in chosen && j < i && j in Firsts(s, |s|) ==> j in chosen)
    && (forall i, j: nat :: i in chosen && i !in Firsts(s, |s|) && j < i ==> j in chosen)
  }

  /** The chosen citations in their order. */
  function Pick(s: seq<Citation>, chosen: set<nat>): seq<Citation> {
    if s == [] then [] else Pick(s[..|s| - 1], chosen) + if |s| - 1 in chosen then [s[|s| - 1]] else []
  }

  ghost predicate Chosen(unique: seq<Citation>, max: nat, r: seq<Citation>) {
    if |unique| <= max then r == unique else exists chosen :: Selects(unique, max, chosen) && r == Pick(unique, chosen)
  }

  // ---- public_citations ----

  /** Looking for `supplemental` in something that is no dictionary raises. */
  predicate Breaks(s: seq<Citation>, gate: Option<Gate>) {
    gate.Some? && exists c :: c in Keep(s, gate.value) && c.retrieval.Odd?
  }

  method PublicCitations(citations: seq<Citation>, maxCount: int, gate: Option<Gate>) returns (r: Result<seq<Citation>, ()>)
    ensures r.Err? <==> maxCount > 0 && Breaks(citations, gate)
    ensures maxCount <= 0 ==> r == Ok([])
    ensures r.Ok? && maxCount > 0 ==> Chosen(Distinct(Candidates(citations, gate)), maxCount, r.value)
    ensures r.Err? <==> maxCount > 0 && gate.Some? && exists c :: c in citations && c.retrieval.Odd? && Passes(c, gate)
    ensures r.Ok? && maxCount > 0 ==>
              Good(citations, gate, maxCount, r.value) && GoodKinds(citations, gate, maxCount, r.value)
  {
    BreaksInNumbers(citations, gate);
    if maxCount <= 0 { return Ok([]); }
    if Breaks(citations, gate) { return Err(()); }
    var candidates := Candidates(citations, gate);
    var unique := CollectDistinct(candidates);
    if |unique| <= maxCount {
      PublicIsGood(citations, gate, maxCount, unique);
      PublicKinds(citations, gate, maxCount, unique);
      return Ok(unique);
    }
    var chosen := SelectIndexes(unique, maxCount);
    PublicIsGood(citations, gate, maxCount, Pick(unique, chosen));
    PublicKinds(citations, gate, maxCount, Pick(unique, chosen));
    return Ok(Pick(unique, chosen));
  }

  function KeysOf(s: seq<Citation>): set<Key> {
    if s == [] then {} else KeysOf(s[..|s| - 1]) + {KeyOf(s[|s| - 1])}
  }

  function TitlesOf(s: seq<Citation>): set<(string, string)> {
    if s == [] then {}
    else TitlesOf(s[..|s| - 1]) + if Titled(s[|s| - 1]) then {(s[|s| - 1].kind, s[|s| - 1].plain)} else {}
  }

  lemma {:induction false} ShownBySets(s: seq<Citation>, c: Citation)
    ensures Shown(s, c) <==> KeyOf(c) in KeysOf(s) || (Titled(c) && (c.kind, c.plain) in TitlesOf(s))
  {
    if s != [] {
      var front, last := s[..|s| - 1], s[|s| - 1];
      ShownBySets(front, c);
      assert Shown(s, c) <==> Shown(front, c) || Same(last, c) by {
        if Shown(front, c) {
          var i :| 0 <= i < |front| && Same(front[i], c);
          assert s[i] == front[i];
        }
        if Shown(s, c) {
          var i :| 0 <= i < |s| && Same(s[i], c);
          assert i < |front| ==> front[i] == s[i];
        }
      }
    }
  }

  lemma {:induction false} OneMore(s: seq<Citation>, c: Citation)
    ensures KeysOf(s + [c]) == KeysOf(s) + {KeyOf(c)}
    ensures TitlesOf(s + [c]) == TitlesOf(s) + if Titled(c) then {(c.kind, c.plain)} else {}
  {
    assert (s + [c])[..|s|] == s;
  }

  method CollectDistinct(candidates: seq<Citation>) returns (unique: seq<Citation>)
    ensures unique == Distinct(candidates)
  {
    unique := [];
    var seen: set<Key> := {};
    var titles: set<(string, string)> := {};
    var i := 0;
    while i < |candidates|
      invariant 0 <= i <= |candidates| && unique == Distinct(candidates[..i])
      invariant seen == KeysOf(unique) && titles == TitlesOf(unique)
    {
      var c := candidates[i];
      assert candidates[..i + 1][..i] == candidates[..i];
      ShownBySets(unique, c);
      OneMore(unique, c);
      i := i + 1;
      if Titled(c) && (c.kind, c.plain) in titles { continue; }
      if KeyOf(c) !in seen {
        seen := seen + {KeyOf(c)};
        if Titled(c) { titles := titles + {(c.kind, c.plain)}; }
        unique := unique + [c];
      }
    }
    assert candidates[..i] == candidates;
  }

  function Below(n: nat): set<nat> { if n == 0 then {} else Below(n - 1) + {n - 1} }

  lemma {:induction false} BelowAre(n: nat)
    ensures |Below(n)| == n && forall j: nat :: j in Below(n) <==> j < n
  {
    if n > 0 { BelowAre(n - 1); }
  }

  /** The first citation of each kind, until there is no more room. */
  method CollectFirsts(unique: seq<Citation>, max: nat) returns (chosen: set<nat>, ghost index: nat)
    requires 0 < max
    ensures index <= |unique| && chosen == Firsts(unique, index) && |chosen| <= max
    ensures |chosen| < max ==> index == |unique|
  {
    chosen, index := {}, 0;
    var kinds: set<string> := {};
    var i := 0;
    while i < |unique| && |chosen| < max
      invariant 0 <= i <= |unique| && chosen == Firsts(unique, i) && |chosen| <= max
      invariant kinds == KindsOf(unique[..i])
    {
      assert unique[..i + 1][..i] == unique[..i];
      FirstsMore(unique, i);
      if unique[i].kind !in kinds {
        chosen := chosen + {i};
        kinds := kinds + {unique[i].kind};
      }
      i := i + 1;
    }
    index := i;
  }

  /** The earliest others, while there is room among the first `n` places. */
  method FillUp(firsts: set<nat>, n: nat, max: nat) returns (chosen: set<nat>, ghost next: nat)
    requires |firsts| <= max
    ensures next <= n && chosen == firsts + Below(next) && |chosen| <= max
    ensures next < n ==> |chosen| == max
    ensures |firsts| == max ==> next == 0
  {
    chosen := firsts;
    var i := 0;
    while i < n && |chosen| < max
      invariant 0 <= i <= n && |chosen| <= max && chosen == firsts + Below(i)
      invariant |firsts| == max ==> i == 0
    {
      assert firsts + Below(i + 1) == firsts + Below(i) + {i};
      chosen := chosen + {i};
      i := i + 1;
    }
    next := i;
  }

  method SelectIndexes(unique: seq<Citation>, max: nat) returns (chosen: set<nat>)
    requires 0 < max < |unique|
    ensures Selects(unique, max, chosen)
  {
    var firsts;
    ghost var index, next;
    firsts, index := CollectFirsts(unique, max);
    chosen, next := FillUp(firsts, |unique|, max);
    if |firsts| == max {
      FirstsEnough(unique, index, max);
      assert chosen == firsts;
    } else {
      FillsUp(unique, next, max);
    }
  }

  function KindsOf(s: seq<Citation>): set<string> {
    if s == [] then {} else KindsOf(s[..|s| - 1]) + {s[|s| - 1].kind}
  }

  lemma {:induction false} KindsMember(s: seq<Citation>, k: string)
    ensures k in KindsOf(s) <==> exists j :: 0 <= j < |s| && s[j].kind == k
  {
    if s != [] {
      KindsMember(s[..|s| - 1], k);
      assert forall j :: 0 <= j < |s| - 1 ==> s[..|s| - 1][j] == s[j];
    }
  }

  lemma {:induction false} FirstsMore(s: seq<Citation>, n: nat)
    requires n < |s|
    ensures Firsts(s, n + 1) == Firsts(s, n) + if FirstOfKind(s, n) then {n} else {}
    ensures FirstOfKind(s, n) <==> s[n].kind !in KindsOf(s[..n])
  {
    KindsMember(s[..n], s[n].kind);
  }

  lemma {:induction false} FirstsEnough(s: seq<Citation>, n: nat, max: nat)
    requires n <= |s| && |Firsts(s, n)| == max
    ensures Selects(s, max, Firsts(s, n))
  {
  }

  lemma {:induction false} FillsUp(s: seq<Citation>, next: nat, max: nat)
    requires next <= |s| && max < |s| && |Firsts(s, |s|) + Below(next)| <= max
    requires next < |s| ==> |Firsts(s, |s|) + Below(next)| == max
    ensures Selects(s, max, Firsts(s, |s|) + Below(next))
  {
    BelowAre(next);
    BelowAre(|s|);
    assert Firsts(s, |s|) + Below(|s|) == Below(|s|);
  }

  // ---- What the choice guarantees ----

  /** No two show the same thing. */
  ghost predicate AllDifferent(s: seq<Citation>) {
    forall i, j :: 0 <= i < j < |s| ==> !Same(s[i], s[j])
  }

  /** `Distinct` keeps no two of a kind, and each citation has a representative in it. */
  lemma {:induction false} DistinctRepresents(s: seq<Citation>)
    ensures AllDifferent(Distinct(s))
    ensures forall c :: c in s ==> Shown(Distinct(s), c)
    ensures forall c :: c in Distinct(s) ==> c in s
  {
    if s != [] {
      var front, last := s[..|s| - 1], s[|s| - 1];
      DistinctRepresents(front);
      var before, after := Distinct(front), Distinct(s);
      assert Shown(after, last) by { if after != before { assert Same(after[|before|], last); } }
      forall c | c in s ensures Shown(after, c) {
        if c != last {
          assert c in front;
          var i :| 0 <= i < |before| && Same(before[i], c);
          assert after[i] == before[i];
        }
      }
    }
  }

  /** Where the citations of a choice come from. */
  function Places(n: nat, chosen: set<nat>): seq<nat> {
    if n == 0 then [] else Places(n - 1, chosen) + if n - 1 in chosen then [n - 1] else []
  }

  ghost predicate PlacesOf(r: seq<nat>, n: nat, chosen: set<nat>) {
    && (forall i :: 0 <= i < |r| ==> r[i] < n && r[i] in chosen)
    && (forall i, j :: 0 <= i < j < |r| ==> r[i] < r[j])
    && (forall i: nat :: i < n && i in chosen ==> i in r)
  }

  lemma {:induction false} PlacesAre(n: nat, chosen: set<nat>)
    ensures PlacesOf(Places(n, chosen), n, chosen)
  {
    if n > 0 {
      PlacesAre(n - 1, chosen);
      var before, after := Places(n - 1, chosen), Places(n, chosen);
      forall i: nat | i < n && i in chosen ensures i in after {
        if i < n - 1 { assert i in before; }
      }
    }
  }

  lemma {:induction false} PickPlaces(s: seq<Citation>, chosen: set<nat>)
    ensures PlacesOf(Places(|s|, chosen), |s|, chosen)
    ensures Follow(Pick(s, chosen), s, Places(|s|, chosen))
  {
    PlacesAre(|s|, chosen);
    if s != [] {
      var front := s[..|s| - 1];
      PickPlaces(front, chosen);
      FollowMore(Pick(front, chosen), front, Places(|front|, chosen), s[|s| - 1]);
      assert front + [s[|s| - 1]] == s;
    }
  }

  /** `r` holds the elements of `s` at the given places. */
  ghost predicate Follow(r: seq<Citation>, s: seq<Citation>, places: seq<nat>) {
    |r| == |places| && forall i :: 0 <= i < |r| ==> places[i] < |s| && r[i] == s[places[i]]
  }

  lemma {:induction false} FollowMore(r: seq<Citation>, s: seq<Citation>, places: seq<nat>, c: Citation)
    requires Follow(r, s, places)
    ensures Follow(r, s + [c], places) && Follow(r + [c], s + [c], places + [|s|])
  {
  }

  lemma {:induction false} OneChosenMore(n: nat, chosen: set<nat>)
    ensures |chosen * Below(n + 1)| == |chosen * Below(n)| + if n in chosen then 1 else 0
  {
    BelowAre(n);
    if n in chosen {
      assert chosen * Below(n + 1) == chosen * Below(n) + {n};
    } else {
      assert chosen * Below(n + 1) == chosen * Below(n);
    }
  }

  lemma {:induction false} OnePlaceMore(n: nat, chosen: set<nat>)
    ensures |Places(n + 1, chosen)| == |Places(n, chosen)| + if n in chosen then 1 else 0
  {
  }

  lemma {:induction false} PlacesCount(n: nat, chosen: set<nat>)
    ensures |Places(n, chosen)| == |chosen * Below(n)|
  {
    if n > 0 {
      PlacesCount(n - 1, chosen);
      OnePlaceMore(n - 1, chosen);
      OneChosenMore(n - 1, chosen);
    } else {
      assert chosen * Below(0) == {};
    }
  }

  function Least(a: nat, b: nat): nat { if a < b then a else b }

  lemma {:induction false} FirstsCount(s: seq<Citation>, n: nat)
    requires n <= |s|
    ensures |Firsts(s, n)| == |KindsOf(s[..n])|
  {
    if n > 0 {
      FirstsCount(s, n - 1);
      FirstsMore(s, n - 1);
      assert s[..n][..n - 1] == s[..n - 1];
      assert s[..n][|s[..n]| - 1] == s[n - 1];
      assert KindsOf(s[..n]) == KindsOf(s[..n - 1]) + {s[n - 1].kind};
      if FirstOfKind(s, n - 1) {
        assert n - 1 !in Firsts(s, n - 1);
        assert |KindsOf(s[..n - 1]) + {s[n - 1].kind}| == |KindsOf(s[..n - 1])| + 1;
      } else {
        assert KindsOf(s[..n - 1]) + {s[n - 1].kind} == KindsOf(s[..n - 1]);
        assert Firsts(s, n) == Firsts(s, n - 1);
      }
    }
  }

  /** The kinds at some places. */
  function KindsAt(s: seq<Citation>, places: set<nat>): set<string>
    requires forall i :: i in places ==> i < |s|
  {
    set i | i in places :: s[i].kind
  }

  lemma {:induction false} FirstKindsDiffer(s: seq<Citation>, places: set<nat>)
    requires places <= Firsts(s, |s|)
    ensures |KindsAt(s, places)| == |places|
    decreases |places|
  {
    if places != {} {
      var i :| i in places;
      var rest := places - {i};
      FirstKindsDiffer(s, rest);
      assert KindsAt(s, places) == KindsAt(s, rest) + {s[i].kind};
      forall j | j in rest ensures s[j].kind != s[i].kind {
        assert FirstOfKind(s, i) && FirstOfKind(s, j);
      }
    }
  }

  lemma {:induction false} PickKinds(s: seq<Citation>, chosen: set<nat>)
    requires forall i :: i in chosen ==> i < |s|
    ensures KindsOf(Pick(s, chosen)) == KindsAt(s, chosen)
    ensures KindsAt(s, chosen) <= KindsOf(s)
  {
    PickPlaces(s, chosen);
    var r := Pick(s, chosen);
    var places := Places(|s|, chosen);
    forall k ensures k in KindsOf(r) <==> k in KindsAt(s, chosen) {
      KindsMember(r, k);
      if k in KindsAt(s, chosen) {
        var i :| i in chosen && s[i].kind == k;
        var j :| 0 <= j < |places| && places[j] == i;
        assert r[j].kind == k;
      }
    }
    forall k | k in KindsAt(s, chosen) ensures k in KindsOf(s) { KindsMember(s, k); }
  }

  // ---- Quality order ----

  /** Best first. */
  ghost predicate InOrder(s: seq<Citation>) { forall i, j :: 0 <= i < j < |s| ==> !Better(s[j], s[i]) }

  /** Best first among the citations that are not supplemental. */
  ghost predicate PrimaryInOrder(s: seq<Citation>) {
    forall i, j :: 0 <= i < j < |s| && !Supplemental(s[i]) && !Supplemental(s[j]) ==> !Better(s[j], s[i])
  }

  lemma {:induction false} NotBetterChain(a: Citation, b: Citation, c: Citation)
    requires !Better(c, b) && !Better(b, a)
    ensures !Better(c, a)
  {
  }

  lemma {:induction false} LastBag(s: seq<Citation>, front: seq<Citation>, last: Citation)
    requires s == front + [last]
    ensures multiset(s) == multiset(front) + multiset{last}
  {
  }

  lemma {:induction false} PlaceSame(s: seq<Citation>, c: Citation)
    ensures multiset(Place(s, c)) == multiset(s) + multiset{c}
  {
    if s != [] && Better(c, s[|s| - 1]) {
      var front, last := s[..|s| - 1], s[|s| - 1];
      PlaceSame(front, c);
      LastBag(s, front, last);
      LastBag(Place(s, c), Place(front, c), last);
    }
  }

  lemma {:induction false} PlaceMembers(s: seq<Citation>, c: Citation, x: Citation)
    requires x in Place(s, c)
    ensures x == c || x in s
  {
    PlaceSame(s, c);
    assert x in multiset(s) + multiset{c};
  }

  lemma {:induction false} PlaceInOrder(s: seq<Citation>, c: Citation)
    requires InOrder(s)
    ensures InOrder(Place(s, c))
  {
    if s == [] {
    } else if !Better(c, s[|s| - 1]) {
      forall i | 0 <= i < |s| ensures !Better(c, s[i]) {
        if i < |s| - 1 { NotBetterChain(s[i], s[|s| - 1], c); }
      }
    } else {
      var front, last := s[..|s| - 1], s[|s| - 1];
      PlaceInOrder(front, c);
      var placed := Place(front, c);
      forall i | 0 <= i < |placed| ensures !Better(last, placed[i]) {
        PlaceMembers(front, c, placed[i]);
      }
    }
  }

  lemma {:induction false} RankedInOrder(s: seq<Citation>)
    ensures InOrder(Ranked(s))
  {
    if s != [] {
      RankedInOrder(s[..|s| - 1]);
      PlaceInOrder(Ranked(s[..|s| - 1]), s[|s| - 1]);
    }
  }

  lemma {:induction false} RankedSame(s: seq<Citation>)
    ensures multiset(Ranked(s)) == multiset(s)
  {
    if s != [] {
      var front, last := s[..|s| - 1], s[|s| - 1];
      RankedSame(front);
      PlaceSame(Ranked(front), last);
      LastBag(s, front, last);
    }
  }

  lemma {:induction false} RankedMembers(s: seq<Citation>, c: Citation)
    ensures c in Ranked(s) <==> c in s
  {
    RankedSame(s);
    assert c in Ranked(s) <==> c in multiset(Ranked(s));
  }

  lemma {:induction false} ThoseMembers(s: seq<Citation>, supplemental: bool)
    ensures forall c :: c in Those(s, supplemental) <==> c in s && Supplemental(c) == supplemental
  {
    if s != [] {
      ThoseMembers(s[..|s| - 1], supplemental);
      assert s == s[..|s| - 1] + [s[|s| - 1]];
    }
  }

  lemma {:induction false} WorseLast(s: seq<Citation>, c: Citation)
    requires InOrder(s) && forall x :: x in s ==> !Better(c, x)
    ensures InOrder(s + [c])
  {
  }

  lemma {:induction false} ThoseInOrder(s: seq<Citation>)
    requires InOrder(s)
    ensures InOrder(Those(s, false))
  {
    if s != [] {
      var front := s[..|s| - 1];
      ThoseInOrder(front);
      ThoseMembers(front, false);
      forall c | c in Those(front, false) ensures !Better(s[|s| - 1], c) {
        var i :| 0 <= i < |front| && front[i] == c;
        assert s[i] == c;
      }
      WorseLast(Those(front, false), s[|s| - 1]);
      assert Those(front, false) + [] == Those(front, false);
    }
  }

  lemma {:induction false} ArrangedInOrder(s: seq<Citation>)
    requires InOrder(s)
    ensures PrimaryInOrder(Arranged(s)) && forall c :: c in Arranged(s) <==> c in s
  {
    var extra, primary := Those(s, true), Those(s, false);
    ThoseInOrder(s);
    ThoseMembers(s, true);
    ThoseMembers(s, false);
    if extra != [] && primary != [] {
      Inserted(primary, extra, if |primary| < 2 then |primary| else 2);
    }
  }

  lemma {:induction false} InsertedAt(primary: seq<Citation>, extra: seq<Citation>, k: nat, i: nat)
    requires k <= |primary| && i < |primary| + |extra|
    ensures var all := primary[..k] + extra + primary[k..];
            if i < k then all[i] == primary[i]
            else if i < k + |extra| then all[i] in extra
            else all[i] == primary[i - |extra|]
  {
  }

  lemma {:induction false} Inserted(primary: seq<Citation>, extra: seq<Citation>, k: nat)
    requires k <= |primary| && InOrder(primary) && forall c :: c in extra ==> Supplemental(c)
    ensures PrimaryInOrder(primary[..k] + extra + primary[k..])
    ensures forall c :: c in primary[..k] + extra + primary[k..] <==> c in primary || c in extra
  {
    var all := primary[..k] + extra + primary[k..];
    forall i, j | 0 <= i < j < |all| && !Supplemental(all[i]) && !Supplemental(all[j]) ensures !Better(all[j], all[i]) {
      var a := if i < k then i else i - |extra|;
      var b := if j < k then j else j - |extra|;
      InsertedAt(primary, extra, k, i);
      InsertedAt(primary, extra, k, j);
      assert all[i] == primary[a] && all[j] == primary[b];
    }
    assert primary == primary[..k] + primary[k..];
  }

  lemma {:induction false} KeepMembers(s: seq<Citation>, g: Gate)
    ensures forall c :: c in Keep(s, g) <==> c in s && Eligible(c, g)
  {
    if s != [] {
      KeepMembers(s[..|s| - 1], g);
      assert s == s[..|s| - 1] + [s[|s| - 1]];
    }
  }

  /** The candidates are exactly the eligible citations; with a gate, the best come first. */
  lemma {:induction false} CandidatesAre(s: seq<Citation>, gate: Option<Gate>)
    ensures forall c :: c in Candidates(s, gate) <==> c in s && (gate.Some? ==> Eligible(c, gate.value))
    ensures gate.Some? ==> PrimaryInOrder(Candidates(s, gate))
  {
    if gate.Some? {
      var kept := Keep(s, gate.value);
      KeepMembers(s, gate.value);
      RankedInOrder(kept);
      forall c ensures c in Ranked(kept) <==> c in kept { RankedMembers(kept, c); }
      ArrangedInOrder(Ranked(kept));
    }
  }

  lemma {:induction false} DistinctInOrder(s: seq<Citation>)
    requires PrimaryInOrder(s)
    ensures PrimaryInOrder(Distinct(s))
  {
    if s != [] {
      var front := s[..|s| - 1];
      DistinctInOrder(front);
      DistinctRepresents(front);
      forall c | c in Distinct(front) && !Supplemental(c) && !Supplemental(s[|s| - 1]) ensures !Better(s[|s| - 1], c) {
        var i :| 0 <= i < |front| && front[i] == c;
        assert s[i] == c;
      }
    }
  }

  lemma {:induction false} DistinctKinds(s: seq<Citation>)
    ensures KindsOf(Distinct(s)) == KindsOf(s)
  {
    if s != [] {
      var front, last := s[..|s| - 1], s[|s| - 1];
      DistinctKinds(front);
      var before := Distinct(front);
      if Shown(before, last) {
        var i :| 0 <= i < |before| && Same(before[i], last);
        KindsMember(before, last.kind);
      } else {
        assert (before + [last])[..|before|] == before;
      }
    }
  }

  // ---- The same in numbers, names and texts ----

  ghost predicate CertainlyExact(c: Citation) {
    c.kind in {"mcp_tool", "swagger", "log_trace"} || (c.retrieval.Facts? && c.retrieval.exact)
  }

  function Rerank(c: Citation): Score { if c.retrieval.Facts? then c.retrieval.rerank else Lowest }

  function Fusion(c: Citation): real { if c.retrieval.Facts? then c.retrieval.fusion else 0.0 }

  function Rank(c: Citation): int { if c.retrieval.Facts? then c.retrieval.rank else 1000000 }

  /** `a` may stand before `b`: exact ones first, then the higher rerank score (a missing one last), then
      the higher fusion score, then the smaller rank. */
  ghost predicate MayPrecede(a: Citation, b: Citation) {
    if CertainlyExact(a) != CertainlyExact(b) then CertainlyExact(a)
    else
      match (Rerank(a), Rerank(b))
      case (Lowest, Score(_)) => false
      case (Score(_), Lowest) => true
      case (Score(x), Score(y)) => x > y || (x == y && NoWorseFused(a, b))
      case (Lowest, Lowest) => NoWorseFused(a, b)
  }

  ghost predicate NoWorseFused(a: Citation, b: Citation) {
    Fusion(a) > Fusion(b) || (Fusion(a) == Fusion(b) && Rank(a) <= Rank(b))
  }

  /** Through the gate: code and documents that are not exact need their score. */
  ghost predicate Passes(c: Citation, gate: Option<Gate>) {
    gate.None? || c.kind !in {"code", "product_document"} || CertainlyExact(c)
    || if c.retrieval.Facts? && c.retrieval.rerankApplied
       then Rerank(c).Score? && Rerank(c).value >= gate.value.minRerank
       else Fusion(c) >= gate.value.minRrf
  }

  function FirstText(a: Option<string>, b: Option<string>): Option<string> {
    match a case Some(text) => (if |text| > 0 then a else b) case None => b
  }

  /** Both show the same place, or both have the same title. */
  ghost predicate ShowSame(a: Citation, b: Citation) {
    a.kind == b.kind
    && if a.kind == "code" then
         (a.plain == b.plain != "")
         || (a.branch == b.branch && FirstText(a.relativePath, a.path) == FirstText(b.relativePath, b.path)
             && FirstText(a.symbolName, a.symbol) == FirstText(b.symbolName, b.symbol))
       else if a.kind == "product_document" then
         (a.plain == b.plain != "")
         || (a.sourceId == b.sourceId && FirstText(a.relativePath, a.path) == FirstText(b.relativePath, b.path)
             && FirstText(a.heading, Some(a.title)) == FirstText(b.heading, Some(b.title)))
       else a.id == b.id
  }

  ghost predicate Extra(c: Citation) { c.retrieval.Facts? && c.retrieval.supplemental }

  lemma {:induction false} BetterInNumbers(a: Citation, b: Citation)
    ensures !Better(b, a) <==> MayPrecede(a, b)
  {
  }

  lemma {:induction false} SameInTexts(a: Citation, b: Citation)
    ensures Same(a, b) <==> ShowSame(a, b)
  {
  }

  lemma {:induction false} EligibleInNumbers(c: Citation, g: Gate)
    ensures Eligible(c, g) <==> Passes(c, Some(g))
  {
  }

  /** What the reader gets: no more than fit, no two the same, each one from the run and through the gate,
      and all that pass are shown unless the room is used up; as many kinds as fit; with a gate the best
      come first, apart from supplemental ones. */
  ghost predicate Good(citations: seq<Citation>, gate: Option<Gate>, max: nat, r: seq<Citation>) {
    && |r| <= max
    && (forall c :: c in r ==> c in citations && Passes(c, gate))
    && (forall i, j :: 0 <= i < j < |r| ==> !ShowSame(r[i], r[j]))
    && (|r| < max ==> forall c :: c in citations && Passes(c, gate) ==> exists i :: 0 <= i < |r| && ShowSame(r[i], c))
    && (gate.Some? ==>
          forall i, j :: 0 <= i < j < |r| && !Extra(r[i]) && !Extra(r[j]) ==> MayPrecede(r[i], r[j]))
  }

  ghost predicate HasKind(r: seq<Citation>, kind: string) { exists i :: 0 <= i < |r| && r[i].kind == kind }

  ghost predicate OwnKinds(r: seq<Citation>) { forall i, j :: 0 <= i < j < |r| ==> r[i].kind != r[j].kind }

  /** All the kinds that pass the gate are there, or each citation is of its own kind and the room is used
      up. */
  ghost predicate GoodKinds(citations: seq<Citation>, gate: Option<Gate>, max: nat, r: seq<Citation>) {
    || (forall c :: c in citations && Passes(c, gate) ==> HasKind(r, c.kind))
    || (|r| == max && OwnKinds(r))
  }

  ghost predicate Counted(candidates: seq<Citation>, max: nat, r: seq<Citation>) {
    |r| == Least(max, |Distinct(candidates)|) && |KindsOf(r)| == Least(max, |KindsOf(candidates)|)
  }

  lemma {:induction false} PickedKinds(unique: seq<Citation>, max: nat, chosen: set<nat>)
    requires Selects(unique, max, chosen) && max < |unique|
    ensures |KindsOf(Pick(unique, chosen))| == Least(max, |KindsOf(unique)|)
  {
    var firsts := Firsts(unique, |unique|);
    assert unique[..|unique|] == unique;
    FirstsCount(unique, |unique|);
    PickKinds(unique, chosen);
    if chosen <= firsts {
      FirstKindsDiffer(unique, chosen);
      SubsetSize(chosen, firsts);
    } else {
      FirstKindsDiffer(unique, firsts);
      SubsetSize(firsts, chosen);
      SubsetSize(KindsAt(unique, firsts), KindsAt(unique, chosen));
      SubsetSize(KindsAt(unique, chosen), KindsOf(unique));
    }
  }

  lemma {:induction false} PickedGood(unique: seq<Citation>, max: nat, chosen: set<nat>)
    requires Selects(unique, max, chosen) && max < |unique| && AllDifferent(unique)
    ensures var r := Pick(unique, chosen);
            && |r| == max && AllDifferent(r) && (forall c :: c in r ==> c in unique)
            && (PrimaryInOrder(unique) ==> PrimaryInOrder(r))
  {
    PickPlaces(unique, chosen);
    PlacesCount(|unique|, chosen);
    BelowAre(|unique|);
    assert chosen * Below(|unique|) == chosen;
  }

  lemma {:induction false} PublicCounted(citations: seq<Citation>, gate: Option<Gate>, max: nat, r: seq<Citation>)
    requires Chosen(Distinct(Candidates(citations, gate)), max, r)
    ensures Counted(Candidates(citations, gate), max, r)
  {
    var candidates := Candidates(citations, gate);
    var unique := Distinct(candidates);
    DistinctKinds(candidates);
    DistinctRepresents(candidates);
    if |unique| <= max {
      assert unique[..|unique|] == unique;
      FirstsCount(unique, |unique|);
      BelowAre(|unique|);
      SubsetSize(Firsts(unique, |unique|), Below(|unique|));
    } else {
      var chosen :| Selects(unique, max, chosen) && r == Pick(unique, chosen);
      PickedGood(unique, max, chosen);
      PickedKinds(unique, max, chosen);
    }
  }

  lemma {:induction false} PublicFrom(citations: seq<Citation>, gate: Option<Gate>, max: nat, r: seq<Citation>)
    requires Chosen(Distinct(Candidates(citations, gate)), max, r)
    ensures var unique := Distinct(Candidates(citations, gate));
            && AllDifferent(r) && (forall c :: c in r ==> c in unique) && (|r| < max ==> r == unique)
            && (gate.Some? ==> PrimaryInOrder(r))
  {
    var candidates := Candidates(citations, gate);
    var unique := Distinct(candidates);
    CandidatesAre(citations, gate);
    DistinctRepresents(candidates);
    if gate.Some? { DistinctInOrder(candidates); }
    if |unique| > max {
      var chosen :| Selects(unique, max, chosen) && r == Pick(unique, chosen);
      PickedGood(unique, max, chosen);
    }
  }

  lemma {:induction false} CandidatesPass(citations: seq<Citation>, gate: Option<Gate>, c: Citation)
    ensures c in Candidates(citations, gate) <==> c in citations && Passes(c, gate)
  {
    CandidatesAre(citations, gate);
    if gate.Some? { EligibleInNumbers(c, gate.value); }
  }

  /** The theorem about `public_citations`, for every list, limit and gate. */
  lemma {:induction false} PublicIsGood(citations: seq<Citation>, gate: Option<Gate>, max: nat, r: seq<Citation>)
    requires Chosen(Distinct(Candidates(citations, gate)), max, r)
    ensures Good(citations, gate, max, r) && Counted(Candidates(citations, gate), max, r)
  {
    var candidates := Candidates(citations, gate);
    PublicCounted(citations, gate, max, r);
    PublicFrom(citations, gate, max, r);
    DistinctRepresents(candidates);
    forall c | c in r ensures c in citations && Passes(c, gate) { CandidatesPass(citations, gate, c); }
    forall i, j | 0 <= i < j < |r| ensures !ShowSame(r[i], r[j]) { SameInTexts(r[i], r[j]); }
    if |r| < max {
      forall c | c in citations && Passes(c, gate) ensures exists i :: 0 <= i < |r| && ShowSame(r[i], c) {
        CandidatesPass(citations, gate, c);
        var i :| 0 <= i < |r| && Same(r[i], c);
        SameInTexts(r[i], c);
      }
    }
    if gate.Some? {
      forall i, j | 0 <= i < j < |r| && !Extra(r[i]) && !Extra(r[j]) ensures MayPrecede(r[i], r[j]) {
        BetterInNumbers(r[i], r[j]);
      }
    }
  }

  lemma {:induction false} BreaksInNumbers(citations: seq<Citation>, gate: Option<Gate>)
    ensures Breaks(citations, gate) <==>
              gate.Some? && exists c :: c in citations && c.retrieval.Odd? && Passes(c, gate)
  {
    if gate.Some? {
      KeepMembers(citations, gate.value);
      forall c ensures Eligible(c, gate.value) <==> Passes(c, gate) { EligibleInNumbers(c, gate.value); }
    }
  }

  /** A kind of the list has its first citation. */
  lemma {:induction false} FirstHas(s: seq<Citation>, i: nat) returns (f: nat)
    requires i < |s|
    ensures f < |s| && s[f].kind == s[i].kind && f in Firsts(s, |s|)
  {
    f := 0;
    while s[f].kind != s[i].kind
      invariant f <= i && forall j :: 0 <= j < f ==> s[j].kind != s[i].kind
      decreases i - f
    {
      f := f + 1;
    }
  }

  lemma {:induction false} PickedOwnKinds(s: seq<Citation>, chosen: set<nat>)
    requires chosen <= Firsts(s, |s|)
    ensures OwnKinds(Pick(s, chosen))
  {
    PickPlaces(s, chosen);
    var r, places := Pick(s, chosen), Places(|s|, chosen);
    forall i, j | 0 <= i < j < |r| ensures r[i].kind != r[j].kind {
      assert FirstOfKind(s, places[j]);
    }
  }

  lemma {:induction false} PickedAllKinds(s: seq<Citation>, chosen: set<nat>, i: nat)
    requires (forall c :: c in chosen ==> c < |s|) && Firsts(s, |s|) <= chosen && i < |s|
    ensures HasKind(Pick(s, chosen), s[i].kind)
  {
    var f := FirstHas(s, i);
    PickPlaces(s, chosen);
    var places := Places(|s|, chosen);
    var k :| 0 <= k < |places| && places[k] == f;
    assert Pick(s, chosen)[k].kind == s[i].kind;
  }

  lemma {:induction false} ChosenKinds(unique: seq<Citation>, max: nat, chosen: set<nat>, kind: string)
    requires max < |unique| && Selects(unique, max, chosen) && AllDifferent(unique) && HasKind(unique, kind)
    ensures var r := Pick(unique, chosen); HasKind(r, kind) || (|r| == max && OwnKinds(r))
  {
    PickedGood(unique, max, chosen);
    if chosen <= Firsts(unique, |unique|) {
      PickedOwnKinds(unique, chosen);
    } else {
      var i :| 0 <= i < |unique| && unique[i].kind == kind;
      PickedAllKinds(unique, chosen, i);
    }
  }

  lemma {:induction false} KindKept(citations: seq<Citation>, gate: Option<Gate>, c: Citation)
    requires c in citations && Passes(c, gate)
    ensures HasKind(Distinct(Candidates(citations, gate)), c.kind)
  {
    var candidates := Candidates(citations, gate);
    CandidatesPass(citations, gate, c);
    DistinctKinds(candidates);
    KindsMember(candidates, c.kind);
    KindsMember(Distinct(candidates), c.kind);
  }

  lemma {:induction false} PublicKinds(citations: seq<Citation>, gate: Option<Gate>, max: nat, r: seq<Citation>)
    requires Chosen(Distinct(Candidates(citations, gate)), max, r)
    ensures GoodKinds(citations, gate, max, r)
  {
    var candidates := Candidates(citations, gate);
    var unique := Distinct(candidates);
    DistinctRepresents(candidates);
    forall c | c in citations && Passes(c, gate) ensures HasKind(r, c.kind) || (|r| == max && OwnKinds(r)) {
      KindKept(citations, gate, c);
      if |unique| > max {
        var chosen :| Selects(unique, max, chosen) && r == Pick(unique, chosen);
        ChosenKinds(unique, max, chosen, c.kind);
      }
    }
  }

  ghost predicate FirstKind(s: seq<Citation>, q: nat)
    requires q < |s|
  {
    forall p :: 0 <= p < q ==> s[p].kind != s[q].kind
  }

  lemma {:induction false} SamePlace(s: seq<Citation>, p: nat, q: nat)
    requires AllDifferent(s) && p < |s| && q < |s| && s[p] == s[q]
    ensures p == q
  {
    assert Same(s[p], s[q]);
  }

  lemma {:induction false} PickedPlace(s: seq<Citation>, chosen: set<nat>, q: nat)
    requires AllDifferent(s) && (forall i :: i in chosen ==> i < |s|) && q < |s|
    ensures s[q] in Pick(s, chosen) <==> q in chosen
  {
    PickPlaces(s, chosen);
    var r, places := Pick(s, chosen), Places(|s|, chosen);
    if q in chosen {
      var k :| 0 <= k < |places| && places[k] == q;
      assert r[k] == s[q];
    }
    if s[q] in r {
      var k :| 0 <= k < |r| && r[k] == s[q];
      SamePlace(s, places[k], q);
    }
  }

  /** Which of the distinct candidates are left out: a shown one behind a left out one is the first of its
      kind; and if the first of a kind is left out, only firsts of kinds before it are shown. */
  lemma {:induction false} PublicEarliest(citations: seq<Citation>, gate: Option<Gate>, max: nat, r: seq<Citation>,
                                          p: nat, q: nat)
    requires Chosen(Distinct(Candidates(citations, gate)), max, r)
    requires var unique := Distinct(Candidates(citations, gate));
             p < |unique| && q < |unique| && unique[p] !in r && unique[q] in r
    ensures var unique := Distinct(Candidates(citations, gate));
            && (p < q ==> FirstKind(unique, q))
            && (FirstKind(unique, p) ==> FirstKind(unique, q) && q < p)
  {
    var unique := Distinct(Candidates(citations, gate));
    DistinctRepresents(Candidates(citations, gate));
    if |unique| > max {
      var chosen :| Selects(unique, max, chosen) && r == Pick(unique, chosen);
      PickedPlace(unique, chosen, p);
      PickedPlace(unique, chosen, q);
      EarliestOf(unique, max, chosen, p, q);
    }
  }

  lemma {:induction false} EarliestOf(unique: seq<Citation>, max: nat, chosen: set<nat>, p: nat, q: nat)
    requires Selects(unique, max, chosen) && p < |unique| && q < |unique| && p !in chosen && q in chosen
    ensures p < q ==> FirstKind(unique, q)
    ensures FirstKind(unique, p) ==> FirstKind(unique, q) && q < p
  {
    assert forall i: nat :: i < |unique| ==> (i in Firsts(unique, |unique|) <==> FirstKind(unique, i));
  }

  // ---- What the order keeps ----

  /** Exactness, scores and rank. */
  datatype Standing = Standing(exact: bool, rerank: Score, fusion: real, rank: int)

  ghost function StandingOf(c: Citation): Standing { Standing(CertainlyExact(c), Rerank(c), Fusion(c), Rank(c)) }

  ghost function OfStanding(s: seq<Citation>, x: Standing): seq<Citation> {
    if s == [] then []
    else OfStanding(s[..|s| - 1], x) + if StandingOf(s[|s| - 1]) == x then [s[|s| - 1]] else []
  }

  lemma {:induction false} StandingAppend(s: seq<Citation>, c: Citation, x: Standing)
    ensures OfStanding(s + [c], x) == OfStanding(s, x) + if StandingOf(c) == x then [c] else []
  {
    assert (s + [c])[..|s|] == s;
  }

  lemma {:induction false} BetterStandsElsewhere(a: Citation, b: Citation)
    requires Better(a, b)
    ensures StandingOf(a) != StandingOf(b)
  {
  }

  lemma {:induction false} SwapLast(front: seq<Citation>, last: Citation, c: Citation, x: Standing)
    requires StandingOf(c) != StandingOf(last)
    ensures OfStanding(front + [c] + [last], x) == OfStanding(front + [last] + [c], x)
  {
    StandingAppend(front, c, x);
    StandingAppend(front + [c], last, x);
    StandingAppend(front, last, x);
    StandingAppend(front + [last], c, x);
    var before := OfStanding(front, x);
    assert before + [] == before;
  }

  lemma {:induction false} SameLast(a: seq<Citation>, b: seq<Citation>, last: Citation, x: Standing)
    requires OfStanding(a, x) == OfStanding(b, x)
    ensures OfStanding(a + [last], x) == OfStanding(b + [last], x)
  {
    StandingAppend(a, last, x);
    StandingAppend(b, last, x);
  }

  /** A citation is placed behind those of its standing. */
  lemma {:induction false} PlaceStable(s: seq<Citation>, c: Citation, x: Standing)
    ensures OfStanding(Place(s, c), x) == OfStanding(s + [c], x)
  {
    if s != [] && Better(c, s[|s| - 1]) {
      var front, last := s[..|s| - 1], s[|s| - 1];
      assert s == front + [last];
      BetterStandsElsewhere(c, last);
      PlaceStable(front, c, x);
      SameLast(Place(front, c), front + [c], last, x);
      SwapLast(front, last, c, x);
    }
  }

  /** The sort is stable: citations of one standing keep the order of the run. */
  lemma {:induction false} RankedStable(s: seq<Citation>, x: Standing)
    ensures OfStanding(Ranked(s), x) == OfStanding(s, x)
  {
    if s != [] {
      var front, last := s[..|s| - 1], s[|s| - 1];
      RankedStable(front, x);
      PlaceStable(Ranked(front), last, x);
      StandingAppend(Ranked(front), last, x);
    }
  }

  /** `x` stands before `y`. */
  ghost predicate Before(s: seq<Citation>, x: Citation, y: Citation) {
    exists p, q :: 0 <= p < q < |s| && s[p] == x && s[q] == y
  }

  ghost predicate InOrderOf(r: seq<Citation>, s: seq<Citation>) {
    forall i, j :: 0 <= i < j < |r| ==> Before(s, r[i], r[j])
  }

  lemma {:induction false} DistinctKeepsOrder(s: seq<Citation>)
    ensures InOrderOf(Distinct(s), s)
  {
    if s != [] {
      var front, last := s[..|s| - 1], s[|s| - 1];
      DistinctKeepsOrder(front);
      DistinctRepresents(front);
      var before, r := Distinct(front), Distinct(s);
      forall i, j | 0 <= i < j < |r| ensures Before(s, r[i], r[j]) {
        if j < |before| {
          assert Before(front, before[i], before[j]);
          var p, q :| 0 <= p < q < |front| && front[p] == before[i] && front[q] == before[j];
          assert s[p] == r[i] && s[q] == r[j];
        } else {
          assert before[i] in front;
          var p :| 0 <= p < |front| && front[p] == before[i];
          assert s[p] == r[i] && s[|s| - 1] == r[j];
        }
      }
    }
  }

  lemma {:induction false} PickKeepsOrder(unique: seq<Citation>, s: seq<Citation>, chosen: set<nat>)
    requires InOrderOf(unique, s)
    ensures InOrderOf(Pick(unique, chosen), s)
  {
    PickPlaces(unique, chosen);
    var r, places := Pick(unique, chosen), Places(|unique|, chosen);
    forall i, j | 0 <= i < j < |r| ensures Before(s, r[i], r[j]) {
      assert places[i] < places[j];
      assert Before(s, unique[places[i]], unique[places[j]]);
    }
  }

  /** The chosen citations keep the order of the candidates; without a gate, that is the order of the
      run. */
  lemma {:induction false} PublicKeepsOrder(citations: seq<Citation>, gate: Option<Gate>, max: nat, r: seq<Citation>)
    requires Chosen(Distinct(Candidates(citations, gate)), max, r)
    ensures InOrderOf(r, Candidates(citations, gate)) && (gate.None? ==> InOrderOf(r, citations))
  {
    var candidates := Candidates(citations, gate);
    var unique := Distinct(candidates);
    DistinctKeepsOrder(candidates);
    if |unique| > max {
      var chosen :| Selects(unique, max, chosen) && r == Pick(unique, chosen);
      PickKeepsOrder(unique, candidates, chosen);
    }
  }

  /** At most two others, then the supplemental ones, then the rest of the others. */
  ghost predicate ExtraThird(s: seq<Citation>, k: nat, m: nat) {
    && k <= 2 && k <= m <= |s| && (k < 2 ==> m == |s|)
    && (forall i :: 0 <= i < k ==> !Extra(s[i])) && (forall i :: k <= i < m ==> Extra(s[i]))
    && (forall i :: m <= i < |s| ==> !Extra(s[i]))
  }

  /** With a gate, supplemental candidates stand behind the two best others. */
  lemma {:induction false} SupplementalThird(citations: seq<Citation>, gate: Gate) returns (k: nat, m: nat)
    ensures ExtraThird(Candidates(citations, Some(gate)), k, m)
  {
    var s := Ranked(Keep(citations, gate));
    var extra, primary := Those(s, true), Those(s, false);
    ThoseMembers(s, true);
    ThoseMembers(s, false);
    if primary == [] {
      k, m := 0, |s|;
      forall i | 0 <= i < |s| ensures Extra(s[i]) { assert s[i] in s; }
    } else if extra == [] {
      k := if |s| < 2 then |s| else 2;
      m := k;
      forall i | 0 <= i < |s| ensures !Extra(s[i]) { assert s[i] in s; }
    } else {
      k := if |primary| < 2 then |primary| else 2;
      m := k + |extra|;
      forall i | 0 <= i < |primary| + |extra|
        ensures Extra((primary[..k] + extra + primary[k..])[i]) <==> k <= i < m
      {
        InsertedAt(primary, extra, k, i);
        assert i < k ==> primary[i] in primary;
        assert m <= i ==> primary[i - |extra|] in primary;
      }
    }
  }

  lemma {:induction false} EarlierShown(s: seq<Citation>, i: nat) returns (j: nat)
    requires i < |s|
    ensures j <= i && s[j] in Distinct(s) && Same(s[j], s[i])
  {
    var front, last := s[..|s| - 1], s[|s| - 1];
    if i < |front| {
      j := EarlierShown(front, i);
    } else if Shown(Distinct(front), last) {
      var k :| 0 <= k < |Distinct(front)| && Same(Distinct(front)[k], last);
      DistinctRepresents(front);
      assert Distinct(front)[k] in front;
      j :| 0 <= j < |front| && front[j] == Distinct(front)[k];
    } else {
      j := i;
      assert Distinct(s)[|Distinct(s)| - 1] == last;
    }
  }

  lemma {:induction false} PrimaryInNumbers(s: seq<Citation>, j: nat, i: nat)
    requires PrimaryInOrder(s) && j < i < |s|
    ensures Extra(s[j]) || Extra(s[i]) || MayPrecede(s[j], s[i])
  {
    BetterInNumbers(s[j], s[i]);
  }

  /** Before the limit, every citation that passes is shown by one that is kept: by itself, by a
      supplemental one, or, with a gate, by one that is no worse. */
  lemma {:induction false} DroppedAreShown(citations: seq<Citation>, gate: Option<Gate>, c: Citation)
    returns (x: Citation)
    requires c in citations && Passes(c, gate)
    ensures x in Distinct(Candidates(citations, gate)) && ShowSame(x, c)
    ensures gate.Some? && !Extra(c) ==> x == c || Extra(x) || MayPrecede(x, c)
  {
    var candidates := Candidates(citations, gate);
    CandidatesAre(citations, gate);
    CandidatesPass(citations, gate, c);
    var i :| 0 <= i < |candidates| && candidates[i] == c;
    var j := EarlierShown(candidates, i);
    x := candidates[j];
    SameInTexts(x, c);
    if gate.Some? && j < i { PrimaryInNumbers(candidates, j, i); }
  }
}
