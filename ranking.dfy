/** The ranker of the parts search: score every part of the catalogue,
    keep the relevant ones, apply the quality multipliers, sort by score
    then stock (stably), and return the first TOP_N parts. */
module Ranking {
  import opened Options
  import opened Text
  import opened Synonyms
  import opened Positions
  import opened Catalogue
  import opened Scoring

  /** A part with its score and its match tags (`ScoredPart`). */
  datatype Scored = Scored(part: Part, score: real, matches: seq<string>)

  /** A part with its score and tags. */
  function Entry(ctx: QueryContext, p: Part): Scored {
    Scored(p, Score(ctx, p), Tags(p))
  }

  /** `db.map(f)`, in order. */
  function MapParts(f: Part -> Scored, db: seq<Part>): (r: seq<Scored>)
    ensures |r| == |db|
  {
    if db == [] then [] else MapParts(f, db[..|db| - 1]) + [f(db[|db| - 1])]
  }

  /** `partsDatabase.map(...)`: every part with its score and tags. */
  function ScoreAll(ctx: QueryContext, db: seq<Part>): seq<Scored> {
    MapParts(p => Entry(ctx, p), db)
  }

  /** Mapping one more part appends its image. */
  lemma MapPartsStep(f: Part -> Scored, db: seq<Part>, i: nat)
    requires i < |db|
    ensures MapParts(f, db[..i + 1]) == MapParts(f, db[..i]) + [f(db[i])]
  {
    assert db[..i + 1][..i] == db[..i];
  }

  /** Every mapped entry is the image of a part. */
  lemma {:induction false} MapPartsMember(f: Part -> Scored, db: seq<Part>, s: Scored)
    requires s in MapParts(f, db)
    ensures exists k :: 0 <= k < |db| && s == f(db[k])
  {
    if db != [] {
      var init := db[..|db| - 1];
      if s in MapParts(f, init) {
        MapPartsMember(f, init, s);
        var k :| 0 <= k < |init| && s == f(init[k]);
        assert init[k] == db[k];
      } else {
        assert s == f(db[|db| - 1]);
      }
    }
  }

  /** The relevance gate: a positive score and, when the query names a main
      type, a normalised designation containing it. */
  predicate Kept(main: Option<string>, s: Scored) {
    s.score > 0.0 && (main.None? || Contains(Normalize(s.part.designation), main.value))
  }

  /** `scores.filter(...)`, in order. */
  function FilterKept(main: Option<string>, ss: seq<Scored>): (r: seq<Scored>)
    ensures |r| <= |ss|
    ensures forall s :: s in r <==> s in ss && Kept(main, s)
  {
    if ss == [] then []
    else
      var last := ss[|ss| - 1];
      var r := FilterKept(main, ss[..|ss| - 1]) + (if Kept(main, last) then [last] else []);
      assert ss == ss[..|ss| - 1] + [last];
      r
  }

  predicate Mentions(matches: seq<string>, word: string) {
    exists k :: 0 <= k < |matches| && Contains(matches[k], word)
  }

  /** The quality multipliers: 1.3 for a tag mentioning "Référence", 1.2
      for one mentioning "exact", 1.15 for three tags or more. */
  function Multiplier(matches: seq<string>): (r: real)
    ensures r >= 1.0
  {
    (if Mentions(matches, "Référence") then 1.3 else 1.0)
    * (if Mentions(matches, "exact") then 1.2 else 1.0)
    * (if |matches| >= 3 then 1.15 else 1.0)
  }

  /** `.map(...)` after the filter: the multiplied score and the tags with
      duplicates removed. */
  function Boost(s: Scored): Scored {
    Scored(s.part, s.score * Multiplier(s.matches), AddAll([], s.matches))
  }

  function BoostAll(ss: seq<Scored>): (r: seq<Scored>)
    ensures |r| == |ss|
    ensures forall i :: 0 <= i < |ss| ==> r[i] == Boost(ss[i])
  {
    seq(|ss|, i requires 0 <= i < |ss| => Boost(ss[i]))
  }

  /** The comparator `b.__score - a.__score || b.stock - a.stock` puts x
      strictly before y. */
  predicate Before(x: Scored, y: Scored) {
    x.score > y.score || (x.score == y.score && x.part.stock > y.part.stock)
  }

  /** No element is strictly before an earlier one. */
  predicate Sorted(s: seq<Scored>) {
    forall i, j :: 0 <= i < j < |s| ==> !Before(s[j], s[i])
  }

  /** Insert x after every element it is not strictly before. */
  function Insert(s: seq<Scored>, x: Scored): (r: seq<Scored>)
    ensures |r| == |s| + 1
  {
    if s == [] then [x]
    else
      var init, last := s[..|s| - 1], s[|s| - 1];
      if Before(x, last) then Insert(init, x) + [last] else s + [x]
  }

  /** The stable sort by the comparator, as insertion sort: the unique
      ordering a stable `Array.prototype.sort` produces. */
  function Sort(s: seq<Scored>): (r: seq<Scored>)
    ensures |r| == |s|
  {
    if s == [] then []
    else Insert(Sort(s[..|s| - 1]), s[|s| - 1])
  }

  /** Insert adds exactly x. */
  lemma {:induction false} InsertPerm(s: seq<Scored>, x: Scored)
    ensures multiset(Insert(s, x)) == multiset(s) + multiset{x}
  {
    if s != [] {
      var init, last := s[..|s| - 1], s[|s| - 1];
      assert s == init + [last];
      if Before(x, last) {
        InsertPerm(init, x);
      }
    }
  }

  /** The sort is a permutation. */
  lemma {:induction false} SortPerm(s: seq<Scored>)
    ensures multiset(Sort(s)) == multiset(s)
  {
    if s != [] {
      SortPerm(s[..|s| - 1]);
      InsertPerm(Sort(s[..|s| - 1]), s[|s| - 1]);
      assert s == s[..|s| - 1] + [s[|s| - 1]];
    }
  }

  /** Appending an element no earlier one is after keeps the order. */
  lemma SortedSnoc(s: seq<Scored>, y: Scored)
    requires Sorted(s)
    requires forall i :: 0 <= i < |s| ==> !Before(y, s[i])
    ensures Sorted(s + [y])
  {
  }

  /** Insert adds x and nothing else. */
  lemma InsertMember(s: seq<Scored>, x: Scored, y: Scored)
    requires y in Insert(s, x)
    ensures y == x || y in s
  {
    InsertPerm(s, x);
    assert y in multiset(Insert(s, x));
  }

  lemma {:induction false} InsertSorted(s: seq<Scored>, x: Scored)
    requires Sorted(s)
    ensures Sorted(Insert(s, x))
  {
    if s != [] {
      var init, last := s[..|s| - 1], s[|s| - 1];
      assert Sorted(init);
      if Before(x, last) {
        InsertSorted(init, x);
        var r := Insert(init, x);
        forall i | 0 <= i < |r|
          ensures !Before(last, r[i])
        {
          InsertMember(init, x, r[i]);
          if r[i] != x {
            var k :| 0 <= k < |init| && init[k] == r[i];
            assert s[k] == init[k];
          }
        }
        SortedSnoc(r, last);
        assert Insert(s, x) == r + [last];
      } else {
        SortedSnoc(s, x);
      }
    }
  }

  /** The sort orders by score, then by stock, both descending. */
  lemma {:induction false} SortSorted(s: seq<Scored>)
    ensures Sorted(Sort(s))
  {
    if s != [] {
      SortSorted(s[..|s| - 1]);
      InsertSorted(Sort(s[..|s| - 1]), s[|s| - 1]);
    }
  }

  /** What the comparator sees of an element. */
  function KeyOf(x: Scored): (real, int) {
    (x.score, x.part.stock)
  }

  /** The elements the comparator cannot tell from key k, in order. */
  function KeyFilter(s: seq<Scored>, k: (real, int)): seq<Scored> {
    if s == [] then []
    else KeyFilter(s[..|s| - 1], k) + (if KeyOf(s[|s| - 1]) == k then [s[|s| - 1]] else [])
  }

  lemma {:induction false} InsertStable(s: seq<Scored>, x: Scored, k: (real, int))
    ensures KeyFilter(Insert(s, x), k) == KeyFilter(s, k) + (if KeyOf(x) == k then [x] else [])
  {
    if s == [] {
      assert KeyFilter([x], k) == KeyFilter([], k) + (if KeyOf(x) == k then [x] else []) by {
        assert [x][..0] == [];
      }
    } else {
      var init, last := s[..|s| - 1], s[|s| - 1];
      if Before(x, last) {
        InsertStable(init, x, k);
        var r := Insert(init, x);
        assert (r + [last])[..|r|] == r;
        assert KeyOf(x) != KeyOf(last);
      } else {
        assert (s + [x])[..|s|] == s;
      }
    }
  }

  /** Elements the comparator calls equal keep their relative order. */
  lemma {:induction false} SortStable(s: seq<Scored>, k: (real, int))
    ensures KeyFilter(Sort(s), k) == KeyFilter(s, k)
  {
    if s != [] {
      SortStable(s[..|s| - 1], k);
      InsertStable(Sort(s[..|s| - 1]), s[|s| - 1], k);
    }
  }

  /** Insert puts x right after the last element it is not strictly
      before: at j, when x is before every element from j on and not
      before the one at j - 1. */
  lemma {:induction false} InsertAt(s: seq<Scored>, x: Scored, j: nat)
    requires j <= |s|
    requires forall k :: j <= k < |s| ==> Before(x, s[k])
    requires j == 0 || !Before(x, s[j - 1])
    ensures Insert(s, x) == s[..j] + [x] + s[j..]
  {
    if j < |s| {
      var init := s[..|s| - 1];
      assert Before(x, s[|s| - 1]);
      assert forall k :: j <= k < |init| ==> init[k] == s[k];
      assert j == 0 || init[j - 1] == s[j - 1];
      InsertAt(init, x, j);
      assert init[..j] == s[..j] && init[j..] + [s[|s| - 1]] == s[j..];
    } else if s != [] {
      assert s[..j] == s && s[j..] == [];
    }
  }

  /** The array after the insertion step, read as a sequence. */
  lemma InsertAssembled(b: seq<Scored>, sorted: seq<Scored>, x: Scored, i: nat, j: nat)
    requires |sorted| == i < |b| && j <= i && b[j] == x
    requires forall k :: 0 <= k < j ==> b[k] == sorted[k]
    requires forall k :: j < k <= i ==> b[k] == sorted[k - 1]
    ensures b[..i + 1] == sorted[..j] + [x] + sorted[j..]
  {
  }

  /** One step of the insertion sort: shifts the elements of the sorted
      prefix a[..i] that a[i] is strictly before up by one and drops a[i]
      into the gap. */
  method InsertLast(a: array<Scored>, i: nat)
    requires i < a.Length
    modifies a
    ensures a[..i + 1] == Insert(old(a[..i]), old(a[i]))
    ensures a[i + 1..] == old(a[i + 1..])
  {
    var x := a[i];
    ghost var sorted, whole := a[..i], a[..];
    var j := i;
    while j > 0 && Before(x, a[j - 1])
      invariant 0 <= j <= i
      invariant forall k :: 0 <= k < j ==> a[k] == sorted[k]
      invariant forall k :: j < k <= i ==> a[k] == sorted[k - 1]
      invariant forall k :: i < k < a.Length ==> a[k] == whole[k]
      invariant forall k :: j <= k < i ==> Before(x, sorted[k])
    {
      a[j] := a[j - 1];
      j := j - 1;
    }
    InsertAt(sorted, x, j);
    a[j] := x;
    InsertAssembled(a[..], sorted, x, i, j);
    SameTail(a[..], whole, i + 1);
  }

  /** Two sequences of one length that agree from n on have equal tails. */
  lemma SameTail(b: seq<Scored>, c: seq<Scored>, n: nat)
    requires |b| == |c| && n <= |b|
    requires forall k :: n <= k < |b| ==> b[k] == c[k]
    ensures b[n..] == c[n..]
  {
    assert forall k :: 0 <= k < |b| - n ==> b[n..][k] == c[n..][k];
  }

  /** The sort of one more element inserts it into the sort of the rest. */
  lemma SortStep(s: seq<Scored>, i: nat)
    requires i < |s|
    ensures Sort(s[..i + 1]) == Insert(Sort(s[..i]), s[i])
  {
    assert s[..i + 1][..i] == s[..i];
  }

  /** `filtered.sort(...)` in place, as an insertion sort that shifts the
      elements strictly after the new one up by one. */
  method SortInPlace(a: array<Scored>)
    modifies a
    ensures a[..] == Sort(old(a[..]))
  {
    ghost var input := a[..];
    for i := 0 to a.Length
      invariant a[..i] == Sort(input[..i])
      invariant a[i..] == input[i..]
    {
      SortStep(input, i);
      ghost var rest := a[i..];
      assert a[i] == rest[0] == input[i];
      InsertLast(a, i);
      assert a[i + 1..] == rest[1..];
    }
    assert input[..a.Length] == input;
    assert a[..] == a[..a.Length];
  }

  /** The words whose presence in the expanded set makes a query specific. */
  const PositionWords: seq<string> := [
    "avant", "arriere", "arrière", "av", "ar", "gauche", "droite", "g", "d",
    "conducteur", "passager", "superieur", "inferieur", "interieur", "exterieur"]

  /** How many of words lie in the expanded set. */
  function CountIn(words: seq<string>, expanded: seq<string>): nat {
    if words == [] then 0
    else CountIn(words[..|words| - 1], expanded) + (if words[|words| - 1] in expanded then 1 else 0)
  }

  function Max(x: int, y: int): int {
    if x < y then y else x
  }

  /** `TOP_N`: `Math.max(2, specificity)` with a specificity of 3 for a
      query naming two positions or more, 5 otherwise. */
  function TopN(expanded: seq<string>): (r: int)
    ensures r == 3 || r == 5
  {
    Max(2, if CountIn(PositionWords, expanded) >= 2 then 3 else 5)
  }

  /** `Math.max(2, ...)` never binds: TOP_N is 3 or 5. */
  lemma TopNValues(expanded: seq<string>)
    ensures TopN(expanded) == 3 <==> CountIn(PositionWords, expanded) >= 2
    ensures TopN(expanded) == 5 <==> CountIn(PositionWords, expanded) < 2
  {
  }

  /** Two different listed words present count at least two. */
  lemma {:induction false} CountTwo(words: seq<string>, expanded: seq<string>, i: nat, j: nat)
    requires i < j < |words| && words[i] in expanded && words[j] in expanded
    ensures CountIn(words, expanded) >= 2
  {
    var init := words[..|words| - 1];
    if j < |words| - 1 {
      CountTwo(init, expanded, i, j);
    } else {
      CountOne(init, expanded, i);
    }
  }

  lemma {:induction false} CountOne(words: seq<string>, expanded: seq<string>, i: nat)
    requires i < |words| && words[i] in expanded
    ensures CountIn(words, expanded) >= 1
  {
    if i < |words| - 1 {
      CountOne(words[..|words| - 1], expanded, i);
    }
  }

  /** Kept, multiplied and sorted. */
  function Ranked(ctx: QueryContext, db: seq<Part>): seq<Scored> {
    Sort(BoostAll(FilterKept(ctx.main, ScoreAll(ctx, db))))
  }

  function Parts(ss: seq<Scored>): (r: seq<Part>)
    ensures |r| == |ss|
    ensures forall i :: 0 <= i < |ss| ==> r[i] == ss[i].part
  {
    seq(|ss|, i requires 0 <= i < |ss| => ss[i].part)
  }

  /** The first TOP_N parts of the ranking (all of them if fewer). */
  function Answer(ctx: QueryContext, db: seq<Part>): seq<Part> {
    var ranked := Ranked(ctx, db);
    var n := if TopN(ctx.expanded) < |ranked| then TopN(ctx.expanded) else |ranked|;
    Parts(ranked[..n])
  }

  /** `searchParts(query, model)`, with the two catalogues as parameters. */
  function Search(query: string, model: Option<Model>, spresso: seq<Part>, celerio: seq<Part>): seq<Part> {
    if |Tokenize(query)| == 0 then []
    else Answer(MakeContext(query, model), Database(model, spresso, celerio))
  }

  /** `partsDatabase.map(...)` as a loop over the catalogue. */
  method ScoreCatalogue(ctx: QueryContext, db: seq<Part>) returns (scores: seq<Scored>)
    ensures scores == ScoreAll(ctx, db)
  {
    scores := [];
    for i := 0 to |db|
      invariant scores == ScoreAll(ctx, db[..i])
    {
      MapPartsStep(p => Entry(ctx, p), db, i);
      var score, matches := ScorePart(ctx, db[i]);
      scores := scores + [Scored(db[i], score, matches)];
    }
    assert db[..|db|] == db;
  }

  /** The sorted copy of the survivors, sorted in an array of their own. */
  method SortedCopy(filtered: seq<Scored>) returns (sorted: seq<Scored>)
    ensures sorted == Sort(filtered)
  {
    var a := new Scored[|filtered|](i requires 0 <= i < |filtered| => filtered[i]);
    assert a[..] == filtered;
    SortInPlace(a);
    sorted := a[..];
  }

  /** Score, filter and multiply, sort in place and keep the first TOP_N. */
  method RankAndTake(ctx: QueryContext, db: seq<Part>) returns (result: seq<Part>)
    ensures result == Answer(ctx, db)
  {
    var scores := ScoreCatalogue(ctx, db);
    var ranked := SortedCopy(BoostAll(FilterKept(ctx.main, scores)));
    var topN := TopN(ctx.expanded);
    var n := if topN < |ranked| then topN else |ranked|;
    result := Parts(ranked[..n]);
  }

  /** The search as the source runs it: tokenise and expand, choose the
      catalogue, stop on an empty query, then rank. */
  method SearchParts(query: string, model: Option<Model>, spresso: seq<Part>, celerio: seq<Part>)
    returns (result: seq<Part>)
    ensures result == Search(query, model, spresso, celerio)
  {
    var rawTokens := Tokenize(query);
    var expanded := ExpandQuery(Table, rawTokens);
    var database := Database(model, spresso, celerio);
    if |rawTokens| == 0 {
      return [];
    }
    var ctx := QueryContext(rawTokens, expanded, MainPartType(rawTokens), Normalize(query), model,
      Wants(rawTokens, expanded));
    assert ctx == MakeContext(query, model);
    result := RankAndTake(ctx, database);
  }

  /** The multipliers for the scorer's own tags: "Référence" and "exact"
      never occur in them, so only the three-tag multiplier can apply. */
  lemma TagMultiplier(p: Part)
    ensures Multiplier(Tags(p)) == if |Tags(p)| >= 3 then 1.15 else 1.0
  {
    TagsNameOnlyTypes(p);
  }

  /** A scored entry is a catalogue part with its own score. */
  lemma ScoreAllMember(ctx: QueryContext, db: seq<Part>, s: Scored)
    requires s in ScoreAll(ctx, db)
    ensures s.part in db && s.score == Score(ctx, s.part)
  {
    MapPartsMember(p => Entry(ctx, p), db, s);
  }

  /** A ranked entry is the boost of a survivor of the gate. */
  lemma RankedMember(main: Option<string>, ss: seq<Scored>, x: Scored)
    requires x in Sort(BoostAll(FilterKept(main, ss)))
    ensures exists s :: s in ss && Kept(main, s) && x == Boost(s)
  {
    var kept := FilterKept(main, ss);
    SortPerm(BoostAll(kept));
    assert x in multiset(BoostAll(kept));
    var j :| 0 <= j < |kept| && BoostAll(kept)[j] == x;
    assert kept[j] in kept;
  }

  /** Every ranked part comes from the catalogue and passed the gate. */
  lemma AnswerKeepsRelevant(ctx: QueryContext, db: seq<Part>, p: Part)
    requires p in Answer(ctx, db)
    ensures p in db
    ensures Score(ctx, p) > 0.0
    ensures ctx.main.Some? ==> Contains(Normalize(p.designation), ctx.main.value)
  {
    var ranked := Ranked(ctx, db);
    var n := if TopN(ctx.expanded) < |ranked| then TopN(ctx.expanded) else |ranked|;
    var i :| 0 <= i < n && ranked[i].part == p;
    RankedMember(ctx.main, ScoreAll(ctx, db), ranked[i]);
    var s :| s in ScoreAll(ctx, db) && Kept(ctx.main, s) && ranked[i] == Boost(s);
    ScoreAllMember(ctx, db, s);
  }

  /** The multipliers are at least 1, so every ranked entry keeps a
      positive final score, no lower than its score before them. */
  lemma RankedPositive(main: Option<string>, ss: seq<Scored>, x: Scored)
    requires x in Sort(BoostAll(FilterKept(main, ss)))
    ensures x.score > 0.0
    ensures exists s :: s in ss && s.part == x.part && 0.0 < s.score <= x.score
  {
    RankedMember(main, ss, x);
    var s :| s in ss && Kept(main, s) && x == Boost(s);
    BoostRaises(s);
  }

  /** A multiplier of 1 or more does not lower a positive score. */
  lemma BoostRaises(s: Scored)
    requires s.score > 0.0
    ensures Boost(s).score >= s.score
  {
    var m := Multiplier(s.matches);
    assert s.score * m == s.score + s.score * (m - 1.0);
    assert s.score * (m - 1.0) >= 0.0;
  }

  /** Every result is a part of the searched catalogue that passed the
      gate: positive score and, for a query naming a main type, a
      designation containing it. */
  lemma SearchKeepsRelevant(query: string, model: Option<Model>, spresso: seq<Part>, celerio: seq<Part>, p: Part)
    requires p in Search(query, model, spresso, celerio)
    ensures p in Database(model, spresso, celerio)
    ensures Score(MakeContext(query, model), p) > 0.0
    ensures MainPartType(Tokenize(query)).Some? ==>
      Contains(Normalize(p.designation), MainPartType(Tokenize(query)).value)
  {
    AnswerKeepsRelevant(MakeContext(query, model), Database(model, spresso, celerio), p);
  }

  /** The gate only removes entries. */
  lemma RankedLength(main: Option<string>, ss: seq<Scored>)
    ensures |Sort(BoostAll(FilterKept(main, ss)))| <= |ss|
  {
  }

  /** At most TOP_N parts and no more than the catalogue. */
  lemma AnswerBounds(ctx: QueryContext, db: seq<Part>)
    ensures |Answer(ctx, db)| <= TopN(ctx.expanded) <= 5
    ensures |Answer(ctx, db)| <= |db|
  {
    TopNValues(ctx.expanded);
    RankedLength(ctx.main, ScoreAll(ctx, db));
  }

  /** The result holds at most TOP_N parts (3 or 5) and no more than the
      catalogue; the empty query gives nothing. */
  lemma SearchBounds(query: string, model: Option<Model>, spresso: seq<Part>, celerio: seq<Part>)
    ensures |Search(query, model, spresso, celerio)| <= TopN(Expand(Tokenize(query))) <= 5
    ensures |Search(query, model, spresso, celerio)| <= |Database(model, spresso, celerio)|
    ensures query == [] ==> Search(query, model, spresso, celerio) == []
  {
    TopNValues(Expand(Tokenize(query)));
    AnswerBounds(MakeContext(query, model), Database(model, spresso, celerio));
  }

  /** The parts come out in the ranking's order: the ranking is sorted by
      score then stock, is a permutation of the boosted survivors, and keeps
      the catalogue order among parts the comparator cannot tell apart. */
  lemma RankingOrder(ctx: QueryContext, db: seq<Part>, k: (real, int))
    ensures Sorted(Ranked(ctx, db))
    ensures multiset(Ranked(ctx, db)) == multiset(BoostAll(FilterKept(ctx.main, ScoreAll(ctx, db))))
    ensures KeyFilter(Ranked(ctx, db), k) == KeyFilter(BoostAll(FilterKept(ctx.main, ScoreAll(ctx, db))), k)
  {
    SortSorted(BoostAll(FilterKept(ctx.main, ScoreAll(ctx, db))));
    SortPerm(BoostAll(FilterKept(ctx.main, ScoreAll(ctx, db))));
    SortStable(BoostAll(FilterKept(ctx.main, ScoreAll(ctx, db))), k);
  }

  /** An expanded set holding both "avant" and "av" names two positions. */
  lemma SpecificTopThree(expanded: seq<string>)
    requires "avant" in expanded && "av" in expanded
    ensures TopN(expanded) == 3
  {
    assert PositionWords[0] == "avant" && PositionWords[3] == "av";
    CountTwo(PositionWords, expanded, 0, 3);
  }

  /** A query with the token "avant" asks for a front part: its own entry
      brings in "av" as well, two position words, so TOP_N is 3. */
  lemma FrontQueryTopThree(query: string, i: nat)
    requires i < |Tokenize(query)| && Tokenize(query)[i] == "avant"
    ensures TopN(Expand(Tokenize(query))) == 3
  {
    AvantBringsAv(Tokenize(query), i);
    SpecificTopThree(Expand(Tokenize(query)));
  }
}
