/** The relevance score of one part for one query: the main part type,
    the type-weight boosts, the reference, all-tokens-present, positional,
    prefix, vehicle-type, expanded-token, model and stock terms, and the
    `Type courant` tags collected along the way. */
module Scoring {
  import opened Options
  import opened Text
  import opened Synonyms
  import opened Positions
  import opened Catalogue

  /** `typeWeights`, in declaration order. */
  const TypeWeights: seq<(string, real)> := [
    ("filtre", 1.2), ("huile", 1.2), ("frein", 1.3), ("plaquette", 1.3),
    ("amortisseur", 1.5), ("courroie", 1.25), ("batterie", 1.2),
    ("phare", 1.15), ("lampe", 1.15), ("joint", 1.1), ("moteur", 1.1)]

  /** One of the keys of `typeWeights`. */
  predicate IsTypeKey(t: string) {
    exists k :: 0 <= k < |TypeWeights| && TypeWeights[k].0 == t
  }

  /** `mainPartType`: the first query token that is a type key. */
  function MainPartType(raw: seq<string>): (r: Option<string>)
    ensures r.Some? ==> IsTypeKey(r.value)
    ensures r.Some? ==> exists i :: 0 <= i < |raw| && raw[i] == r.value && forall j :: 0 <= j < i ==> !IsTypeKey(raw[j])
    ensures r.None? <==> forall i :: 0 <= i < |raw| ==> !IsTypeKey(raw[i])
  {
    if raw == [] then None
    else if IsTypeKey(raw[0]) then Some(raw[0])
    else
      var r := MainPartType(raw[1..]);
      assert forall i :: 1 <= i < |raw| ==> raw[i] == raw[1..][i - 1];
      r
  }

  /** What the scorer knows about the query, computed once per search. */
  datatype QueryContext = QueryContext(
    raw: seq<string>, expanded: seq<string>, main: Option<string>,
    rawNorm: string, model: Option<Model>, wants: Axes)

  function MakeContext(query: string, model: Option<Model>): QueryContext {
    var raw := Tokenize(query);
    var expanded := Expand(raw);
    QueryContext(raw, expanded, MainPartType(raw), Normalize(query), model, Wants(raw, expanded))
  }

  /** The wrong-type penalty. */
  function TypePenalty(main: Option<string>, designation: string): real {
    if main.Some? && !Contains(designation, main.value) then -500.0 else 0.0
  }

  /** The boost of the i-th type weight: 150 times the weight for the main
      type, 15 times it for any other type the designation contains. */
  function TypeBoostAt(designation: string, main: Option<string>, i: nat): real
    requires i < |TypeWeights|
  {
    var (key, weight) := TypeWeights[i];
    if Contains(designation, key) then (if main == Some(key) then 150.0 else 15.0) * weight else 0.0
  }

  /** The type boosts of the first n type weights. */
  function TypeBoost(designation: string, main: Option<string>, n: nat): (r: real)
    requires n <= |TypeWeights|
    ensures r >= 0.0
  {
    if n == 0 then 0.0 else TypeBoost(designation, main, n - 1) + TypeBoostAt(designation, main, n - 1)
  }

  /** The `Type courant: <type>` tags of the first n type weights. */
  function TypeTags(designation: string, n: nat): (r: seq<string>)
    requires n <= |TypeWeights|
    ensures |r| <= n
    ensures forall m :: m in r ==> exists k :: 0 <= k < n && m == "Type courant: " + TypeWeights[k].0 && Contains(designation, TypeWeights[k].0)
    ensures forall k :: 0 <= k < n && Contains(designation, TypeWeights[k].0) ==> "Type courant: " + TypeWeights[k].0 in r
    ensures NoDup(r)
  {
    if n == 0 then []
    else
      var key := TypeWeights[n - 1].0;
      var earlier := TypeTags(designation, n - 1);
      if Contains(designation, key) then
        var tag := "Type courant: " + key;
        assert tag !in earlier by {
          if tag in earlier {
            var k :| 0 <= k < n - 1 && tag == "Type courant: " + TypeWeights[k].0;
            TagNamesKey(k, n - 1);
          }
        }
        earlier + [tag]
      else earlier
  }

  /** Tags of two different type keys differ. */
  lemma TagNamesKey(k: nat, l: nat)
    requires k < l < |TypeWeights|
    ensures "Type courant: " + TypeWeights[k].0 != "Type courant: " + TypeWeights[l].0
  {
    var prefix := "Type courant: ";
    assert (prefix + TypeWeights[k].0)[|prefix|..] == TypeWeights[k].0;
    assert (prefix + TypeWeights[l].0)[|prefix|..] == TypeWeights[l].0;
  }

  /** `/[a-z0-9]{5,}/i` matched at i: five ASCII letters or digits. */
  predicate AlnumRun(t: string, i: nat)
    requires i + 5 <= |t|
  {
    var run := t[i..i + 5];
    forall k :: 0 <= k < 5 ==> ('a' <= run[k] <= 'z' || 'A' <= run[k] <= 'Z' || '0' <= run[k] <= '9')
  }

  /** A token that looks like (part of) a reference. */
  predicate RefLike(t: string) {
    exists i :: 0 <= i && i + 5 <= |t| && AlnumRun(t, i)
  }

  /** The first reference-like query token. */
  function FirstRefLike(raw: seq<string>): (r: Option<string>)
    ensures r.Some? ==> r.value in raw && RefLike(r.value)
    ensures r.Some? ==> exists i :: 0 <= i < |raw| && raw[i] == r.value && forall j :: 0 <= j < i ==> !RefLike(raw[j])
    ensures r.None? <==> forall i :: 0 <= i < |raw| ==> !RefLike(raw[i])
  {
    if raw == [] then None
    else if RefLike(raw[0]) then Some(raw[0])
    else
      var r := FirstRefLike(raw[1..]);
      assert forall i :: 1 <= i < |raw| ==> raw[i] == raw[1..][i - 1];
      r
  }

  /** The reference terms: an exact match, a containing match and a match
      on the first reference-like token. */
  function ReferenceTerm(rawNorm: string, raw: seq<string>, ref: string): real {
    (if rawNorm != [] && ref == rawNorm then 1000.0 else 0.0)
    + (if rawNorm != [] && Contains(ref, rawNorm) then 450.0 else 0.0)
    + (match FirstRefLike(raw)
       case Some(t) => if Contains(ref, t) then 120.0 else 0.0
       case None => 0.0)
  }

  /** Every query token is a substring of some designation token. */
  predicate AllPresent(raw: seq<string>, tokens: seq<string>) {
    forall i :: 0 <= i < |raw| ==> exists k :: 0 <= k < |tokens| && Contains(tokens[k], raw[i])
  }

  /** The all-tokens-present term with its proximity bonus. */
  function AllPresentTerm(raw: seq<string>, tokens: seq<string>): real {
    if AllPresent(raw, tokens) then 220.0 + (if Contains(Join(tokens), Join(raw)) then 90.0 else 0.0) else 0.0
  }

  /** The first three characters of a token, or all of a shorter one. */
  function Prefix3(q: string): string {
    q[..if |q| < 3 then |q| else 3]
  }

  /** One query token's prefix and vehicle-type bonuses. */
  function TokenBonus(q: string, tokens: seq<string>, vtype: string): real {
    (if Prefix3(q) != [] && exists k :: 0 <= k < |tokens| && Prefix3(q) <= tokens[k] then 25.0 else 0.0)
    + (if Contains(vtype, q) then 60.0 else 0.0)
  }

  /** The prefix and vehicle-type bonuses of the first n query tokens. */
  function PrefixTerm(raw: seq<string>, tokens: seq<string>, vtype: string, n: nat): (r: real)
    requires n <= |raw|
    ensures 0.0 <= r <= 85.0 * n as real
  {
    if n == 0 then 0.0 else PrefixTerm(raw, tokens, vtype, n - 1) + TokenBonus(raw[n - 1], tokens, vtype)
  }

  /** 18 for each of the first n expanded tokens the designation contains. */
  function ExpandedTerm(expanded: seq<string>, designation: string, n: nat): (r: real)
    requires n <= |expanded|
    ensures 0.0 <= r <= 18.0 * n as real
  {
    if n == 0 then 0.0
    else ExpandedTerm(expanded, designation, n - 1) + (if Contains(designation, expanded[n - 1]) then 18.0 else 0.0)
  }

  /** The model affinity: +80 for the selected model, -50 for the other
      single model, nothing for a part fitting both. */
  function ModelTerm(model: Option<Model>, partModel: Model): real {
    (if model.Some? && partModel == model.value then 80.0 else 0.0)
    - (if model.Some? && partModel != model.value && partModel != Both then 50.0 else 0.0)
  }

  function StockTerm(stock: int): real {
    if stock > 0 then 8.0 else 0.0
  }

  /** The relevance score of a part, before the quality multipliers. */
  function Score(ctx: QueryContext, p: Part): real {
    var designation := Normalize(p.designation);
    var tokens := Tokenize(p.designation);
    TypePenalty(ctx.main, designation)
    + TypeBoost(designation, ctx.main, |TypeWeights|)
    + ReferenceTerm(ctx.rawNorm, ctx.raw, Normalize(p.reference))
    + AllPresentTerm(ctx.raw, tokens)
    + PositionTerm(ctx.wants, Markers(p.designation))
    + PrefixTerm(ctx.raw, tokens, Normalize(p.vehicleType), |ctx.raw|)
    + ExpandedTerm(ctx.expanded, designation, |ctx.expanded|)
    + ModelTerm(ctx.model, p.model)
    + StockTerm(p.stock)
  }

  /** The match tags of a part. */
  function Tags(p: Part): seq<string> {
    TypeTags(Normalize(p.designation), |TypeWeights|)
  }

  /** The per-part scorer, section by section in source order; each
      section returns what it adds to the running score. */
  method ScorePart(ctx: QueryContext, part: Part) returns (score: real, matches: seq<string>)
    ensures score == Score(ctx, part)
    ensures matches == Tags(part)
  {
    var ref := Normalize(part.reference);
    var vtype := Normalize(part.vehicleType);
    var designation := Normalize(part.designation);
    var designationTokens := Tokenize(part.designation);
    score, matches := TypePoints(ctx.main, designation);
    var points := ReferencePoints(ctx.rawNorm, ctx.raw, ref);
    score := score + points;
    points := AllPresentPoints(ctx.raw, designationTokens);
    score := score + points;
    points := Positioned(ctx.wants, Markers(part.designation));
    score := score + points;
    points := TokenPoints(ctx.raw, designationTokens, vtype);
    score := score + points;
    points := ExpandedPoints(ctx.expanded, designation);
    score := score + points;
    points := ModelAndStockPoints(ctx.model, part);
    score := score + points;
  }

  /** The wrong-type penalty, then one boost and one tag per type weight
      the designation contains. */
  method TypePoints(main: Option<string>, designation: string) returns (score: real, matches: seq<string>)
    ensures score == TypePenalty(main, designation) + TypeBoost(designation, main, |TypeWeights|)
    ensures matches == TypeTags(designation, |TypeWeights|)
  {
    matches := [];
    score := 0.0;
    if main.Some? && !Contains(designation, main.value) {
      score := score - 500.0;
    }
    for n := 0 to |TypeWeights|
      invariant score == TypePenalty(main, designation) + TypeBoost(designation, main, n)
      invariant matches == TypeTags(designation, n)
    {
      var (key, weight) := TypeWeights[n];
      if Contains(designation, key) {
        var baseScore := if main == Some(key) then 150.0 else 15.0;
        score := score + baseScore * weight;
        matches := matches + ["Type courant: " + key];
      }
    }
  }

  method ReferencePoints(rawNorm: string, raw: seq<string>, ref: string) returns (points: real)
    ensures points == ReferenceTerm(rawNorm, raw, ref)
  {
    points := 0.0;
    if rawNorm != [] && ref == rawNorm {
      points := points + 1000.0;
    }
    if rawNorm != [] && Contains(ref, rawNorm) {
      points := points + 450.0;
    }
    var refToken := FirstRefLike(raw);
    if refToken.Some? && Contains(ref, refToken.value) {
      points := points + 120.0;
    }
  }

  method AllPresentPoints(raw: seq<string>, tokens: seq<string>) returns (points: real)
    ensures points == AllPresentTerm(raw, tokens)
  {
    points := 0.0;
    if AllPresent(raw, tokens) {
      points := points + 220.0;
      if Contains(Join(tokens), Join(raw)) {
        points := points + 90.0;
      }
    }
  }

  method TokenPoints(raw: seq<string>, tokens: seq<string>, vtype: string) returns (points: real)
    ensures points == PrefixTerm(raw, tokens, vtype, |raw|)
  {
    points := 0.0;
    for n := 0 to |raw|
      invariant points == PrefixTerm(raw, tokens, vtype, n)
    {
      var q := raw[n];
      var q3 := Prefix3(q);
      if q3 != [] && exists k :: 0 <= k < |tokens| && q3 <= tokens[k] {
        points := points + 25.0;
      }
      if Contains(vtype, q) {
        points := points + 60.0;
      }
    }
  }

  method ExpandedPoints(expanded: seq<string>, designation: string) returns (points: real)
    ensures points == ExpandedTerm(expanded, designation, |expanded|)
  {
    points := 0.0;
    for n := 0 to |expanded|
      invariant points == ExpandedTerm(expanded, designation, n)
    {
      if Contains(designation, expanded[n]) {
        points := points + 18.0;
      }
    }
  }

  method ModelAndStockPoints(model: Option<Model>, part: Part) returns (points: real)
    ensures points == ModelTerm(model, part.model) + StockTerm(part.stock)
  {
    points := 0.0;
    if model.Some? && part.model == model.value {
      points := points + 80.0;
    }
    if model.Some? && part.model != model.value && part.model != Both {
      points := points - 50.0;
    }
    if part.stock > 0 {
      points := points + 8.0;
    }
  }

  /** The main type's own boost: a designation containing the main type
      earns at least 150 times its weight. */
  lemma {:induction false} MainTypeBoost(designation: string, main: Option<string>, n: nat, idx: nat)
    requires idx < n <= |TypeWeights|
    requires main == Some(TypeWeights[idx].0) && Contains(designation, TypeWeights[idx].0)
    ensures TypeBoost(designation, main, n) >= 150.0 * TypeWeights[idx].1
  {
    if idx < n - 1 {
      MainTypeBoost(designation, main, n - 1, idx);
      assert TypeBoostAt(designation, main, n - 1) >= 0.0;
    }
  }

  /** The type terms for a query naming a main type: -500 for a part whose
      designation lacks it; no penalty and at least 150 times its weight
      for a part whose designation has it. */
  lemma MainTypeTerms(designation: string, raw: seq<string>, idx: nat)
    requires idx < |TypeWeights| && MainPartType(raw) == Some(TypeWeights[idx].0)
    ensures !Contains(designation, TypeWeights[idx].0) ==> TypePenalty(MainPartType(raw), designation) == -500.0
    ensures Contains(designation, TypeWeights[idx].0) ==>
      TypePenalty(MainPartType(raw), designation) == 0.0
      && TypeBoost(designation, MainPartType(raw), |TypeWeights|) >= 150.0 * TypeWeights[idx].1
  {
    if Contains(designation, TypeWeights[idx].0) {
      MainTypeBoost(designation, MainPartType(raw), |TypeWeights|, idx);
    }
  }

  /** The reference terms for a query: nothing when the query normalises to
      ""; for a reference containing the normalised query, 450, plus 1000
      when it is that query exactly, plus 120 when a token looks like a
      reference (it is then contained too); otherwise at most the 120. */
  lemma ReferenceMatch(query: string, ref: string)
    ensures Normalize(query) == [] ==> ReferenceTerm(Normalize(query), Tokenize(query), ref) == 0.0
    ensures Normalize(query) != [] && Contains(ref, Normalize(query)) ==>
      ReferenceTerm(Normalize(query), Tokenize(query), ref) ==
        (if ref == Normalize(query) then 1000.0 else 0.0) + 450.0
        + (if FirstRefLike(Tokenize(query)).Some? then 120.0 else 0.0)
    ensures !Contains(ref, Normalize(query)) ==>
      0.0 <= ReferenceTerm(Normalize(query), Tokenize(query), ref) <= 120.0
  {
    var rawNorm, raw := Normalize(query), Tokenize(query);
    TokenizeEmpty(query);
    TokensInNormalized(query);
    match FirstRefLike(raw) {
      case Some(t) =>
        if Contains(ref, rawNorm) {
          ContainsTransitive(ref, rawNorm, t);
        }
      case None =>
    }
    if ref == rawNorm {
      assert rawNorm <= ref[0..];
    }
  }

  /** A part whose reference is exactly the normalised query outscores the
      same part with a reference not containing it by at least 1450. */
  lemma ExactReferenceLeads(query: string, ctx: QueryContext, p: Part, other: string)
    requires ctx.raw == Tokenize(query) && ctx.rawNorm == Normalize(query)
    requires Normalize(query) != [] && Normalize(p.reference) == Normalize(query)
    requires !Contains(Normalize(other), Normalize(query))
    ensures Score(ctx, p) >= Score(ctx, p.(reference := other)) + 1450.0
  {
    assert Contains(Normalize(p.reference), Normalize(query)) by {
      assert Normalize(query) <= Normalize(p.reference)[0..];
    }
    ReferenceMatch(query, Normalize(p.reference));
    ReferenceMatch(query, Normalize(other));
  }

  /** The model terms: with a single model selected, a part of that model
      scores 130 more than the same part of the other model and 80 more than
      one fitting both; without a selection the model does not matter. */
  lemma ModelAffinity(ctx: QueryContext, p: Part, m: Model)
    ensures ctx.model.Some? && ctx.model.value != Both && m != Both && m != ctx.model.value ==>
      Score(ctx, p.(model := ctx.model.value)) == Score(ctx, p.(model := m)) + 130.0
      && Score(ctx, p.(model := ctx.model.value)) == Score(ctx, p.(model := Both)) + 80.0
    ensures ctx.model == Some(Both) && m != Both ==>
      Score(ctx, p.(model := Both)) == Score(ctx, p.(model := m)) + 130.0
    ensures ctx.model.None? ==> Score(ctx, p.(model := m)) == Score(ctx, p)
  {
  }

  /** A query of punctuation only normalises to "" but still has the one
      token "": it is contained in every designation token and in every
      vehicle type, so every part with a non-empty designation collects
      220 + 90 for "all tokens present" and every part 60 for the vehicle
      type, while no reference term fires. */
  lemma PunctuationOnlyQuery(query: string, p: Part)
    requires query != [] && Normalize(query) == []
    ensures Tokenize(query) == [[]]
    ensures ReferenceTerm(Normalize(query), Tokenize(query), Normalize(p.reference)) == 0.0
    ensures AllPresentTerm(Tokenize(query), Tokenize(p.designation)) == if p.designation == [] then 0.0 else 310.0
    ensures PrefixTerm(Tokenize(query), Tokenize(p.designation), Normalize(p.vehicleType), 1) == 60.0
  {
    TokenizeEmpty(query);
    ReferenceMatch(query, Normalize(p.reference));
    EmptyTokenPresent(p.designation);
    EmptyTokenBonus(Tokenize(p.designation), Normalize(p.vehicleType));
  }

  lemma EmptyTokenPresent(designation: string)
    ensures AllPresentTerm([[]], Tokenize(designation)) == if designation == [] then 0.0 else 310.0
  {
    TokenizeEmpty(designation);
    var tokens := Tokenize(designation);
    assert Join([[]]) == [];
    if designation != [] {
      assert Contains(tokens[0], []) by {
        assert [] <= tokens[0][0..];
      }
      assert AllPresent([[]], tokens);
      assert Contains(Join(tokens), []) by {
        assert [] <= Join(tokens)[0..];
      }
    }
  }

  lemma EmptyTokenBonus(tokens: seq<string>, vtype: string)
    ensures PrefixTerm([[]], tokens, vtype, 1) == 60.0
  {
    assert Prefix3([]) == [];
    assert Contains(vtype, []) by {
      assert [] <= vtype[0..];
    }
  }

  /** No type key holds an 'x' or an 'é'. */
  lemma KeysAreUnaccented(k: nat)
    requires k < |TypeWeights|
    ensures 'x' !in TypeWeights[k].0 && 'é' !in TypeWeights[k].0
  {
  }

  /** A tag names a type key and nothing else: it holds neither an 'x'
      nor an 'é', so it mentions neither "exact" nor "Référence". */
  lemma TagMentionsNoMatchKind(k: nat)
    requires k < |TypeWeights|
    ensures !Contains("Type courant: " + TypeWeights[k].0, "Référence")
    ensures !Contains("Type courant: " + TypeWeights[k].0, "exact")
  {
    var m := "Type courant: " + TypeWeights[k].0;
    KeysAreUnaccented(k);
    assert 'x' !in "Type courant: " && 'é' !in "Type courant: ";
    assert 'x' !in m && 'é' !in m;
    assert "exact"[1] == 'x' && "Référence"[1] == 'é';
    if Contains(m, "exact") {
      ContainedChars(m, "exact");
      assert false;
    }
    if Contains(m, "Référence") {
      ContainedChars(m, "Référence");
      assert false;
    }
  }

  /** No tag of any part mentions "Référence" or "exact". */
  lemma TagsNameOnlyTypes(p: Part)
    ensures forall m :: m in Tags(p) ==> !Contains(m, "Référence") && !Contains(m, "exact")
  {
    var tags := Tags(p);
    forall m | m in tags
      ensures !Contains(m, "Référence") && !Contains(m, "exact")
    {
      var k :| 0 <= k < |TypeWeights| && m == "Type courant: " + TypeWeights[k].0;
      TagMentionsNoMatchKind(k);
    }
  }
}
