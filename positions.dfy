/** The positional matcher of the parts search: the `wants*` intents read
    off the query and the `has*` markers read off a part's designation, on
    four axes (front/rear, left/right, upper/lower, interior/exterior), and
    the score term that compares the two. */
module Positions {
  import opened Text

  /** One flag per position: a query's intents or a designation's markers. */
  datatype Axes = Axes(
    front: bool, rear: bool, left: bool, right: bool,
    upper: bool, lower: bool, inner: bool, outer: bool)

  /** The alternatives of the positional regular expressions. */
  const Sides: seq<string> := ["droite", "gauche", "d", "g"]
  const Fronts: seq<string> := ["avant", "av"]
  const Rears: seq<string> := ["arriere", "arrière", "ar"]
  const Lengthwise: seq<string> := ["avant", "av", "arriere", "arrière", "ar"]
  const Lefts: seq<string> := ["gauche", "g"]
  const Rights: seq<string> := ["droite", "d"]

  /** The class `[\s-]`. */
  predicate IsSeparator(c: char) {
    IsSpace(c) || c == '-'
  }

  predicate AllSeparators(s: string) {
    forall k :: 0 <= k < |s| ==> IsSeparator(s[k])
  }

  predicate EndsWithOne(s: string, alts: seq<string>) {
    exists k :: 0 <= k < |alts| && |alts[k]| <= |s| && s[|s| - |alts[k]|..] == alts[k]
  }

  predicate StartsWithOne(s: string, alts: seq<string>) {
    exists k :: 0 <= k < |alts| && alts[k] <= s
  }

  /** `/(l1|l2|...)[\s-]+(r1|r2|...)/.test(t)` on lower-case text: an unanchored
      match is a left alternative ending at i, a non-empty run of
      separators from i to j, and a right alternative starting at j. */
  predicate Adjacent(t: string, lefts: seq<string>, rights: seq<string>) {
    exists i, j :: 0 <= i < j <= |t| && EndsWithOne(t[..i], lefts) && AllSeparators(t[i..j]) && StartsWithOne(t[j..], rights)
  }

  /** The two alternated patterns of one detector: either word order. */
  predicate EitherOrder(t: string, xs: seq<string>, ys: seq<string>) {
    Adjacent(t, xs, ys) || Adjacent(t, ys, xs)
  }

  /** JavaScript's `\w`: ASCII letters, digits and '_'. */
  predicate IsWordChar(c: char) {
    'a' <= c <= 'z' || 'A' <= c <= 'Z' || '0' <= c <= '9' || c == '_'
  }

  function AsciiLower(c: char): char {
    if 'A' <= c <= 'Z' then (c as int + 32) as char else c
  }

  /** The lower-case ASCII word w occurs at i, ignoring ASCII case. */
  predicate MatchesAt(t: string, i: nat, w: string)
    requires i + |w| <= |t|
  {
    forall k :: 0 <= k < |w| ==> AsciiLower(t[i + k]) == w[k]
  }

  /** `/\bW\b/i.test(t)` for a word W of ASCII letters. */
  predicate StandaloneWord(t: string, w: string) {
    exists i :: 0 <= i && i + |w| <= |t| && MatchesAt(t, i, w)
      && (i == 0 || !IsWordChar(t[i - 1]))
      && (i + |w| == |t| || !IsWordChar(t[i + |w|]))
  }

  predicate AnyIn(words: seq<string>, expanded: seq<string>) {
    exists k :: 0 <= k < |words| && words[k] in expanded
  }

  /** The `wants*` intents: a listed word in the expanded token set, or (for
      the four horizontal positions) a regular-expression match on the raw
      tokens joined by spaces and lower-cased. */
  function Wants(raw: seq<string>, expanded: seq<string>): Axes {
    var text := Lower(Join(raw));
    Axes(
      front := AnyIn(["avant", "av"], expanded) || EitherOrder(text, Sides, Fronts),
      rear := AnyIn(["arriere", "arrière", "ar"], expanded) || EitherOrder(text, Sides, Rears),
      left := AnyIn(["gauche", "g", "conducteur"], expanded) || EitherOrder(text, Lengthwise, Lefts),
      right := AnyIn(["droite", "d", "passager"], expanded) || EitherOrder(text, Lengthwise, Rights),
      upper := AnyIn(["superieur", "supérieur"], expanded),
      lower := AnyIn(["inferieur", "inférieur"], expanded),
      inner := AnyIn(["interieur", "intérieur"], expanded),
      outer := AnyIn(["exterieur", "extérieur"], expanded))
  }

  /** Alternatives that `toLowerCase` leaves alone. */
  predicate LowerCase(alts: seq<string>) {
    forall k :: 0 <= k < |alts| ==> Lower(alts[k]) == alts[k]
  }

  lemma AlternativesAreLowerCase()
    ensures LowerCase(Sides) && LowerCase(Fronts) && LowerCase(Rears)
    ensures LowerCase(Lefts) && LowerCase(Rights) && LowerCase(Lengthwise)
  {
    assert forall c :: 'a' <= c <= 'z' ==> LowerChar(c) == c;
    assert LowerChar('è') == 'è';
  }

  /** Lower-casing keeps a lower-case alternative at the end. */
  lemma EndsLower(s: string, alts: seq<string>)
    requires LowerCase(alts) && EndsWithOne(s, alts)
    ensures EndsWithOne(Lower(s), alts)
  {
    var k :| 0 <= k < |alts| && |alts[k]| <= |s| && s[|s| - |alts[k]|..] == alts[k];
    var l := alts[k];
    assert s == s[..|s| - |l|] + l;
    LowerConcat(s[..|s| - |l|], l);
    assert Lower(s)[|Lower(s)| - |l|..] == l;
  }

  /** Lower-casing keeps a lower-case alternative at the start. */
  lemma StartsLower(s: string, alts: seq<string>)
    requires LowerCase(alts) && StartsWithOne(s, alts)
    ensures StartsWithOne(Lower(s), alts)
  {
    var k :| 0 <= k < |alts| && alts[k] <= s;
    var r := alts[k];
    assert s == r + s[|r|..];
    LowerConcat(r, s[|r|..]);
  }

  /** Text ending in a left alternative, one space, then text starting with
      a right alternative matches the pattern. */
  lemma SpaceAdjacent(a: string, b: string, lefts: seq<string>, rights: seq<string>)
    requires LowerCase(lefts) && LowerCase(rights)
    requires EndsWithOne(a, lefts) && StartsWithOne(b, rights)
    ensures Adjacent(Lower(a + " " + b), lefts, rights)
  {
    EndsLower(a, lefts);
    StartsLower(b, rights);
    LowerConcat(a + " ", b);
    LowerConcat(a, " ");
    var t, la, lb := Lower(a + " " + b), Lower(a), Lower(b);
    assert t == la + " " + lb;
    assert t[..|la|] == la && t[|la|..|la| + 1] == " " && t[|la| + 1..] == lb;
    assert IsSeparator(t[|la|]);
  }

  /** Two neighbouring query tokens, the first ending in a left alternative
      and the next starting with a right one, match the pattern on the
      joined query: the single space between them is the `[\s-]+` run. */
  lemma TokensAdjacent(raw: seq<string>, i: nat, lefts: seq<string>, rights: seq<string>)
    requires i + 1 < |raw| && LowerCase(lefts) && LowerCase(rights)
    requires EndsWithOne(raw[i], lefts) && StartsWithOne(raw[i + 1], rights)
    ensures Adjacent(Lower(Join(raw)), lefts, rights)
  {
    var a, b := Join(raw[..i + 1]), Join(raw[i + 1..]);
    JoinAt(raw, i);
    JoinEnds(raw[..i + 1]);
    JoinEnds(raw[i + 1..]);
    assert raw[..i + 1][i] == raw[i] && raw[i + 1..][0] == raw[i + 1];
    var kl :| 0 <= kl < |lefts| && |lefts[kl]| <= |raw[i]| && raw[i][|raw[i]| - |lefts[kl]|..] == lefts[kl];
    assert a[|a| - |lefts[kl]|..] == lefts[kl];
    var kr :| 0 <= kr < |rights| && rights[kr] <= raw[i + 1];
    assert rights[kr] <= b;
    SpaceAdjacent(a, b, lefts, rights);
  }

  /** A side word (or a token ending like one) followed by a front word (or
      a token starting like one) makes the query want front parts, whatever
      the synonym expansion holds. */
  lemma SideThenFront(raw: seq<string>, expanded: seq<string>, i: nat)
    requires i + 1 < |raw| && EndsWithOne(raw[i], Sides) && StartsWithOne(raw[i + 1], Fronts)
    ensures Wants(raw, expanded).front
  {
    AlternativesAreLowerCase();
    TokensAdjacent(raw, i, Sides, Fronts);
  }

  /** So "grand avion" wants front parts: "d" ends "grand" and "av" starts
      "avion". */
  lemma GrandAvionWantsFront(expanded: seq<string>)
    ensures Wants(["grand", "avion"], expanded).front
  {
    assert Sides[2] == "d" && "grand"[4..] == "d";
    assert Fronts[1] == "av" && "av" <= "avion";
    SideThenFront(["grand", "avion"], expanded, 0);
  }

  /** Some designation token equals `exact` or contains one of `parts`. */
  predicate TokenMarks(tokens: seq<string>, exact: string, parts: seq<string>) {
    exists k :: 0 <= k < |tokens| && (tokens[k] == exact || exists m :: 0 <= m < |parts| && Contains(tokens[k], parts[m]))
  }

  predicate TokenHas(tokens: seq<string>, parts: seq<string>) {
    exists k, m :: 0 <= k < |tokens| && 0 <= m < |parts| && Contains(tokens[k], parts[m])
  }

  /** The `has*` markers of a designation: a test on its tokens, a
      whole-word test on the designation as written, and the regular
      expressions on the lower-cased (not normalised) designation. */
  function Markers(designation: string): Axes {
    var tokens := Tokenize(designation);
    var lower := Lower(designation);
    Axes(
      front := TokenMarks(tokens, "av", ["avant"]) || StandaloneWord(designation, "av")
        || EitherOrder(lower, Sides, Fronts),
      rear := TokenMarks(tokens, "ar", ["arriere", "arrière"]) || StandaloneWord(designation, "ar")
        || EitherOrder(lower, Sides, Rears),
      left := TokenMarks(tokens, "g", ["gauche", "conducteur"]) || StandaloneWord(designation, "g")
        || EitherOrder(lower, Lengthwise, Lefts),
      right := TokenMarks(tokens, "d", ["droite", "passager"]) || StandaloneWord(designation, "d")
        || EitherOrder(lower, Lengthwise, Rights),
      upper := TokenHas(tokens, ["superieur", "supérieur"]),
      lower := TokenHas(tokens, ["inferieur", "inférieur"]),
      inner := TokenHas(tokens, ["interieur", "intérieur"]),
      outer := TokenHas(tokens, ["exterieur", "extérieur"]))
  }

  /** The single-axis boosts on the horizontal axes. */
  function HorizontalBoosts(w: Axes, h: Axes): real {
    (if w.front && h.front then 150.0 else 0.0)
    + (if w.rear && h.rear then 150.0 else 0.0)
    + (if w.left && h.left then 130.0 else 0.0)
    + (if w.right && h.right then 130.0 else 0.0)
  }

  /** The single-axis boosts on the vertical and interior/exterior axes. */
  function OtherBoosts(w: Axes, h: Axes): real {
    (if w.upper && h.upper then 80.0 else 0.0)
    + (if w.lower && h.lower then 80.0 else 0.0)
    + (if w.inner && h.inner then 60.0 else 0.0)
    + (if w.outer && h.outer then 60.0 else 0.0)
  }

  /** The boosts for a combined front/rear and left/right intent met by
      both markers. */
  function PairBoosts(w: Axes, h: Axes): real {
    (if w.front && w.left && h.front && h.left then 220.0 else 0.0)
    + (if w.front && w.right && h.front && h.right then 220.0 else 0.0)
    + (if w.rear && w.left && h.rear && h.left then 220.0 else 0.0)
    + (if w.rear && w.right && h.rear && h.right then 220.0 else 0.0)
  }

  /** The penalties for a marker opposite to an intent. */
  function Penalties(w: Axes, h: Axes): real {
    (if w.front && h.rear then 120.0 else 0.0)
    + (if w.rear && h.front then 120.0 else 0.0)
    + (if w.left && h.right then 90.0 else 0.0)
    + (if w.right && h.left then 90.0 else 0.0)
  }

  /** The positional part of a part's score. */
  function PositionTerm(w: Axes, h: Axes): real {
    HorizontalBoosts(w, h) + OtherBoosts(w, h) + PairBoosts(w, h) - Penalties(w, h)
  }

  /** The sixteen positional `if`s of the scorer, in source order: the
      single-dimension boosts, the pair boosts, then the penalties. */
  method Positioned(w: Axes, h: Axes) returns (delta: real)
    ensures delta == PositionTerm(w, h)
  {
    var single := AddHorizontal(w, h);
    var other := AddOther(w, h);
    var pair := AddPairs(w, h);
    var penalty := AddPenalties(w, h);
    delta := single + other + pair - penalty;
  }

  method AddHorizontal(w: Axes, h: Axes) returns (delta: real)
    ensures delta == HorizontalBoosts(w, h)
  {
    delta := 0.0;
    if w.front && h.front { delta := delta + 150.0; }
    if w.rear && h.rear { delta := delta + 150.0; }
    if w.left && h.left { delta := delta + 130.0; }
    if w.right && h.right { delta := delta + 130.0; }
  }

  method AddOther(w: Axes, h: Axes) returns (delta: real)
    ensures delta == OtherBoosts(w, h)
  {
    delta := 0.0;
    if w.upper && h.upper { delta := delta + 80.0; }
    if w.lower && h.lower { delta := delta + 80.0; }
    if w.inner && h.inner { delta := delta + 60.0; }
    if w.outer && h.outer { delta := delta + 60.0; }
  }

  method AddPairs(w: Axes, h: Axes) returns (delta: real)
    ensures delta == PairBoosts(w, h)
  {
    delta := 0.0;
    if w.front && w.left && h.front && h.left { delta := delta + 220.0; }
    if w.front && w.right && h.front && h.right { delta := delta + 220.0; }
    if w.rear && w.left && h.rear && h.left { delta := delta + 220.0; }
    if w.rear && w.right && h.rear && h.right { delta := delta + 220.0; }
  }

  /** The penalties, as a positive amount to subtract. */
  method AddPenalties(w: Axes, h: Axes) returns (delta: real)
    ensures delta == Penalties(w, h)
  {
    delta := 0.0;
    if w.front && h.rear { delta := delta + 120.0; }
    if w.rear && h.front { delta := delta + 120.0; }
    if w.left && h.right { delta := delta + 90.0; }
    if w.right && h.left { delta := delta + 90.0; }
  }

  lemma RearPenalty(w: Axes, h: Axes)
    requires w.front && !w.rear
    ensures PositionTerm(w, h.(rear := true)) == PositionTerm(w, h.(rear := false)) - 120.0
  {
  }

  lemma FrontPenalty(w: Axes, h: Axes)
    requires w.rear && !w.front
    ensures PositionTerm(w, h.(front := true)) == PositionTerm(w, h.(front := false)) - 120.0
  {
  }

  lemma RightPenalty(w: Axes, h: Axes)
    requires w.left && !w.right
    ensures PositionTerm(w, h.(right := true)) == PositionTerm(w, h.(right := false)) - 90.0
  {
  }

  lemma LeftPenalty(w: Axes, h: Axes)
    requires w.right && !w.left
    ensures PositionTerm(w, h.(left := true)) == PositionTerm(w, h.(left := false)) - 90.0
  {
  }

  /** An opposite marker costs exactly its penalty, whatever else the part
      is marked with: wanting front only, a rear marker costs 120 even on a
      part also marked front; likewise for rear, left and right. */
  lemma OppositeMarkerPenalty(w: Axes, h: Axes)
    ensures w.front && !w.rear ==> PositionTerm(w, h.(rear := true)) == PositionTerm(w, h.(rear := false)) - 120.0
    ensures w.rear && !w.front ==> PositionTerm(w, h.(front := true)) == PositionTerm(w, h.(front := false)) - 120.0
    ensures w.left && !w.right ==> PositionTerm(w, h.(right := true)) == PositionTerm(w, h.(right := false)) - 90.0
    ensures w.right && !w.left ==> PositionTerm(w, h.(left := true)) == PositionTerm(w, h.(left := false)) - 90.0
  {
    if w.front && !w.rear { RearPenalty(w, h); }
    if w.rear && !w.front { FrontPenalty(w, h); }
    if w.left && !w.right { RightPenalty(w, h); }
    if w.right && !w.left { LeftPenalty(w, h); }
  }

  /** For a query that wants front and not rear, swapping a part's front
      marker for a rear one loses the boost and the penalty (150 + 120) and
      any pair boost the front marker earned. */
  lemma FrontBeatsRear(w: Axes, h: Axes)
    requires w.front && !w.rear && h.front && !h.rear
    ensures PositionTerm(w, h) >= PositionTerm(w, h.(front := false, rear := true)) + 270.0
  {
  }

  /** The same for left against right (130 + 90). */
  lemma LeftBeatsRight(w: Axes, h: Axes)
    requires w.left && !w.right && h.left && !h.right
    ensures PositionTerm(w, h) >= PositionTerm(w, h.(left := false, right := true)) + 220.0
  {
  }

  /** A word boundary of `\b` falls between an ASCII letter and an accented
      one, so `/\bG\b/i` finds a standalone "g" inside "légère" and the
      designation counts as marked left. */
  lemma AccentedNeighboursMakeAWord()
    ensures Markers("Joint légère").left
  {
    var d := "Joint légère";
    assert MatchesAt(d, 8, "g");
    assert StandaloneWord(d, "g");
  }
}
