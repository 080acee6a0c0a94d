/** The text normaliser and tokeniser of the parts search (`normalize` and
    `tokenize` inside `searchParts`), with the few `String.prototype`
    operations the rest of the search is written in: `includes`,
    `startsWith`, `split(' ')`, `join(' ')` and `toLowerCase`.

    Strings are sequences of Unicode scalar values. Case mapping and
    canonical decomposition are given by explicit tables for ASCII and the
    Latin-1 Supplement, which is where the catalogue's French text lives. */
module Text {

  /** A character that can occur in normalised text: `[a-z0-9 -]`. */
  predicate IsKept(c: char) {
    'a' <= c <= 'z' || '0' <= c <= '9' || c == '-' || c == ' '
  }

  predicate AllKept(s: string) {
    forall i :: 0 <= i < |s| ==> IsKept(s[i])
  }

  predicate NoSpace(w: string) {
    ' ' !in w
  }

  /** JavaScript's `\s` class: the ECMAScript WhiteSpace and LineTerminator
      code points. */
  predicate IsSpace(c: char) {
    var n := c as int;
    n == 0x09 || n == 0x0A || n == 0x0B || n == 0x0C || n == 0x0D || n == 0x20
    || n == 0xA0 || n == 0x1680 || 0x2000 <= n <= 0x200A || n == 0x2028
    || n == 0x2029 || n == 0x202F || n == 0x205F || n == 0x3000 || n == 0xFEFF
  }

  /** `toLowerCase` on one character of ASCII or Latin-1: A-Z and the
      accented capitals U+00C0..U+00DE (but not U+00D7, the multiplication
      sign) move down by 32; everything else is left alone. */
  function LowerChar(c: char): char {
    if 'A' <= c <= 'Z' || (0xC0 <= c as int <= 0xDE && c as int != 0xD7)
    then (c as int + 32) as char
    else c
  }

  /** `s.toLowerCase()`. */
  function Lower(s: string): string {
    seq(|s|, i requires 0 <= i < |s| => LowerChar(s[i]))
  }

  /** What one lower-cased character becomes after `normalize('NFD')`, the
      removal of the combining marks U+0300..U+036F and the replacement of
      every character outside `[a-z0-9\s-]` by a space. Accented Latin-1
      letters decompose into their base letter and a mark, so they keep the
      base letter; whitespace and every other character become a space
      (the later `\s+` collapse makes the two indistinguishable). */
  function Fold(c: char): (r: string)
    ensures |r| <= 1 && AllKept(r)
  {
    if 'a' <= c <= 'z' || '0' <= c <= '9' || c == '-' then [c]
    else
      var n := c as int;
      if 0x300 <= n <= 0x36F then []
      else if 0xE0 <= n <= 0xE5 then ['a']
      else if n == 0xE7 then ['c']
      else if 0xE8 <= n <= 0xEB then ['e']
      else if 0xEC <= n <= 0xEF then ['i']
      else if n == 0xF1 then ['n']
      else if 0xF2 <= n <= 0xF6 then ['o']
      else if 0xF9 <= n <= 0xFC then ['u']
      else if n == 0xFD || n == 0xFF then ['y']
      else [' ']
  }

  /** Lower-case, fold and filter every character; the result uses only the
      kept alphabet, and text already in that alphabet passes unchanged. */
  function Clean(s: string): (r: string)
    ensures AllKept(r)
    ensures AllKept(s) ==> r == s
  {
    if s == [] then [] else Fold(LowerChar(s[0])) + Clean(s[1..])
  }

  /** `s.split(' ')`: the pieces between single spaces, so "" gives [""]
      and two adjacent spaces give an empty piece. */
  function Split(s: string): (r: seq<string>)
    ensures |r| >= 1
    ensures forall k :: 0 <= k < |r| ==> NoSpace(r[k])
  {
    if s == [] then [[]]
    else
      var rest := Split(s[1..]);
      if s[0] == ' ' then [[]] + rest
      else [[s[0]] + rest[0]] + rest[1..]
  }

  /** `ws.join(' ')`; the empty array joins to "". */
  function Join(ws: seq<string>): string {
    if |ws| == 0 then []
    else if |ws| == 1 then ws[0]
    else ws[0] + " " + Join(ws[1..])
  }

  /** The non-empty pieces, in order. */
  function NonEmpty(ws: seq<string>): (r: seq<string>)
    ensures forall k :: 0 <= k < |r| ==> r[k] != [] && r[k] in ws
    ensures (forall k :: 0 <= k < |ws| ==> ws[k] != []) ==> r == ws
  {
    if ws == [] then []
    else (if ws[0] == [] then [] else [ws[0]]) + NonEmpty(ws[1..])
  }

  /** No non-empty piece is dropped. */
  lemma {:induction false} NonEmptyKeeps(ws: seq<string>)
    ensures forall w :: w in ws && w != [] ==> w in NonEmpty(ws)
  {
    if ws != [] {
      NonEmptyKeeps(ws[1..]);
      assert forall w :: w in ws ==> w == ws[0] || w in ws[1..];
    }
  }

  /** `normalize`: lower-case, strip accents, turn the rest into spaces,
      collapse whitespace runs and trim. Collapsing runs of spaces and
      trimming is the same as splitting on spaces, dropping the empty
      pieces and joining with single spaces. */
  function Normalize(s: string): string {
    Join(NonEmpty(Split(Clean(s))))
  }

  /** `tokenize`: "" gives no tokens; any other text gives the pieces of its
      normalisation, so text that normalises to "" gives [""]. */
  function Tokenize(s: string): seq<string> {
    if s == [] then [] else Split(Normalize(s))
  }

  /** `hay.includes(needle)`; every string includes "". */
  predicate Contains(hay: string, needle: string) {
    exists i :: 0 <= i <= |hay| && needle <= hay[i..]
  }

  /** No leading or trailing space and no two spaces in a row. */
  predicate WellSpaced(s: string) {
    && (|s| > 0 ==> s[0] != ' ' && s[|s| - 1] != ' ')
    && forall i :: 0 <= i < |s| - 1 && s[i] == ' ' ==> s[i + 1] != ' '
  }

  lemma {:induction false} SplitPrefix(w: string, t: string)
    requires NoSpace(w)
    ensures Split(w + t) == [w + Split(t)[0]] + Split(t)[1..]
  {
    if w == [] {
      var st := Split(t);
      assert w + t == t && w + st[0] == st[0];
      assert [st[0]] + st[1..] == st;
    } else {
      var st, rt := Split(w[1..] + t), Split(t);
      SplitPrefix(w[1..], t);
      assert st[0] == w[1..] + rt[0] && st[1..] == rt[1..];
      var u := w + t;
      assert u[0] == w[0] && u[1..] == w[1..] + t;
      assert w[0] != ' ' by { assert w[0] in w; }
      assert Split(u) == [[w[0]] + st[0]] + st[1..];
      assert [w[0]] + (w[1..] + rt[0]) == w + rt[0];
    }
  }

  /** Splitting undoes joining words that hold no space. */
  lemma {:induction false} SplitJoin(ws: seq<string>)
    requires |ws| > 0
    requires forall k :: 0 <= k < |ws| ==> NoSpace(ws[k])
    ensures Split(Join(ws)) == ws
  {
    if |ws| == 1 {
      SplitPrefix(ws[0], []);
      assert ws[0] + [] == ws[0];
    } else {
      var rest := Join(ws[1..]);
      SplitJoin(ws[1..]);
      SplitPrefix(ws[0], " " + rest);
      assert (" " + rest)[1..] == rest;
      assert Join(ws) == ws[0] + (" " + rest);
      assert ws[0] + [] == ws[0];
      assert ws == [ws[0]] + ws[1..];
    }
  }

  lemma {:induction false} JoinKept(ws: seq<string>)
    requires forall k :: 0 <= k < |ws| ==> AllKept(ws[k])
    ensures AllKept(Join(ws))
  {
    if |ws| > 1 {
      JoinKept(ws[1..]);
    }
  }

  lemma {:induction false} JoinWellSpaced(ws: seq<string>)
    requires forall k :: 0 <= k < |ws| ==> ws[k] != [] && NoSpace(ws[k])
    ensures WellSpaced(Join(ws))
    ensures |ws| > 0 ==> |Join(ws)| > 0
  {
    if |ws| == 1 {
      assert forall i :: 0 <= i < |ws[0]| ==> ws[0][i] in ws[0];
    } else if |ws| > 1 {
      JoinWellSpaced(ws[1..]);
      var w, j := ws[0], Join(ws[1..]);
      var s := Join(ws);
      assert s == w + " " + j;
      assert forall i :: 0 <= i < |w| ==> s[i] == w[i] && w[i] in w;
      assert s[|w|] == ' ';
      assert forall i :: |w| < i < |s| ==> s[i] == j[i - |w| - 1];
    }
  }

  lemma KeptSubstring(hay: string, needle: string)
    requires AllKept(hay) && Contains(hay, needle)
    ensures AllKept(needle)
  {
    var i :| 0 <= i <= |hay| && needle <= hay[i..];
    assert forall k :: 0 <= k < |needle| ==> needle[k] == hay[i + k];
  }

  /** Every piece of a split is a substring of the text, the first one a
      prefix. */
  lemma {:induction false} SplitSubstrings(s: string)
    ensures Split(s)[0] <= s
    ensures forall k :: 0 <= k < |Split(s)| ==> Contains(s, Split(s)[k])
  {
    assert [] <= s[0..];
    if s != [] {
      var rest := Split(s[1..]);
      SplitSubstrings(s[1..]);
      forall k | 0 <= k < |rest|
        ensures Contains(s, rest[k])
      {
        var i :| 0 <= i <= |s[1..]| && rest[k] <= s[1..][i..];
        assert s[1..][i..] == s[i + 1..];
      }
      if s[0] != ' ' {
        assert [s[0]] + rest[0] <= s[0..];
      }
    }
  }

  /** `includes` is transitive. */
  lemma ContainsTransitive(a: string, b: string, c: string)
    requires Contains(a, b) && Contains(b, c)
    ensures Contains(a, c)
  {
    var i :| 0 <= i <= |a| && b <= a[i..];
    var j :| 0 <= j <= |b| && c <= b[j..];
    assert forall k :: 0 <= k < |c| ==> c[k] == b[j + k] == a[i + j + k];
    assert c <= a[i + j..];
  }

  /** `toLowerCase` works character by character. */
  lemma LowerConcat(a: string, b: string)
    ensures Lower(a + b) == Lower(a) + Lower(b)
  {
    assert forall k :: 0 <= k < |a + b| ==> Lower(a + b)[k] == (Lower(a) + Lower(b))[k];
  }

  /** Joining splits into the words up to i and the words after it. */
  lemma {:induction false} JoinAt(ws: seq<string>, i: nat)
    requires i + 1 < |ws|
    ensures Join(ws) == Join(ws[..i + 1]) + " " + Join(ws[i + 1..])
  {
    if i > 0 {
      var tail := ws[1..];
      JoinAt(tail, i - 1);
      assert tail[..i] == ws[..i + 1][1..] && tail[i..] == ws[i + 1..];
    }
  }

  /** The joined text starts with the first word and ends with the last. */
  lemma {:induction false} JoinEnds(ws: seq<string>)
    requires |ws| > 0
    ensures ws[0] <= Join(ws)
    ensures |ws[|ws| - 1]| <= |Join(ws)| && Join(ws)[|Join(ws)| - |ws[|ws| - 1]|..] == ws[|ws| - 1]
  {
    if |ws| > 1 {
      JoinEnds(ws[1..]);
      var j, r := Join(ws), Join(ws[1..]);
      assert j == (ws[0] + " ") + r;
      assert j[|j| - |r|..] == r;
    }
  }

  /** Keeping the non-empty pieces works piece by piece, so it keeps
      them in their order. */
  lemma {:induction false} NonEmptyConcat(a: seq<string>, b: seq<string>)
    ensures NonEmpty(a + b) == NonEmpty(a) + NonEmpty(b)
  {
    if a == [] {
      assert a + b == b;
    } else {
      var head := if a[0] == [] then [] else [a[0]];
      var tail := NonEmpty(a[1..] + b);
      assert tail == NonEmpty(a[1..]) + NonEmpty(b) by {
        NonEmptyConcat(a[1..], b);
      }
      assert NonEmpty(a + b) == head + tail by {
        assert (a + b)[0] == a[0] && (a + b)[1..] == a[1..] + b;
      }
      assert NonEmpty(a) == head + NonEmpty(a[1..]);
      SeqAssoc(head, NonEmpty(a[1..]), NonEmpty(b));
    }
  }

  lemma SeqAssoc(x: seq<string>, y: seq<string>, z: seq<string>)
    ensures x + (y + z) == (x + y) + z
  {
  }

  /** Joining the pieces of a split gives the text back. */
  lemma {:induction false} JoinSplit(s: string)
    ensures Join(Split(s)) == s
  {
    if s != [] {
      var rest := Split(s[1..]);
      JoinSplit(s[1..]);
      if s[0] == ' ' {
        assert ([[]] + rest)[1..] == rest;
        assert s == " " + s[1..];
      } else if |rest| == 1 {
        assert s == [s[0]] + s[1..];
      } else {
        var r := [[s[0]] + rest[0]] + rest[1..];
        assert r[1..] == rest[1..];
        assert Join(rest) == rest[0] + " " + Join(rest[1..]);
        assert s == [s[0]] + s[1..];
      }
    }
  }

  /** Text without a trailing space and without two spaces in a row splits
      into non-empty pieces, except a first one where it starts with a
      space. */
  lemma {:induction false} SplitPieces(s: string)
    requires s != [] && s[|s| - 1] != ' '
    requires forall i :: 0 <= i < |s| - 1 && s[i] == ' ' ==> s[i + 1] != ' '
    ensures forall k :: 1 <= k < |Split(s)| ==> Split(s)[k] != []
    ensures s[0] != ' ' ==> Split(s)[0] != []
  {
    if |s| > 1 {
      var t := s[1..];
      assert forall i :: 0 <= i < |t| - 1 && t[i] == ' ' ==> t[i + 1] != ' ' by {
        assert forall i :: 0 <= i < |t| ==> t[i] == s[i + 1];
      }
      SplitPieces(t);
    }
  }

  /** Text already in normal form is left unchanged by `normalize`: the
      converse of NormalizeShape. */
  lemma NormalFormIsFixed(s: string)
    requires AllKept(s) && WellSpaced(s)
    ensures Normalize(s) == s
  {
    assert Clean(s) == s;
    if s != [] {
      SplitPieces(s);
      assert NonEmpty(Split(s)) == Split(s);
      JoinSplit(s);
    }
  }

  /** Every character of a contained string occurs in the containing one. */
  lemma ContainedChars(hay: string, needle: string)
    requires Contains(hay, needle)
    ensures forall k :: 0 <= k < |needle| ==> needle[k] in hay
  {
    var i :| 0 <= i <= |hay| && needle <= hay[i..];
    assert forall k :: 0 <= k < |needle| ==> needle[k] == hay[i + k];
  }

  /** Normalised text uses only a-z, 0-9, '-' and single interior spaces. */
  lemma NormalizeShape(s: string)
    ensures AllKept(Normalize(s)) && WellSpaced(Normalize(s))
  {
    var c := Clean(s);
    var pieces := Split(c);
    var ws := NonEmpty(pieces);
    SplitSubstrings(c);
    forall k | 0 <= k < |ws|
      ensures AllKept(ws[k]) && NoSpace(ws[k])
    {
      var m :| 0 <= m < |pieces| && pieces[m] == ws[k];
      KeptSubstring(c, pieces[m]);
    }
    JoinKept(ws);
    JoinWellSpaced(ws);
  }

  /** The words of the normalisation: non-empty, space-free, and joined
      they give the normalisation back. */
  lemma NormalizeWords(s: string)
    ensures var ws := NonEmpty(Split(Clean(s)));
      && (forall k :: 0 <= k < |ws| ==> ws[k] != [] && NoSpace(ws[k]))
      && Normalize(s) == Join(ws)
      && (ws == [] <==> Normalize(s) == [])
  {
    var ws := NonEmpty(Split(Clean(s)));
    forall k | 0 <= k < |ws|
      ensures NoSpace(ws[k])
    {
      var m :| 0 <= m < |Split(Clean(s))| && Split(Clean(s))[m] == ws[k];
    }
    JoinWellSpaced(ws);
  }

  /** `normalize` is idempotent. */
  lemma NormalizeIdempotent(s: string)
    ensures Normalize(Normalize(s)) == Normalize(s)
  {
    var n := Normalize(s);
    var ws := NonEmpty(Split(Clean(s)));
    NormalizeShape(s);
    NormalizeWords(s);
    assert Clean(n) == n;
    if ws != [] {
      SplitJoin(ws);
      assert Split(n) == ws;
      assert NonEmpty(ws) == ws;
    } else {
      assert Split(n) == [[]];
    }
  }

  /** Text whose normalisation is non-empty tokenises into non-empty,
      space-free tokens whose ' '-join is that normalisation. */
  lemma TokenizeShape(s: string)
    requires Normalize(s) != []
    ensures var ts := Tokenize(s);
      && |ts| > 0
      && (forall k :: 0 <= k < |ts| ==> ts[k] != [] && NoSpace(ts[k]))
      && Join(ts) == Normalize(s)
  {
    var ws := NonEmpty(Split(Clean(s)));
    NormalizeWords(s);
    assert s != [];
    SplitJoin(ws);
    assert Tokenize(s) == ws;
  }

  /** The empty string has no tokens; any other text whose normalisation is
      empty (punctuation only, say) has exactly one token, the empty one. */
  lemma TokenizeEmpty(s: string)
    ensures s == [] ==> Tokenize(s) == []
    ensures s != [] && Normalize(s) == [] ==> Tokenize(s) == [[]]
    ensures s != [] ==> |Tokenize(s)| > 0
  {
  }

  /** Every token is a substring of the normalised text. */
  lemma TokensInNormalized(s: string)
    ensures forall k :: 0 <= k < |Tokenize(s)| ==> Contains(Normalize(s), Tokenize(s)[k])
  {
    if s != [] {
      SplitSubstrings(Normalize(s));
    }
  }
}
