# Parts search: a verified model

This project models `searchParts` in `src/data/partsDatabase.ts`. That is the relevance search of a spare-parts assistant for two small vehicles, the Suzuki S-Presso and the Celerio. A free-text query, and optionally the detected vehicle model, go in; at most a handful of catalogue entries come out.

- **Query side.** The query is normalised and split into raw tokens. A static synonym table expands the tokens, both by exact key and by fuzzy recovery of misspelt forms (Levenshtein distance at most 2).
- **Scoring.** Every part of the chosen catalogue is scored. The terms are:
  - type-weight boosts and a wrong-type penalty;
  - reference matches;
  - an all-tokens-present bonus;
  - positional intents of the query against positional markers of the part;
  - prefix and vehicle-type bonuses;
  - expanded-token hits;
  - model affinity;
  - stock.
- **Ranking.** Parts with a non-positive score, or lacking the main part type the query names, are dropped. The survivors get the quality multipliers and are sorted stably by score, then by stock. The first `TOP_N` are returned.

The modules follow the source:

| file | module | models |
|---|---|---|
| `options.dfy` | `Options` | an optional value (`model?`, `mainPartType`, `synonyms[t]`) |
| `text.dfy` | `Text` | `normalize`, `tokenize` and the string operations the search uses |
| `levenshtein.dfy` | `Levenshtein` | `levenshteinDistance`: the matrix method and the recursive distance it computes |
| `synonyms.dfy` | `Synonyms` | the synonym table and the construction of `expandedQueryTokens` |
| `positions.dfy` | `Positions` | the `wants*` intents, the `has*` markers and the sixteen positional score rules |
| `catalogue.dfy` | `Catalogue` | the `Part` record and the choice of catalogue |
| `scoring.dfy` | `Scoring` | `typeWeights`, `mainPartType` and the per-part scorer |
| `ranking.dfy` | `Ranking` | the gate, the multipliers, the stable sort, `TOP_N` and `searchParts` itself |

The imperative parts of the source are methods, each proved equal to a pure function:

- the Levenshtein matrix, filled in a two-dimensional array;
- the expansion loop over raw tokens and synonym entries;
- the scorer's `+=` sections and its loops over type weights, raw tokens and expanded tokens;
- the in-place sort, an insertion sort on an array.

The properties the search promises are lemmas about those functions.

Along the way the model makes several behaviours of the code explicit, and proves each one:

- A query of punctuation only, such as `"?!"`, is not empty: it tokenises to `[""]`. It then earns every part with a non-empty designation the all-tokens-present bonus, and every part the vehicle-type bonus (`Scoring.PunctuationOnlyQuery`).
- The four-letter token `"tard"` is two edits from `"ar"`, so it pulls in the whole rear entry (`Synonyms.TardBringsRear`).
- The regular expression `\bG\b` finds a standalone "g" inside "légère", because `\b` treats "é" as a non-word character (`Positions.AccentedNeighboursMakeAWord`).
- The unanchored position expressions make "grand avion" want front parts (`Positions.GrandAvionWantsFront`).
- The "Référence" and "exact" multipliers never fire, since the only tags the scorer pushes are `Type courant: …` (`Ranking.TagMultiplier`).
- `Math.max(2, …)` in `TOP_N` never binds (`Ranking.TopNValues`).

## Model

| member | source | states |
|---|---|---|
| Levenshtein.LevenshteinDistance | src/data/partsDatabase.ts:15-33 | filling the matrix of one row per prefix of b and one column per prefix of a, row by row, returns the recursive insert/delete/substitute edit distance of a and b |
| Levenshtein.CellStep | src/data/partsDatabase.ts:21-28 | a matrix cell is its diagonal neighbour when the characters agree, otherwise one more than the least of its three neighbours |
| Levenshtein.DistanceToSelf | src/data/partsDatabase.ts:15-33 | a string is at distance 0 from itself |
| Levenshtein.DistanceBounds | src/data/partsDatabase.ts:15-33 | the distance to "" is the other length; the distance lies between the difference of the lengths and the larger length |
| Levenshtein.DistanceSymmetric | src/data/partsDatabase.ts:15-33 | the distance does not depend on argument order |
| Levenshtein.TardIsNearAr | src/data/partsDatabase.ts:172 | "tard" is at distance 2 from "ar" |
| Text.Fold | src/data/partsDatabase.ts:39-41 | one lower-cased character becomes at most one character of `[a-z0-9 -]` |
| Text.Clean | src/data/partsDatabase.ts:38-41 | the cleaned text uses only `[a-z0-9 -]`, and text already in that alphabet is unchanged |
| Text.Split | src/data/partsDatabase.ts:45 | `split(' ')` yields at least one piece and no piece holds a space |
| Text.NonEmpty | src/data/partsDatabase.ts:42-43 | the kept pieces are non-empty pieces of the input, and a list without empty pieces is kept whole |
| Text.NonEmptyKeeps | src/data/partsDatabase.ts:42-43 | every non-empty piece is kept |
| Text.NonEmptyConcat | src/data/partsDatabase.ts:42-43 | pieces are kept or dropped one by one, so the kept ones stay in their order |
| Text.SplitJoin | src/data/partsDatabase.ts:42-45 | splitting the space-join of non-empty, space-free words gives the words back |
| Text.JoinSplit | src/data/partsDatabase.ts:45 | joining the pieces of `split(' ')` with ' ' gives the text back |
| Text.SplitPieces | src/data/partsDatabase.ts:42-45 | text without a trailing space or a double space splits into non-empty pieces, except a first one before a leading space |
| Text.Normalize | src/data/partsDatabase.ts:36-43 | `normalize`: lower-case, fold accents, replace other characters by spaces, collapse and trim; its contract is stated by NormalizeShape, NormalizeWords, NormalizeIdempotent and NormalFormIsFixed |
| Text.Tokenize | src/data/partsDatabase.ts:45 | `tokenize`: no tokens for "", otherwise the space-separated pieces of the normalisation; its contract is stated by TokenizeShape, TokenizeEmpty and TokensInNormalized |
| Text.NormalizeShape | src/data/partsDatabase.ts:36-43 | normalised text uses only a-z, 0-9, '-' and single interior spaces, with no leading or trailing space |
| Text.NormalizeWords | src/data/partsDatabase.ts:36-43 | the normalisation is the space-join of non-empty, space-free words, and it is "" exactly when there are none |
| Text.NormalizeIdempotent | src/data/partsDatabase.ts:36-43 | normalising twice is normalising once |
| Text.NormalFormIsFixed | src/data/partsDatabase.ts:36-43 | text already using only [a-z0-9 -] with single interior spaces and no leading or trailing space is left unchanged: the converse of NormalizeShape |
| Text.TokenizeShape | src/data/partsDatabase.ts:45 | when the normalisation is non-empty the tokens are non-empty, space-free, and join with ' ' to the normalisation |
| Text.TokenizeEmpty | src/data/partsDatabase.ts:45 | "" has no tokens; non-empty text always has tokens, exactly [""] when it normalises to "" |
| Text.TokensInNormalized | src/data/partsDatabase.ts:45 | every token is a substring of the normalised text |
| Text.LowerConcat | src/data/partsDatabase.ts:238 | `toLowerCase` distributes over concatenation |
| Text.JoinAt | src/data/partsDatabase.ts:238 | a ' '-join splits at any word boundary into the join of the words before and after |
| Text.ContainsTransitive | src/data/partsDatabase.ts:259-262 | a substring of a substring is a substring |
| Synonyms.Add | src/data/partsDatabase.ts:165 | `Set.add`: the result holds exactly the old members and x, and stays free of duplicates |
| Synonyms.AddAll | src/data/partsDatabase.ts:167 | adding a list: exactly the old members and the list's, without duplicates |
| Synonyms.Lookup | src/data/partsDatabase.ts:166 | `synonyms[t]` is the forms of the entry keyed t, or none when no entry has key t |
| Synonyms.AnyWithinTwo | src/data/partsDatabase.ts:172 | the `values.some(...)` scan is true exactly when some form is within distance 2 of a token of length at least 4 |
| Synonyms.AddEach | src/data/partsDatabase.ts:167 | the `forEach(add)` loop adds the forms in order |
| Synonyms.ExpandQuery | src/data/partsDatabase.ts:162-177 | the nested expansion loops build exactly the expansion function of the raw tokens |
| Synonyms.Expand | src/data/partsDatabase.ts:162-177 | `expandedQueryTokens` for the source's synonym table; its membership is stated by ExpandMembers and the lemmas after it |
| Synonyms.FuzzyScanMembers | src/data/partsDatabase.ts:171-175 | the fuzzy scan adds exactly the keys and forms of the entries that fuzzily hit the token |
| Synonyms.ExpandTokenMembers | src/data/partsDatabase.ts:164-176 | one token adds exactly itself, its synonyms and its fuzzy recoveries |
| Synonyms.ExpandMembers | src/data/partsDatabase.ts:162-177 | x is expanded iff some raw token is x, has x among its synonyms, or recovers x fuzzily; no token is held twice |
| Synonyms.BroughtSome | src/data/partsDatabase.ts:164 | x is brought in by the token-by-token expansion iff some raw token brings it in |
| Synonyms.ExpandMembership | src/data/partsDatabase.ts:162-177 | membership of the expanded set, token by token from the left |
| Synonyms.ExpandNoDup | src/data/partsDatabase.ts:162 | the expanded set holds each token once |
| Synonyms.ExpandSuperset | src/data/partsDatabase.ts:165 | every raw token is expanded |
| Synonyms.ExpandSynonyms | src/data/partsDatabase.ts:166-168 | all forms of `synonyms[t]` are expanded for every raw token t that is a key |
| Synonyms.ExpandFuzzy | src/data/partsDatabase.ts:171-175 | a fuzzy hit needs a token of length at least 4 and brings in the entry's key and all its forms |
| Synonyms.ExpandShortTokens | src/data/partsDatabase.ts:172 | with no raw token of length 4 or more nothing is recovered fuzzily: only raw tokens and their synonyms |
| Synonyms.SelfRecovers | src/data/partsDatabase.ts:171-175 | a token of length at least 4 that is a form of an entry brings in the whole entry |
| Synonyms.AvantBringsAv | src/data/partsDatabase.ts:150 | "avant" in the query puts both "avant" and "av" in the expanded set |
| Synonyms.TardBringsRear | src/data/partsDatabase.ts:151 | "tard" in the query puts "arriere" and "ar" in the expanded set |
| Positions.EndsLower | src/data/partsDatabase.ts:238-242 | lower-casing keeps a lower-case alternative at the end of a string |
| Positions.Wants | src/data/partsDatabase.ts:236-254 | the eight `wants*` intents: a listed word in the expanded set, or on the four horizontal axes one of the two position expressions on the lower-cased joined raw tokens; stated by SideThenFront and GrandAvionWantsFront and used by the position term |
| Positions.Markers | src/data/partsDatabase.ts:274-298 | the eight `has*` markers: a token test, a whole-word `\b` test on the designation as written, and the position expressions on the lower-cased designation; stated by AccentedNeighboursMakeAWord and used by the position term |
| Positions.StartsLower | src/data/partsDatabase.ts:238-242 | lower-casing keeps a lower-case alternative at the start of a string |
| Positions.SpaceAdjacent | src/data/partsDatabase.ts:238-248 | a left alternative, one space and a right alternative match the position expression after lower-casing |
| Positions.TokensAdjacent | src/data/partsDatabase.ts:238-248 | a raw token ending in a left alternative followed by one starting with a right alternative matches the expression on the joined tokens |
| Positions.SideThenFront | src/data/partsDatabase.ts:241-242 | a token ending like a side word followed by one starting like a front word makes the query want front, whatever the expansion |
| Positions.GrandAvionWantsFront | src/data/partsDatabase.ts:241-242 | "grand avion" wants front parts |
| Positions.AccentedNeighboursMakeAWord | src/data/partsDatabase.ts:286-288 | "Joint légère" counts as marked left through `\bG\b` |
| Positions.Positioned | src/data/partsDatabase.ts:300-320 | the sixteen positional rules add the boosts and subtract the penalties of the position term |
| Positions.AddHorizontal | src/data/partsDatabase.ts:301-304 | the front/rear/left/right boosts |
| Positions.AddOther | src/data/partsDatabase.ts:305-308 | the upper/lower/interior/exterior boosts |
| Positions.AddPairs | src/data/partsDatabase.ts:311-314 | the combined-position boosts |
| Positions.AddPenalties | src/data/partsDatabase.ts:317-320 | the opposite-marker penalties |
| Positions.OppositeMarkerPenalty | src/data/partsDatabase.ts:316-320 | wanting front only, a rear marker costs exactly 120 whatever else the part is marked with; likewise 120 for rear, 90 for left and right |
| Positions.RearPenalty | src/data/partsDatabase.ts:317 | a rear marker costs 120 against a front-only intent |
| Positions.FrontPenalty | src/data/partsDatabase.ts:318 | a front marker costs 120 against a rear-only intent |
| Positions.RightPenalty | src/data/partsDatabase.ts:319 | a right marker costs 90 against a left-only intent |
| Positions.LeftPenalty | src/data/partsDatabase.ts:320 | a left marker costs 90 against a right-only intent |
| Positions.FrontBeatsRear | src/data/partsDatabase.ts:301-318 | for a front-only intent, a front-marked part beats the same part marked rear instead by at least 270 |
| Positions.LeftBeatsRight | src/data/partsDatabase.ts:303-320 | for a left-only intent, a left-marked part beats the same part marked right instead by at least 220 |
| Catalogue.Database | src/data/partsDatabase.ts:195-198 | a Spresso searches exactly the Spresso catalogue, a Celerio the Celerio one, anything else both, with nothing else |
| Scoring.MainPartType | src/data/partsDatabase.ts:217 | the main type is a type key held by a raw token with no type key before it; there is none iff no raw token is a type key |
| Scoring.TypeBoost | src/data/partsDatabase.ts:225-232 | the type boosts are never negative |
| Scoring.TypeTags | src/data/partsDatabase.ts:225-232 | the tags are exactly `Type courant: k` for the type keys k the designation contains, each once |
| Scoring.TagNamesKey | src/data/partsDatabase.ts:230 | two different type keys give two different tags |
| Scoring.TypePoints | src/data/partsDatabase.ts:219-232 | the penalty and type-weight loop yield the type terms and tags |
| Scoring.MainTypeBoost | src/data/partsDatabase.ts:225-229 | a designation containing the main type earns at least 150 times its weight |
| Scoring.MainTypeTerms | src/data/partsDatabase.ts:219-232 | with a main type, a part lacking it gets -500, and a part having it gets no penalty and at least 150 times the weight |
| Scoring.FirstRefLike | src/data/partsDatabase.ts:261-262 | the reference-like token is the first raw token with five alphanumerics in a row; there is none iff no token has them |
| Scoring.ReferencePoints | src/data/partsDatabase.ts:256-262 | the three reference rules yield the reference term |
| Scoring.ReferenceMatch | src/data/partsDatabase.ts:256-262 | nothing for a query normalising to ""; 450 for containment, plus 1000 for equality and 120 for a reference-like token; at most 120 without containment |
| Scoring.ExactReferenceLeads | src/data/partsDatabase.ts:257-259 | a reference equal to the normalised query outscores one not containing it by at least 1000 + 450 |
| Scoring.AllPresentPoints | src/data/partsDatabase.ts:264-272 | the all-present rule yields 220, plus 90 when the joined query occurs in the joined designation |
| Scoring.PrefixTerm | src/data/partsDatabase.ts:322-327 | each raw token adds between 0 and 25 + 60 |
| Scoring.TokenPoints | src/data/partsDatabase.ts:322-327 | the loop over raw tokens yields the prefix and vehicle-type term |
| Scoring.ExpandedTerm | src/data/partsDatabase.ts:329-332 | the expanded term over n expanded tokens lies between 0 and 18 times n |
| Scoring.ExpandedPoints | src/data/partsDatabase.ts:329-332 | the loop over expanded tokens yields the expanded term |
| Scoring.ModelAndStockPoints | src/data/partsDatabase.ts:334-339 | the model and stock rules yield their terms |
| Scoring.ModelAffinity | src/data/partsDatabase.ts:334-336 | with a single model selected, a part of that model scores 130 more than the same part of the other model and 80 more than a part fitting both; with `both` selected, a part fitting both scores 130 more than the same part of a single model; without a model the part's model is irrelevant |
| Scoring.ScorePart | src/data/partsDatabase.ts:206-342 | the scorer's sections, in order, yield the part's score and tags |
| Scoring.Score | src/data/partsDatabase.ts:206-342 | the pre-multiplier score: the sum of the type, reference, all-present, position, prefix, expanded, model and stock terms; stated by ScorePart and the lemmas about its terms |
| Scoring.PunctuationOnlyQuery | src/data/partsDatabase.ts:256-327 | a punctuation-only query has the one token "", no reference term, 310 for all-present on any non-empty designation and 60 for the vehicle type |
| Scoring.EmptyTokenPresent | src/data/partsDatabase.ts:266-271 | the token "" is present in every non-empty designation, with the proximity bonus |
| Scoring.EmptyTokenBonus | src/data/partsDatabase.ts:323-327 | the token "" gets no prefix bonus and always the vehicle-type bonus |
| Scoring.KeysAreUnaccented | src/data/partsDatabase.ts:180-192 | no type key holds an 'x' or an 'é' |
| Scoring.TagMentionsNoMatchKind | src/data/partsDatabase.ts:230 | a type tag mentions neither "Référence" nor "exact" |
| Scoring.TagsNameOnlyTypes | src/data/partsDatabase.ts:225-232 | no tag of any part mentions "Référence" or "exact" |
| Ranking.MapParts | src/data/partsDatabase.ts:206 | the map gives one entry per part |
| Ranking.MapPartsStep | src/data/partsDatabase.ts:206 | mapping one more part appends its image |
| Ranking.MapPartsMember | src/data/partsDatabase.ts:206 | every mapped entry is the image of a catalogue part |
| Ranking.ScoreCatalogue | src/data/partsDatabase.ts:206-342 | scoring the parts in order gives every part with its score and tags |
| Ranking.ScoreAllMember | src/data/partsDatabase.ts:206-342 | a scored entry is a catalogue part carrying its own score |
| Ranking.FilterKept | src/data/partsDatabase.ts:346-352 | the filter keeps exactly the entries with a positive score whose designation holds the main type, if any |
| Ranking.Multiplier | src/data/partsDatabase.ts:359-363 | the multipliers are at least 1 |
| Ranking.TagMultiplier | src/data/partsDatabase.ts:355-363 | on the scorer's tags the multiplier is 1.15 with three tags or more and 1 otherwise |
| Ranking.BoostRaises | src/data/partsDatabase.ts:360-363 | the multiplied score of a positive score is no lower |
| Ranking.RankedMember | src/data/partsDatabase.ts:346-372 | a ranked entry is the multiplied form of an entry that passed the gate |
| Ranking.RankedPositive | src/data/partsDatabase.ts:346-369 | every ranked entry has a positive final score, no lower than the score it passed the gate with |
| Ranking.InsertPerm | src/data/partsDatabase.ts:372 | inserting adds exactly the one entry |
| Ranking.InsertSorted | src/data/partsDatabase.ts:372 | inserting into a sorted list stays sorted |
| Ranking.InsertStable | src/data/partsDatabase.ts:372 | inserting keeps the relative order of entries with equal score and stock |
| Ranking.SortSorted | src/data/partsDatabase.ts:372 | the sort orders by non-increasing score, ties by non-increasing stock |
| Ranking.Sort | src/data/partsDatabase.ts:372 | the stable sort keeps the length; its order, permutation and stability are SortSorted, SortPerm and SortStable |
| Ranking.SortPerm | src/data/partsDatabase.ts:372 | the sort is a permutation |
| Ranking.SortStable | src/data/partsDatabase.ts:372 | the sort keeps the input order among entries with equal score and stock |
| Ranking.InsertAt | src/data/partsDatabase.ts:372 | inserting lands just after the last entry the new one is not strictly before |
| Ranking.InsertLast | src/data/partsDatabase.ts:372 | shifting the i-th array element back into the sorted prefix leaves the prefix equal to the insertion, and the rest unchanged |
| Ranking.SortStep | src/data/partsDatabase.ts:372 | sorting one more element inserts it into the sorted prefix |
| Ranking.SortInPlace | src/data/partsDatabase.ts:372 | the in-place sort leaves the array holding the stable sort of its old contents |
| Ranking.SortedCopy | src/data/partsDatabase.ts:372 | the survivors sorted in an array are their stable sort |
| Ranking.TopNValues | src/data/partsDatabase.ts:374-377 | TOP_N is 3 iff at least two position words are expanded, and 5 otherwise; `Math.max(2, …)` never binds |
| Ranking.TopN | src/data/partsDatabase.ts:374-377 | TOP_N is 3 or 5, 3 exactly when two or more position words are expanded |
| Ranking.CountTwo | src/data/partsDatabase.ts:375-376 | two different listed words present count at least two |
| Ranking.SpecificTopThree | src/data/partsDatabase.ts:375-377 | an expanded set holding "avant" and "av" gives TOP_N 3 |
| Ranking.FrontQueryTopThree | src/data/partsDatabase.ts:375-377 | a query with the token "avant" gets TOP_N 3 |
| Ranking.Parts | src/data/partsDatabase.ts:381 | stripping the score and tags gives back each entry's part unchanged, in order |
| Ranking.RankAndTake | src/data/partsDatabase.ts:344-381 | scoring, filtering, multiplying, sorting in place and slicing compute the answer |
| Ranking.SearchParts | src/data/partsDatabase.ts:13-382 | the search as the source runs it computes the search function |
| Ranking.Search | src/data/partsDatabase.ts:13-382 | `searchParts` as a function: [] for a query without tokens, otherwise the first TOP_N ranked parts of the chosen catalogue; stated by SearchKeepsRelevant, SearchBounds and RankingOrder |
| Ranking.AnswerKeepsRelevant | src/data/partsDatabase.ts:344-381 | every answered part comes from the catalogue with its fields unchanged, has a positive score, and contains the main type when there is one |
| Ranking.SearchKeepsRelevant | src/data/partsDatabase.ts:195-381 | every result is a part of the searched catalogue that passed the gate |
| Ranking.RankedLength | src/data/partsDatabase.ts:346-372 | the ranking has no more entries than the catalogue |
| Ranking.AnswerBounds | src/data/partsDatabase.ts:374-381 | the answer has at most TOP_N ≤ 5 parts and no more than the catalogue |
| Ranking.SearchBounds | src/data/partsDatabase.ts:201-381 | the result has at most TOP_N ≤ 5 parts and no more than the catalogue, and the empty query gives [] |
| Ranking.RankingOrder | src/data/partsDatabase.ts:371-372 | the ranking is sorted by score then stock, is a permutation of the boosted survivors, and keeps their catalogue order among equal keys |

## Left out

- Scores are exact reals. The rounding of JavaScript doubles (for instance in `150 * 1.15`) is not modelled; it could only reorder parts whose scores differ in the last bits.
- Case mapping and canonical decomposition are modelled for ASCII and the Latin-1 Supplement only. Outside that range a character is left as it is by `toLowerCase` and becomes a space, except the combining marks U+0300..U+036F, which are deleted as in the source. The source would fold some of those characters to a letter, for instance "İ", the Kelvin sign, or a Latin Extended-A letter such as "ā".
- The regular expressions are case-insensitive; the model matches them only on text already lower-cased, which is how `wants*` and the third test of `has*` use them. Their `/i` folding of characters outside ASCII and Latin-1 is not modelled.
- `synonyms` is a finite table. The object-prototype lookup of `synonyms[t]` for a token such as "constructor" is not modelled: in the source it makes `.forEach` throw.
- The synonym object literal repeats three keys (condenseur, evaporateur, compresseur). The table keeps each at its first position with its later forms, which is what the object literal evaluates to.
- The per-part scorer's sections are methods that return what they add to the one running score, instead of adding to it in place. The sum and the order of the additions are the source's.
- `mainPartType` is computed once per query and carried in the query context. The source recomputes it for every part and again in the filter, always with the same result.
- Ranking.Sort: the engine's `Array.prototype.sort` is modelled as a stable insertion sort. A stable sort by a consistent comparator yields exactly one ordering, so this fixes the result without fixing the engine's algorithm.
- The two catalogues, `spressoParts` and `celerioParts`, are parameters. Their contents come from `src/data/spressoPartsDatabase.ts` and `src/data/celerioPartsDatabase.ts`, which are not part of this model. `priceHT` is carried in `Part` but never scored.
- The `model` argument is `Option<Model>`. A missing model and a falsy value are both `None`.
- Only `searchParts` is modelled. These are not part of this model: the Gemini network client (`src/services/geminiService.ts`), the React page that never calls `searchParts` (`src/pages/Index.tsx`), and the UI components.
