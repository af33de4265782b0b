# decktype-api classifier, modelled in Dafny

The decktype-api server takes the card list of a Pokémon TCG deck and names its
archetypes. The deck-data service sends a list of `(name, image_url, count)`
records. Every handler first sums the counts per card name into `cardlist`, a
`map[string]int` where a missing name reads as 0. The three ALL-mode handlers
then run a fixed cascade of count conditions, and for each condition that holds
`analyze` builds a `DeckType`: the rule's title, plus one representative card
(`name`, `image_url`) for each name in the rule's name list that occurs in the
deck. The beta handler instead calls `analyzeGholdengo_ex`, which builds its
beta `DeckType` with loops of its own of the same shape.

The ALL-mode handlers (`GetM1`, `GetSV10` and `Get` in `main.go`) list every
rule that holds, in declaration order. The beta handler `GetM2a` keeps at most
one archetype. It may also carry a sub-archetype.

The model follows the code structure:

- `deck.dfy` (module `Deck`): the deck entry and the count map.
  - `Aggregate` is the summing loop that every handler copies, written as a
    `for` loop. It is proved equal to `CountMapOf`, the per-name sum.
  - `Fetch` is the fetch outcome after HTTP and JSON decoding, taken as an
    input.
  - `Response` is what a handler passes to gin's `ctx.JSON`, or that it passes nothing.
- `projection.dfy` (module `Projection`): `analyze`.
  - `ProjectCards` is its nested loop, with an inner `while` that stops at
    the first matching entry (Go's `break`). It is proved equal to the
    function `Project`.
  - The lemmas state what the projection promises: output names are a
    subsequence of the requested names, missing names are skipped, each
    entry comes from the first deck entry with that name, and the output is
    not deduplicated.
- `rules.dfy` (module `Rules`): the rule engine.
  - `Pred` is a count condition (`>=`, `==`, `<=`, `&&`, `||`, `!`) and
    `Eval` evaluates it.
  - A `Rule` is a condition, a title and a name list.
  - `EvaluateAll` is the cascade of `if`s that append to `deckTypes`. It is
    proved equal to `Matches`.
  - `Satisfied` gives the indices of the rules that hold.
  - `FirstMatch` is the first-match reading used by the beta rules.
- `m1_table.dfy`, `sv10_table.dfy`, `main_table.dfy` (modules `M1Table`,
  `SV10Table`, `MainTable`): the three cascades as data.
  - `RuleK` is the K-th `if` of the handler. Each one is preceded by a
    comment giving its source lines.
  - Names, thresholds, operators, titles and name lists are copied from the
    code. `&&` and `||` associate to the left as in Go.
  - There are 101 rules in m1.go, 87 in sv10.go and 48 in main.go.
- `m1.dfy`, `sv10.dfy`, `main_get.dfy` (modules `M1`, `SV10`, `MainGet`): the
  three handlers from the fetch result onwards. They also hold the lemmas about
  specific rules of their tables: exclusions, one exact condition, and one
  co-occurrence.
- `beta.dfy` (module `Beta`): `analyzeJoltik`, `analyzeGholdengo_ex` and
  `GetM2a`. Each is an if/else-if method proved against a specification
  function (`Joltik` through `FirstMatch`, and `Gholdengo`), with lemmas about
  those functions.

Each exclusion is proved in two steps:

- a `…Condition…` lemma shows that the two conditions cannot both hold on any
  count map;
- a second lemma places the two rules at their positions in the table and
  concludes that `Satisfied` never holds both indices.

Three behaviours of the code that a reader might not expect:

- **No deduplication.** `analyze` emits one entry per requested name, so a
  name listed twice gives two entries. The m1.go 毒ギミック rule lists
  オンバーンex twice (internal/handlers/m1.go:1292-1298). See
  `Projection.ProjectOccurrences` and `M1.PoisonGimmickShowsNoivernTwice`.
- **Silent fetch failure in main.go.** `Get` in main.go returns without
  writing anything when the fetch, the body read or the decoding fails
  (main.go:156-175), modelled as `NoResponse`. The handlers in m1.go, sv10.go
  and m2a.go reply 500 instead.
- **Counts as given.** Counts are Go `int`s and are summed as they arrive,
  negative or not, so the model uses `int`.

## Model

| member | source | states |
|---|---|---|
| Deck.Aggregate | internal/handlers/m1.go:40-48 | the first-seen branch and the `+=` branch build exactly the per-name sum `CountMapOf(deck)` |
| Deck.LookupCountMapOf | internal/handlers/sv10.go:40-48 | reading the aggregated map gives the per-name sum, and 0 for a name not in the deck |
| Deck.CountOfAbsent | main.go:177-185 | a name with no entry in the deck sums to 0 |
| Deck.CountOfAppend | internal/beta/m2a.go:38-46 | the sum over a deck is the sum over any split of it into two parts |
| Projection.FirstCard | internal/handlers/utils.go:24-33 | the entry the inner loop stops at is a deck entry with the requested name, and there is none exactly when the name is absent from the deck |
| Projection.FirstCardIsFirst | internal/handlers/utils.go:24-33 | that entry is at an index before which no entry has the name (the `break` at the first hit) |
| Projection.Project | internal/handlers/utils.go:23-36 | each requested name contributes at most one entry: the output is no longer than the request |
| Projection.ProjectNames | internal/handlers/utils.go:23-36 | the output names are the requested names that occur in the deck, in requested order, with missing names skipped and no placeholder |
| Projection.ProjectIsSubsequence | internal/handlers/utils.go:23-36 | the output names form a subsequence of the requested names |
| Projection.ProjectNamesIgnoreDeckOrder | internal/handlers/utils.go:23-36 | two decks with the same set of names project to the same names in the same order, so deck order does not matter |
| Projection.ProjectTakesFirstEntry | internal/handlers/utils.go:25-33 | every output entry has the image of the first deck entry with its name |
| Projection.ProjectEmptyDeck | internal/handlers/utils.go:21-36 | an empty deck projects to an empty card list, whatever is requested |
| Projection.PresentOccurrences | internal/handlers/utils.go:23-36 | filtering the requested names by presence keeps every occurrence of a present name and none of an absent one |
| Projection.ProjectOccurrences | internal/handlers/utils.go:23-36 | a name present in the deck appears in the output as often as it is requested, an absent name never: there is no deduplication |
| Projection.ProjectDistinct | internal/handlers/utils.go:24-34 | distinct requested names give distinct output names |
| Projection.ProjectCards | main.go:103-118 | the nested loop with `break` computes `Project(cards, deck)` |
| Projection.Analyze | internal/handlers/utils.go:20-44 | the title is the `title` argument whatever the deck holds, and the cards are `Project(cards, deck)` |
| Rules.EvalReadsOnlyMentioned | main.go:187-812 | a rule condition depends only on the counts of the names it mentions |
| Rules.ConjunctHolds | main.go:189 | when an `&&` chain holds, each of its operands holds |
| Rules.Satisfied | internal/handlers/sv10.go:50-1175 | the indices of the rules that hold, strictly ascending, containing every index whose rule holds and no other |
| Rules.MatchesInDeclarationOrder | main.go:187-812 | the ALL-mode list has one entry per rule that holds, and its k-th entry is the `analyze` result of the k-th such rule in declaration order |
| Rules.MatchesEmptyIff | internal/handlers/m1.go:1399 | the ALL-mode list is empty exactly when no rule's condition holds |
| Rules.FirstMatchIsFirstOfAll | internal/beta/utils.go:65-128 | first-match evaluation gives the head of the ALL-mode list, or nothing when it is empty |
| Rules.EvaluateAll | internal/handlers/m1.go:50-1397 | the cascade of `if … { deckTypes = append(…) }` computes `Matches` over the table |
| M1.GetM1 | internal/handlers/m1.go:11-1404 | 500 on a failed fetch; otherwise the matches in declaration order, with status 204 exactly when no rule holds and 200 otherwise |
| M1.BoosterConditionExcludesEeveeBullet | internal/handlers/m1.go:355-391 | the ブースターex condition (no other eeveelution ex) and the ブイズバレット condition (one of them) never both hold |
| M1.BoosterExcludesEeveeBullet | internal/handlers/m1.go:355-391 | rules 23 and 24 are never both in the M1 list |
| M1.PoisonGimmickConditionExcludesPoisonRoaringMoon | internal/handlers/m1.go:1287-1301 | 毒ギミック needs トドロクツキex and トドロクツキ at 0; 毒トドロクツキ (m1.go:621) needs one of them at 2 or more; the two never both hold |
| M1.PoisonGimmickExcludesPoisonRoaringMoon | internal/handlers/m1.go:1287-1301 | 毒ギミック (rule 94) and 毒トドロクツキ (rule 44, m1.go:621) are never both listed |
| M1.TerastalBulletConditionExcludesRagingBolt | internal/handlers/m1.go:1134-1151 | テラスタルバレット needs タケルライコex at 0, the タケルライコex rule (m1.go:102) needs 2 or more |
| M1.TerastalBulletExcludesRagingBolt | internal/handlers/m1.go:1134-1151 | rules 83 and 4 are never both listed |
| M1.OgerponBulletConditionExcludesRagingBolt | internal/handlers/m1.go:1153-1168 | オーガポンバレット needs タケルライコex at 0, the タケルライコex rule (m1.go:102) needs 2 or more |
| M1.OgerponBulletExcludesRagingBolt | internal/handlers/m1.go:1153-1168 | rules 84 and 4 are never both listed |
| M1.MiraidonConditionExcludesJoltikBullet | internal/handlers/m1.go:1087-1132 | ミライドンex needs バチュル at 0, バチュルバレット needs it at 2 or more |
| M1.MiraidonExcludesJoltikBullet | internal/handlers/m1.go:1087-1132 | rules 80 and 82 are never both listed |
| M1.PoisonGimmickShowsNoivernTwice | internal/handlers/m1.go:1292-1298 | a deck holding オンバーンex gets exactly two オンバーンex entries in the 毒ギミック card list |
| SV10.GetSV10 | internal/handlers/sv10.go:11-1178 | 500 on a failed fetch; otherwise the matches in declaration order, always with status 200, also when the list is empty |
| SV10.RagingBoltIff | internal/handlers/sv10.go:52-66 | the タケルライコex rule is listed exactly when タケルライコex and オーガポン みどりのめんex both count 2 or more |
| SV10.MiraidonConditionExcludesJoltikBullet | internal/handlers/sv10.go:975-1002 | ミライドンex needs バチュル at 0, バチュルバレット needs it at 2 or more |
| SV10.MiraidonExcludesJoltikBullet | internal/handlers/sv10.go:975-1002 | rules 73 and 74 are never both listed |
| SV10.HoOhConditionExcludesSendOffBullet | internal/handlers/sv10.go:571-598 | ヒビキのホウオウex needs グレンアルマ at 0, ひおくりバレット needs it at 2 or more |
| SV10.HoOhExcludesSendOffBullet | internal/handlers/sv10.go:571-598 | rules 41 and 42 are never both listed |
| SV10.FroslassConditionExcludesMarnie | internal/handlers/sv10.go:1072-1082 | ユキメノコ & マシマシラ needs マリィのオーロンゲex at 0, the マリィのオーロンゲex rule (sv10.go:97) needs 2 or more |
| SV10.FroslassExcludesMarnie | internal/handlers/sv10.go:1072-1082 | rules 80 and 3 are never both listed |
| SV10.TerastalConditionMayJoinRagingBolt | internal/handlers/sv10.go:1004-1020 | one count map satisfies both the テラスタルバレット condition and the タケルライコex condition (sv10.go:52) |
| SV10.TerastalBulletMayJoinRagingBolt | internal/handlers/sv10.go:1004-1020 | some count map lists both rule 75 and rule 0: unlike m1.go, this テラスタルバレット rule does not require タケルライコex to be absent |
| MainGet.Get | main.go:128-815 | no response on a failed fetch; otherwise the matches in declaration order, always with status 200, also when the list is empty |
| MainGet.MiraidonConditionExcludesJoltikBullet | main.go:666-693 | ミライドンex needs バチュル at 0, バチュルバレット needs it at 2 or more |
| MainGet.MiraidonExcludesJoltikBullet | main.go:666-693 | rules 37 and 38 are never both listed |
| MainGet.HoOhConditionExcludesSendOffBullet | main.go:523-550 | ヒビキのホウオウex needs グレンアルマ at 0, ひおくりバレット needs it at 2 or more |
| MainGet.HoOhExcludesSendOffBullet | main.go:523-550 | rules 26 and 27 are never both listed |
| MainGet.FroslassConditionNeedsNoMarnie | main.go:744-754 | the ユキメノコ & マシマシラ condition implies a マリィのオーロンゲex count of 0 |
| MainGet.FroslassNeedsNoMarnie | main.go:744-754 | with a nonzero マリィのオーロンゲex count ユキメノコ & マシマシラ is not listed, and it is never listed beside マリィのオーロンゲex (main.go:234) |
| Beta.JoltikConditions | internal/beta/utils.go:66-96 | the two branch conditions of `analyzeJoltik`, read as count comparisons |
| Beta.AnalyzeJoltik | internal/beta/utils.go:65-129 | the if/else-if chain computes `Joltik`, the first-match result with no sub-archetype |
| Beta.JoltikCases | internal/beta/utils.go:65-128 | nil when バチュル is below 2 or サーフゴーex is 1 or 2; non-nil exactly when バチュル is at least 2 and サーフゴーex is at least 3 or 0; the title follows the サーフゴーex count |
| Beta.JoltikBranchesExclusive | internal/beta/utils.go:66-96 | the two branch conditions never both hold, so at most one branch would match even in ALL mode |
| Beta.JoltikHasNoSubArchetype | internal/beta/utils.go:68-93 | a Joltik result has an empty sub-title and no sub-cards, and its cards are the projection of the name list of the branch that matched: [バチュル, サーフゴーex] for バチュル&サーフゴーex, [バチュル] for バチュルバレット, in that order |
| Beta.GholdengoConditions | internal/beta/utils.go:132-154 | the main condition and the refinement condition of `analyzeGholdengo_ex`, read as count comparisons |
| Beta.AnalyzeGholdengoEx | internal/beta/utils.go:131-184 | the method, including the refinement block that reassigns the name list, computes `Gholdengo` |
| Beta.GholdengoIff | internal/beta/utils.go:132-183 | a result exists exactly when サーフゴーex counts at least 3 and バチュル counts 0 |
| Beta.GholdengoRefinement | internal/beta/utils.go:154-178 | the title is サーフゴーex and the main cards are projected from [サーフゴーex] in either case; the sub-title is ルナトーン/ソルロック exactly when both count at least 2, and then the sub-cards are projected from those two names; otherwise the sub-title is empty and there are no sub-cards |
| Beta.GholdengoCardsFollowNameLists | internal/beta/utils.go:138-169 | main and sub cards keep the order of their name lists, with at most one entry per listed name |
| Beta.JoltikExcludesGholdengo | internal/beta/utils.go:65-184 | no count map gives both a Joltik and a Gholdengo result (バチュル at least 2 against バチュル at 0) |
| Beta.GetM2a | internal/beta/m2a.go:11-54 | 500 on a failed fetch; the single Gholdengo result with 200 when there is one; otherwise `DeckType{}` with 204; a deck summing to at least 3 サーフゴーex with no バチュル entry always gets 200 |

## Left out

- HTTP fetching, body reading and JSON decoding are left out. A handler receives their outcome as a `Fetch` value, and all failures collapse into `FetchFailed`. Error message bodies are not modelled; only the status is.
- Malformed records are assumed away: a JSON `null` element of the deck list decodes to a nil `*Card`, and the aggregation loop would dereference it (`card.Name`, e.g. internal/handlers/m1.go:41-42) and panic. A `Fetched` deck holds only well-formed `Card` values, so the model cannot express that deck or the panic.
- `Response` is what a handler passes to gin's `ctx.JSON`, not what goes over the wire. Gin sends no body with a 204, so clients of `GetM1` and `GetM2a` never see the `[]` or `DeckType{}` of `Json(StatusNoContent, …)`. `NoResponse` (main.go's failed fetch) reaches the client as an empty 200 written by the server.
- Server setup is left out: routing, CORS, the signal context, the listener goroutine and shutdown (main.go:34-100). It is process lifecycle and concurrency.
- `getAcespecCard` and the `AcespecCard` field are left out. The function is network I/O, and no modelled code fills the field.
- `DetailURL` is not modelled, because nothing reads it. Image URLs are opaque strings.
- The difference between a nil slice and an empty one is not modelled. Go encodes `analyze`'s empty `mainCards` and beta's nil `subCards` as JSON `null`, and the model uses `[]` for both.
- Go's `int` is 64 bits wide, so summing counts could in principle wrap around. The model uses unbounded integers.
- The three Go packages declare identical `Card` shapes, and `MainCard` (internal/handlers/utils.go:10-13, main.go:24-27) has the same shape as beta's `DeckCard` (internal/beta/utils.go:23-26); the model declares each once (`Deck.Card`, `Projection.MainCard`). The `DeckType` of the handlers and of main.go (title and main cards) is `Projection.DeckType`; beta's `DeckType` differs (main and sub titles and cards, internal/beta/utils.go:28-34) and is `Beta.BetaDeckType`.
- The two `analyze` copies (internal/handlers/utils.go:20-44 and main.go:102-126) are identical, and both are modelled by `Projection.Analyze`.
- The beta `DeckType` is produced at most once per call. This holds by the result type (`Option<BetaDeckType>`, one response body) and is not a separate lemma.
- Exclusions are proved for the rule pairs named in the table above, not for every pair of rules in the three tables.
