# Protein price tracker and improvement loop: a Dafny model

This project models the decision logic of a small tracker. Every day the
tracker searches a marketplace for a fixed list of protein products. It
prices each listing per kilogram of protein, keeps the cheapest ones, records
the day's minimum in a Min_Summary worksheet, and announces shop changes and
all-time lows. The model covers these parts of `main.py`:

- **Listing classifier and cost model (module `Offers`).** Covers title
  normalisation, the exclusion-keyword and strict capacity filters, the
  effective cost per kilogram of protein, and the reason-coded classification
  of one search hit.
- **Minimum bookkeeping (module `MinSummary`).** Covers reading yesterday's
  minima and the all-time minima from the Min_Summary rows. It also covers the
  upsert of today's minimum into the worksheet. The worksheet is the class
  `MinSheet`, whose grid of cells the upsert changes in place.
- **Per-product step of the daily run (module `Ranking`).** Covers the
  classification loop with its `seen` key set and drop counters, the stable
  sort by cost, the `STORE_HITS` cut, the upsert of the best offer, and the
  choice of notice.

It also models the triage scoring of `tools/improve_loop.py` (module
`ImproveLoop`). Each open issue receives four keyword-driven scores, a blocked
flag, notes and questions. The run then picks the best unblocked issue, or
else the first issue.

Two modules model Python built-ins the code relies on:

- `PyText` covers `str.lower`, `in`, `strip`, `splitlines()[0]` and `str(int)`.
- `PySort` covers the stable `list.sort`/`sorted` by key and the slice `s[:k]`.

`Wrappers` holds `Option`.

Two decisions of the code are worth stating:

- A product whose capacity is not positive is not skipped: its capacity check
  passes (`main.py:512-513`). A hit is dropped as `invalid_offer` only when
  it passes the earlier checks and capacity × protein ratio is not positive
  (`main.py:552-554`). With a negative capacity and a negative ratio the
  product is priced like any other.
- The strict capacity match is switched on by a constant (`main.py:63`). Only
  that branch is modelled.

Costs, rates and ratios are `real`; prices and counts are `int`. Values the
code takes from the environment or the clock are parameters: today's date,
`DEFAULT_SHIPPING_YEN`, `EXTRA_POINT_RATE`, `STORE_HITS`, `EXCLUDE_KEYWORDS`,
the update timestamp, and the text `str(float)` gives a cost.

## Model

| member | source | states |
|---|---|---|
| Offers.NormName | main.py:499-507 | The normalised title holds no white space, no ASCII capital, no full-width digit and none of ｋ ｇ Ｋ Ｇ; an empty title normalises to the empty text |
| Offers.NormNameAppend | main.py:499-507 | Normalisation works character by character: it distributes over concatenation |
| Offers.NormNameChar | main.py:500-506 | One character becomes its lower-cased, half-width form, or disappears when that is white space |
| Offers.NormNameFixed | main.py:499-507 | A title already without spaces and in normal form is unchanged |
| Offers.LooksLikeGarbage | main.py:495-497 | True exactly when some exclusion keyword occurs in the title |
| Offers.EmptyNameNotGarbage | main.py:495-497 | The empty title is never excluded when no keyword is empty |
| Offers.DefaultKeywordsNonEmpty | main.py:50-60 | No entry of the default exclusion list is empty, as the `if k.strip()` filter guarantees |
| Offers.DefaultListPassesEmptyName | main.py:50-60 | Under the default list the empty title is not excluded |
| Offers.RoundHalfEven | main.py:519 | `round` gives an integer within one half of its argument, and the even one on a tie |
| Offers.CapacityStrictMatch | main.py:509-524 | Matches exactly when the capacity is not positive or the normalised title contains `<round(kg)>kg` (1 kg and up) or `<round(kg*1000)>g` (below 1 kg); the regular expressions add no other case |
| OffersExamples.ThreeKgMatches | main.py:509-521 | A title "3kg" matches a 3 kg product |
| OffersExamples.NormNameThreeHundredGrams | main.py:499-507 | "300g" is already in normal form |
| OffersExamples.ThreeHundredGramsMismatch | main.py:509-521 | A title "300g" does not match a 3 kg product |
| OffersExamples.FullWidthTwoKgMatches | main.py:499-521 | The full-width title "２ｋｇ" matches a 2 kg product |
| OffersExamples.WorkedExampleCapacity | main.py:509-521 | "プロテイン 3kg" matches a 3 kg product, the space being removed |
| OffersExamples.WorkedExample | main.py:526-569 | A 3 kg tub at 75 % protein, 9000 yen, postage flag 1 and 2 % points gives shipping 800, point rate 0.02 and cost 9800 × 0.98 / 2.25 |
| Offers.Clamp01 | main.py:549-550 | `max(0.0, min(1.0, x))` lies in [0, 1], is `x` inside it and the nearer bound outside |
| Offers.EffectiveCostSign | main.py:556 | A positive amount after points in [0, 1], over a positive denominator, is non-negative, and positive when the rate is below 1 |
| Offers.ComputeOffer | main.py:526-569 | No offer exactly when code or shop is empty, the price is not positive, the title is excluded, the capacity mismatches or capacity × ratio is not positive; otherwise the offer copies the hit's fields, adds the default shipping exactly for postage flag 1, has a point rate in [0, 1] and the cost (price + shipping)(1 − rate)/(capacity × ratio) |
| Offers.OfferCostSign | main.py:544-566 | With non-negative default shipping an offer's cost is non-negative, and positive unless the points cover the whole price |
| Offers.ClassifyItemFilter | main.py:572-593 | Each reason is reported exactly when its check is the first to fail, in the order missing/invalid price, excluded keyword, capacity mismatch, invalid offer, duplicate; the hit is accepted exactly when it yields an offer whose key is not yet seen, and the accepted offer is that offer; the result is an offer or a reason, never both, and `seen` is only read |
| MinSummary.ReadMinSummary | main.py:360-374 | The loop builds the dictionary `SummaryOf` describes |
| MinSummary.SummaryOfSpec | main.py:363-373 | A product is in yesterday's dictionary exactly when it has a non-empty id and a row on the date; its entry is that of the last such row |
| MinSummary.ReadAlltimeMin | main.py:376-389 | The loop builds the dictionary `AlltimeOf` describes |
| MinSummary.AlltimeOfKeys | main.py:379-382 | A product has an all-time entry exactly when its id is non-empty and some row names it |
| MinSummary.AlltimeOfMin | main.py:383-388 | The all-time entry is that of a row of least cost for the product, and of the first such row |
| MinSummary.FirstMatchFrom | main.py:400-404 | The first row at or after the start index whose cells A and B hold (date, id), or none when no such row exists |
| MinSummary.UpdateCellsColumns | main.py:408 | Updating C:F puts the four new cells in columns C to F and keeps columns A, B and those past F |
| MinSummary.UpsertChangesOneRow | main.py:396-410 | With a matching data row (from row 2 on), only the first such row changes, and only in C:F, the new cells landing there; otherwise exactly one row (date, id, cells) is appended and the rest stay |
| MinSummary.UpsertThenFind | main.py:396-410 | On a sheet with its header row, after the upsert the (date, id) row is found, and holds the new cells |
| MinSummary.UpsertIdempotent | main.py:396-410 | On a sheet with its header row, upserting the same cells twice gives the sheet one upsert gives |
| MinSummary.HeaderlessSheetAppendsAgain | main.py:399-410 | The scan starts at the second row, so on an empty sheet (no header, which is only written when the worksheet is created, main.py:284-288) a second identical upsert appends a second row |
| MinSummary.UpsertKeepsOtherKeys | main.py:396-410 | The rows of every other (date, id) are found where they were |
| MinSummary.MinSheet.UpsertTodayMin | main.py:391-410 | The scan with its early exit leaves the worksheet as `UpsertRows` describes |
| PySort.SortBy | main.py:667 | The sort keeps length and elements (a permutation) and orders them by key |
| PySort.SortByStable | main.py:667 | Elements of equal key keep their input order |
| PySort.SortByHeadIsFirstMin | main.py:667 | The head of the sorted list is the first element of least key |
| PySort.Prefix | main.py:668 | `s[:k]` has length `min(k, len(s))`, or `len(s) + k` floored at 0 for negative `k`, and is a prefix of `s` |
| Ranking.DropCounts.Add | main.py:646-648 | The counter of the reason goes up by one, the others stay, the total goes up by one |
| Ranking.CollectOffers | main.py:634-652 | The classification loop reaches the state `Collect` describes |
| Ranking.CollectBookkeeping | main.py:634-652 | After the loop `seen` holds exactly the keys of the accepted offers, which are pairwise distinct, and these are the keys of all offers the hits yield; every hit is accepted or counted once as dropped |
| Ranking.CollectKeepsFirstOfEachKey | main.py:644-652 | The accepted offers are exactly those of the hits that are the first of their key, in hit order |
| Ranking.RankOffersSpec | main.py:666-668 | The kept offers ascend in cost, are drawn from the accepted ones, number `min(STORE_HITS, accepted)` for non-negative `STORE_HITS`, and no offer cut off is cheaper than any kept |
| Ranking.BestIsFirstCheapest | main.py:667-675 | The best offer is the first accepted offer of least cost |
| Ranking.CutOffers | main.py:667-668 | The offers the `[:STORE_HITS]` slice discards are the tail of the sorted list after the kept ones: kept and cut together are exactly the accepted offers, and no cut offer is cheaper than a kept one |
| Ranking.StoreLimitDropsAgree | main.py:654-656 | For non-negative `STORE_HITS` the logged `store_hits_limit` is the number the slice discards |
| Ranking.StoreLimitDropsOvershoot | main.py:655-668 | For every negative `STORE_HITS` and every list of accepted offers, the logged `store_hits_limit` exceeds the number of offers the slice discards |
| Ranking.StoreLimitDropsNegative | main.py:655-668 | An instance: with five accepted offers and `STORE_HITS` = −2 the logged count is 7 while the slice discards 2 |
| Ranking.NewLowIffBelowEveryRecord | main.py:683 | Today's best is a new all-time low exactly when it is strictly below every recorded row of the product (true when there is none) |
| Ranking.ChangedShopIffLastRowDiffers | main.py:682 | The shop changed exactly when yesterday has a row of the product and the last such row names another shop (false when there is none) |
| Ranking.NoticeFor | main.py:682-706 | No notice exactly when neither flag holds; a new low takes the "過去最安更新" headline, else "最安ショップ入れ替わり"; it lists the first three kept offers |
| Ranking.FirstSightingIsNewLow | main.py:682-685 | A product without an all-time record is always announced as a new low |
| Ranking.ProcessEntry | main.py:634-685 | The kept offers are the ranked accepted ones and the drop counters and store-limit count are those of the loop; with no kept offer there is no notice and the worksheet is unchanged, otherwise the best offer is upserted and the notice is `NoticeFor` |
| PyText.Strip | tools/improve_loop.py:90 | `strip()` is the slice of the text between a run of leading and a run of trailing white space; a non-empty result neither starts nor ends with white space; the result is empty exactly when the text is all white space |
| PyText.FirstLine | tools/improve_loop.py:90 | The first line is a prefix of the text without a line boundary, ended by one or by the end |
| PyText.NatToStringRoundTrip | main.py:521-524 | The decimal text of a count reads back as that count |
| ImproveLoop.ScoreCard.Total | tools/improve_loop.py:27-29 | With every score in 1..5 the total lies in 4..20 |
| ImproveLoop.ClampScore | tools/improve_loop.py:80-81 | The result lies in 1..5, is `n` inside that range and the nearer bound outside |
| ImproveLoop.ClampScoreIdempotentMonotone | tools/improve_loop.py:80-81 | Clamping twice is clamping once, and clamping keeps the order of its arguments |
| ImproveLoop.ContainsAny | tools/improve_loop.py:84-86 | True exactly when some word occurs in the lower-cased text |
| ImproveLoop.CapitalWordNeverMatches | tools/improve_loop.py:84-86 | A word with an ASCII capital never matches, so removing it changes nothing |
| ImproveLoop.EffortIgnoresDb | tools/improve_loop.py:120-121 | The "DB" keyword of the effort list never matches, so it never lowers the effort score |
| ImproveLoop.ParseFirstLineExpectation | tools/improve_loop.py:89-93 | Well formed exactly when the stripped first line holds "→"; the line is reported exactly when the body and the stripped line are non-empty, and is that stripped line |
| ImproveLoop.BlankBodyNotWellFormed | tools/improve_loop.py:89-93 | A null, empty or blank body is never well formed, and a null or empty one yields (False, None) |
| ImproveLoop.ReviewBody | tools/improve_loop.py:101-148 | Blocked exactly when some note is given; at most two notes, and at least as many questions as notes, at most three |
| ImproveLoop.AssessSpec | tools/improve_loop.py:101-148 | Blocked exactly when the first line lacks the arrow; the notes and questions are exactly those the source appends, in its order |
| ImproveLoop.EmptyBodyBlocked | tools/improve_loop.py:98-148 | An issue without a body is blocked, with the format and empty-body notes and questions |
| ImproveLoop.ScoreOfSpec | tools/improve_loop.py:111-140 | Each axis starts at 3 and moves by its keyword lists; before clamping impact lies in 3..5, effort and risk in 1..4, measurability in 2..4, so clamping never bites; the total lies in 7..17 |
| ImproveLoop.ScoreAxes | tools/improve_loop.py:111-140 | The four counters, updated step by step and clamped, give `ScoreOf` of the text |
| ImproveLoop.RecordFindings | tools/improve_loop.py:102-148 | The flag and the two lists, appended in the source's order, are the flag, notes and questions of the review |
| ImproveLoop.CheckBody | tools/improve_loop.py:101-148 | The checks of the body give `ReviewBody` of it |
| ImproveLoop.ScoreIssue | tools/improve_loop.py:96-156 | The evaluation is `Assess` of the issue: scores in range and the review of its body |
| ImproveLoop.BuildChecklist | tools/improve_loop.py:204-217 | Three items for a blocked issue, five otherwise |
| ImproveLoop.NonBlockedMembers | tools/improve_loop.py:274 | The filtered list holds exactly the evaluations that are not blocked |
| ImproveLoop.NonBlockedFirstMin | tools/improve_loop.py:274-277 | The first element of least negated total among the unblocked evaluations is the first unblocked one of highest total |
| ImproveLoop.TriageSpec | tools/improve_loop.py:267-290 | Nothing to do exactly when there are no issues; an issue is queued exactly when some issue is unblocked, and it is the first unblocked one of highest total; otherwise the first issue is the one blocked |

## Left out

- The marketplace HTTP client and its pagination (`main.py:416-490`) are network I/O and are not modelled. The hits arrive already read as `RawItem`s: texts stripped, `safe_int`/`safe_float` already applied.
- Worksheet access (`main.py:259-358`) is left out: authentication, opening, history headers and appends. Min_Summary is read as parsed `MinRecord`s for the two readers and as the grid of cells for the upsert. The model does not tie these two views together.
- Discord and Hatena posting, markdown rendering and notification texts are left out, and so are two truncations: `discord_notify` cuts every message (change notices, run summary and failure report alike) to its first 1800 characters (`main.py:123`), and the failure handler keeps the last 1800 characters of the traceback (`main.py:757`). These are I/O and formatting. A notice keeps only its headline kind and the offers it lists.
- `GitHubClient`, `post_discord`, `build_codex_prompt`, `build_discord_message` and the label and comment calls of `tools/improve_loop.py` are REST and webhook I/O or fixed copy, and are not modelled.
- Environment parsing, `jst_*`/`utc_now_iso` and `time.sleep` are left out. Their values are parameters.
- The model reads the run date once: the same `today` is every offer's date, every dedup key and the Min_Summary key. The code reads the clock again for each hit (`main.py:527`, in `compute_offer`) and separately for the upsert (`main.py:603`, `main.py:677`). A run that crosses midnight JST gives later offers the next day's date, so their keys cannot collide with earlier ones and their date differs from the upserted row's; the model does not capture this.
- Floating point is modelled as exact `real` arithmetic. Rounding in `round(kg * 1000)`, NaN and IEEE infinities are not captured, except that a missing Min_Summary cost reads as +∞ (`Cost.Infinite`).
- `str(float)` of the cost written to Min_Summary is a parameter (`render`) of `Ranking.ProcessEntry`.
- `PyText.Lower` maps only ASCII and full-width Latin capitals. Other Unicode case mappings of `str.lower` are not modelled. `PyText.IsSpace` and `PyText.IsLineBreak` cover a fixed set of white-space and line-boundary characters.
- `_norm_name(None)` and a null title or item name are not modelled. The code reads every field through `str(...)`, so they arrive as text.
- The disabled branch of `capacity_strict_match` (`STRICT_CAPACITY_MATCH = False`) is not modelled.
- The outer loop over master products in `main` (`main.py:620-707`), `read_master`, the history buffer and the final ranking of each product's best offer are left out. The model covers one iteration of that loop (`Ranking.ProcessEntry`).
- `offers_for_this.sort(...)` sorts in place. The model sorts the sequence as a value (`PySort.SortBy`), so aliasing of the list is not captured.
- `ImproveLoop.ScoreIssue` runs the score counters before the body checks. The code runs the format check, then the counters, then the blank-body and arrow checks. The two parts touch disjoint variables, so the evaluation is the same.
- `ImproveLoop.BuildChecklist`: only the number of items is stated as a contract. The items themselves are the fixed texts of the source.
- An issue's title is a text. A JSON `null` title, which the f-string would render as "None", is not modelled.
