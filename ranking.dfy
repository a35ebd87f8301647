/**
 * The per-product step of the tracker's daily run (`main.py`, `main`):
 * classify every search hit, keep the first offer of each key, sort the
 * offers by effective cost and keep the cheapest `STORE_HITS`, record the
 * day's best in Min_Summary and decide whether it is worth a notice.
 */
module Ranking {
  import opened Wrappers
  import opened PySort
  import opened Offers
  import opened MinSummary

  /** The per-reason drop counters of one product, as `filter_drop_counts` keeps them. */
  datatype DropCounts = DropCounts(missing: nat, excluded: nat, capacity: nat, invalid: nat, duplicate: nat)
  {
    function Total(): nat {
      missing + excluded + capacity + invalid + duplicate
    }

    /** One more hit dropped for `reason`. */
    function Add(reason: DropReason): (d: DropCounts)
      ensures d.Total() == Total() + 1
      ensures d.missing == missing + (if reason == MissingRequiredOrInvalidPrice then 1 else 0)
      ensures d.excluded == excluded + (if reason == ExcludedKeyword then 1 else 0)
      ensures d.capacity == capacity + (if reason == CapacityMismatch then 1 else 0)
      ensures d.invalid == invalid + (if reason == InvalidOffer then 1 else 0)
      ensures d.duplicate == duplicate + (if reason == Duplicate then 1 else 0)
    {
      match reason
      case MissingRequiredOrInvalidPrice => this.(missing := missing + 1)
      case ExcludedKeyword => this.(excluded := excluded + 1)
      case CapacityMismatch => this.(capacity := capacity + 1)
      case InvalidOffer => this.(invalid := invalid + 1)
      case Duplicate => this.(duplicate := duplicate + 1)
    }
  }

  const NoDrops := DropCounts(0, 0, 0, 0, 0)

  /** What the classification loop has gathered: the accepted offers, their keys and the drop counters. */
  datatype Collected = Collected(accepted: seq<OfferRow>, seen: set<OfferKey>, drops: DropCounts)

  /** One pass of the classification loop: classify `item` against the keys seen so far. */
  function Step(cfg: Config, today: string, master: MasterItem, st: Collected, item: RawItem): Collected {
    match ClassifyItemFilter(cfg, today, master, item, st.seen)
    case Accepted(o) => Collected(st.accepted + [o], st.seen + {KeyOf(o)}, st.drops)
    case Dropped(reason) => Collected(st.accepted, st.seen, st.drops.Add(reason))
  }

  /** The state of the classification loop after the hits `items`, classified in order. */
  function Collect(cfg: Config, today: string, master: MasterItem, items: seq<RawItem>): Collected
    decreases |items|
  {
    if items == [] then Collected([], {}, NoDrops)
    else Step(cfg, today, master, Collect(cfg, today, master, items[..|items| - 1]), items[|items| - 1])
  }

  /** The loop over the hits of one product: an accepted offer is kept and its key remembered, a drop is counted. */
  method CollectOffers(cfg: Config, today: string, master: MasterItem, items: seq<RawItem>)
    returns (accepted: seq<OfferRow>, seen: set<OfferKey>, drops: DropCounts)
    ensures Collected(accepted, seen, drops) == Collect(cfg, today, master, items)
  {
    accepted, seen, drops := [], {}, NoDrops;
    var i := 0;
    while i < |items|
      invariant 0 <= i <= |items|
      invariant Collected(accepted, seen, drops) == Collect(cfg, today, master, items[..i])
    {
      ghost var before := Collected(accepted, seen, drops);
      var c := ClassifyItemFilter(cfg, today, master, items[i], seen);
      match c {
        case Accepted(o) =>
          seen := seen + {KeyOf(o)};
          accepted := accepted + [o];
        case Dropped(reason) =>
          drops := drops.Add(reason);
      }
      assert Collected(accepted, seen, drops) == Step(cfg, today, master, before, items[i]);
      assert items[..i + 1][..i] == items[..i];
      i := i + 1;
    }
    assert items[..|items|] == items;
  }

  /** The key of an offer, as a set: empty when there is no offer. */
  function KeySet(o: Option<OfferRow>): set<OfferKey> {
    match o
    case None => {}
    case Some(offer) => {KeyOf(offer)}
  }

  /** The keys of all offers the hits `items` yield. */
  function OfferKeys(cfg: Config, today: string, master: MasterItem, items: seq<RawItem>): set<OfferKey>
    decreases |items|
  {
    if items == [] then {}
    else OfferKeys(cfg, today, master, items[..|items| - 1]) + KeySet(ComputeOffer(cfg, today, master, items[|items| - 1]))
  }

  /** `seen` holds exactly the keys of the accepted offers, and those keys are distinct. */
  predicate KeysTracked(st: Collected) {
    && st.seen == (set o | o in st.accepted :: KeyOf(o))
    && forall k, l :: 0 <= k < l < |st.accepted| ==> KeyOf(st.accepted[k]) != KeyOf(st.accepted[l])
  }

  /** One pass keeps the keys tracked, adds the key of the hit's offer to `seen`, and counts the hit once. */
  lemma StepBookkeeping(cfg: Config, today: string, master: MasterItem, st: Collected, item: RawItem)
    requires KeysTracked(st)
    ensures var st' := Step(cfg, today, master, st, item);
      && KeysTracked(st')
      && st'.seen == st.seen + KeySet(ComputeOffer(cfg, today, master, item))
      && st'.drops.Total() + |st'.accepted| == st.drops.Total() + |st.accepted| + 1
  {
    match ClassifyItemFilter(cfg, today, master, item, st.seen)
    case Accepted(o) =>
      var acc := st.accepted + [o];
      assert forall x :: x in acc <==> x in st.accepted || x == o;
      assert st.seen + {KeyOf(o)} == (set x | x in acc :: KeyOf(x));
      forall k | 0 <= k < |st.accepted| ensures KeyOf(st.accepted[k]) != KeyOf(o) {
        assert KeyOf(st.accepted[k]) in st.seen;
      }
    case Dropped(reason) =>
  }

  /**
   * The bookkeeping of the loop: `seen` holds exactly the accepted keys,
   * which are distinct, and these are the keys of every offer the hits
   * yield; and every hit is either accepted or counted as dropped.
   */
  lemma {:induction false} CollectBookkeeping(cfg: Config, today: string, master: MasterItem, items: seq<RawItem>)
    ensures var st := Collect(cfg, today, master, items);
      && KeysTracked(st)
      && st.seen == OfferKeys(cfg, today, master, items)
      && st.drops.Total() + |st.accepted| == |items|
    decreases |items|
  {
    if items != [] {
      var n := |items| - 1;
      var p := items[..n];
      CollectBookkeeping(cfg, today, master, p);
      var st := Collect(cfg, today, master, p);
      StepBookkeeping(cfg, today, master, st, items[n]);
      assert Collect(cfg, today, master, items) == Step(cfg, today, master, st, items[n]);
    }
  }

  /** Hit `i` yields an offer, and no earlier hit yields an offer with the same key. */
  predicate FirstOfKey(cfg: Config, today: string, master: MasterItem, items: seq<RawItem>, i: int) {
    && 0 <= i < |items|
    && ComputeOffer(cfg, today, master, items[i]).Some?
    && KeyOf(ComputeOffer(cfg, today, master, items[i]).value) !in OfferKeys(cfg, today, master, items[..i])
  }

  /**
   * `origin` lists, in increasing order, exactly the hits that are the first
   * of their key, and `accepted[k]` is the offer of hit `origin[k]`.
   */
  predicate IsOrigin(cfg: Config, today: string, master: MasterItem, items: seq<RawItem>,
                     accepted: seq<OfferRow>, origin: seq<nat>) {
    && |origin| == |accepted|
    && (forall k :: 0 <= k < |origin| ==>
          origin[k] < |items| && ComputeOffer(cfg, today, master, items[origin[k]]) == Some(accepted[k]))
    && (forall k, l :: 0 <= k < l < |origin| ==> origin[k] < origin[l])
    && (forall i :: 0 <= i < |items| ==> (FirstOfKey(cfg, today, master, items, i) <==> i in origin))
  }

  /** Extending the hits with one more leaves the verdict on the earlier hits unchanged. */
  lemma FirstOfKeyPrefix(cfg: Config, today: string, master: MasterItem, items: seq<RawItem>, i: int)
    requires items != [] && 0 <= i < |items| - 1
    ensures FirstOfKey(cfg, today, master, items[..|items| - 1], i) <==> FirstOfKey(cfg, today, master, items, i)
  {
    assert items[..|items| - 1][..i] == items[..i];
  }

  /** What an origin of the first `n` hits says, restated over all the hits. */
  lemma OriginOfPrefix(cfg: Config, today: string, master: MasterItem, items: seq<RawItem>,
                       accepted: seq<OfferRow>, origin: seq<nat>)
    requires items != [] && IsOrigin(cfg, today, master, items[..|items| - 1], accepted, origin)
    ensures |origin| == |accepted|
    ensures forall k :: 0 <= k < |origin| ==>
      origin[k] < |items| - 1 && ComputeOffer(cfg, today, master, items[origin[k]]) == Some(accepted[k])
    ensures forall k, l :: 0 <= k < l < |origin| ==> origin[k] < origin[l]
    ensures forall i :: 0 <= i < |items| - 1 ==> (FirstOfKey(cfg, today, master, items, i) <==> i in origin)
  {
    var n := |items| - 1;
    forall i | 0 <= i < n ensures FirstOfKey(cfg, today, master, items, i) <==> i in origin {
      FirstOfKeyPrefix(cfg, today, master, items, i);
    }
    forall k | 0 <= k < |origin| ensures items[origin[k]] == items[..n][origin[k]] { }
  }

  /** A hit accepted after `items[..n]` is the first of its key, and its index extends the origin. */
  lemma OriginAccepted(cfg: Config, today: string, master: MasterItem, items: seq<RawItem>,
                       st: Collected, origin: seq<nat>, o: OfferRow)
    requires items != [] && IsOrigin(cfg, today, master, items[..|items| - 1], st.accepted, origin)
    requires st.seen == OfferKeys(cfg, today, master, items[..|items| - 1])
    requires ClassifyItemFilter(cfg, today, master, items[|items| - 1], st.seen) == Accepted(o)
    ensures IsOrigin(cfg, today, master, items, st.accepted + [o], origin + [|items| - 1])
  {
    OriginOfPrefix(cfg, today, master, items, st.accepted, origin);
    assert FirstOfKey(cfg, today, master, items, |items| - 1);
  }

  /** A hit dropped after `items[..n]` is not the first of its key, and the origin stays as it was. */
  lemma OriginDropped(cfg: Config, today: string, master: MasterItem, items: seq<RawItem>,
                      st: Collected, origin: seq<nat>, reason: DropReason)
    requires items != [] && IsOrigin(cfg, today, master, items[..|items| - 1], st.accepted, origin)
    requires st.seen == OfferKeys(cfg, today, master, items[..|items| - 1])
    requires ClassifyItemFilter(cfg, today, master, items[|items| - 1], st.seen) == Dropped(reason)
    ensures IsOrigin(cfg, today, master, items, st.accepted, origin)
  {
    OriginOfPrefix(cfg, today, master, items, st.accepted, origin);
    assert !FirstOfKey(cfg, today, master, items, |items| - 1);
  }

  /**
   * The accepted offers are exactly the offers of the hits that are the
   * first of their key, in the order of the hits: a later hit with a key
   * already seen is a duplicate.
   */
  lemma {:induction false} CollectKeepsFirstOfEachKey(cfg: Config, today: string, master: MasterItem, items: seq<RawItem>)
    ensures exists origin :: IsOrigin(cfg, today, master, items, Collect(cfg, today, master, items).accepted, origin)
    decreases |items|
  {
    if items == [] {
      assert Collect(cfg, today, master, items).accepted == [];
      assert IsOrigin(cfg, today, master, items, [], []);
    } else {
      var n := |items| - 1;
      var p := items[..n];
      CollectKeepsFirstOfEachKey(cfg, today, master, p);
      CollectBookkeeping(cfg, today, master, p);
      var st := Collect(cfg, today, master, p);
      var origin: seq<nat> :| IsOrigin(cfg, today, master, p, st.accepted, origin);
      assert Collect(cfg, today, master, items) == Step(cfg, today, master, st, items[n]);
      match ClassifyItemFilter(cfg, today, master, items[n], st.seen)
      case Accepted(o) =>
        OriginAccepted(cfg, today, master, items, st, origin, o);
      case Dropped(reason) =>
        OriginDropped(cfg, today, master, items, st, origin, reason);
    }
  }

  // ---------------------------------------------------------------------
  // Ranking and the store limit
  // ---------------------------------------------------------------------

  /** The sort key: `lambda x: x.protein_cost`. */
  function CostKey(o: OfferRow): real {
    o.proteinCost
  }

  /** `offers.sort(key=…)` followed by `offers[:STORE_HITS]`. */
  function RankOffers(accepted: seq<OfferRow>, storeHits: int): seq<OfferRow> {
    Prefix(SortBy(accepted, CostKey), storeHits)
  }

  /**
   * The kept offers are in ascending cost order, are drawn from the accepted
   * ones, number at most `STORE_HITS`, and none of the offers cut off is
   * cheaper than any offer kept.
   */
  lemma RankOffersSpec(accepted: seq<OfferRow>, storeHits: int)
    ensures var r := RankOffers(accepted, storeHits);
      && Sorted(r, CostKey)
      && multiset(r) <= multiset(accepted)
      && (storeHits >= 0 ==> |r| == if storeHits <= |accepted| then storeHits else |accepted|)
      && forall k, y :: 0 <= k < |r| && y in multiset(accepted) - multiset(r) ==> CostKey(r[k]) <= CostKey(y)
  {
    var s := SortBy(accepted, CostKey);
    var r := Prefix(s, storeHits);
    assert r == s[..|r|];
    SortedSplit(s, |r|);
  }

  /**
   * Cutting a sorted sequence at `n` leaves a sorted head whose elements are
   * drawn from the whole, and no element cut off is cheaper than one kept.
   */
  lemma SortedSplit(s: seq<OfferRow>, n: int)
    requires Sorted(s, CostKey) && 0 <= n <= |s|
    ensures Sorted(s[..n], CostKey)
    ensures multiset(s[..n]) <= multiset(s)
    ensures forall k, y :: 0 <= k < n && y in multiset(s) - multiset(s[..n]) ==> CostKey(s[..n][k]) <= CostKey(y)
  {
    SortedPrefix(s, n);
    PrefixSubMultiset(s, n);
    PrefixBelowRest(s, n);
  }

  lemma SortedPrefix(s: seq<OfferRow>, n: int)
    requires Sorted(s, CostKey) && 0 <= n <= |s|
    ensures Sorted(s[..n], CostKey)
  {
    forall i, j | 0 <= i < j < n ensures CostKey(s[..n][i]) <= CostKey(s[..n][j]) {
      assert s[..n][i] == s[i] && s[..n][j] == s[j];
    }
  }

  lemma PrefixSubMultiset<T>(s: seq<T>, n: int)
    requires 0 <= n <= |s|
    ensures multiset(s[..n]) <= multiset(s)
  {
    assert s == s[..n] + s[n..];
  }

  lemma PrefixBelowRest(s: seq<OfferRow>, n: int)
    requires Sorted(s, CostKey) && 0 <= n <= |s|
    ensures forall k, y :: 0 <= k < n && y in multiset(s) - multiset(s[..n]) ==> CostKey(s[..n][k]) <= CostKey(y)
  {
    forall k, y | 0 <= k < n && y in multiset(s) - multiset(s[..n]) ensures CostKey(s[..n][k]) <= CostKey(y) {
      var m := InDroppedPart(s, n, y);
      assert s[..n][k] == s[k];
    }
  }

  /** An element counted more often in `s` than in `s[..n]` occurs at some index from `n` on. */
  lemma InDroppedPart<T>(s: seq<T>, n: int, y: T) returns (m: int)
    requires 0 <= n <= |s| && y in multiset(s) - multiset(s[..n])
    ensures n <= m < |s| && s[m] == y
  {
    assert s == s[..n] + s[n..];
    assert multiset(s) == multiset(s[..n]) + multiset(s[n..]);
    assert y in s[n..];
    var i :| 0 <= i < |s| - n && s[n..][i] == y;
    m := n + i;
  }

  /** The day's best offer is the first accepted offer of least cost. */
  lemma BestIsFirstCheapest(accepted: seq<OfferRow>, storeHits: int)
    requires RankOffers(accepted, storeHits) != []
    ensures exists i :: IsFirstMin(accepted, CostKey, i) && RankOffers(accepted, storeHits)[0] == accepted[i]
  {
    SortByHeadIsFirstMin(accepted, CostKey);
  }

  /** `dropped_by_store_limit` as written: `max(0, accepted - STORE_HITS)`. */
  function StoreLimitDropsAsWritten(acceptedCount: nat, storeHits: int): nat {
    if acceptedCount - storeHits > 0 then acceptedCount - storeHits else 0
  }

  /**
   * The accepted offers the `[:STORE_HITS]` slice discards: the rest of the
   * sorted list after the kept ones. Together with the kept offers they are
   * exactly the accepted ones, and none of them is cheaper than a kept offer.
   */
  function CutOffers(accepted: seq<OfferRow>, storeHits: int): (cut: seq<OfferRow>)
    ensures RankOffers(accepted, storeHits) + cut == SortBy(accepted, CostKey)
    ensures multiset(RankOffers(accepted, storeHits)) + multiset(cut) == multiset(accepted)
    ensures forall k, j :: 0 <= k < |RankOffers(accepted, storeHits)| && 0 <= j < |cut| ==>
              CostKey(RankOffers(accepted, storeHits)[k]) <= CostKey(cut[j])
  {
    var s := SortBy(accepted, CostKey);
    var r := RankOffers(accepted, storeHits);
    assert r == s[..|r|];
    assert s == r + s[|r|..];
    assert multiset(s) == multiset(r) + multiset(s[|r|..]);
    s[|r|..]
  }

  /** For a non-negative `STORE_HITS` the logged count is the number the slice discards. */
  lemma StoreLimitDropsAgree(accepted: seq<OfferRow>, storeHits: int)
    requires storeHits >= 0
    ensures StoreLimitDropsAsWritten(|accepted|, storeHits) == |CutOffers(accepted, storeHits)|
  {
  }

  /**
   * For a negative `STORE_HITS` the logged count always exceeds the number
   * of offers the slice discards: `max(0, n - k)` grows past `n` while
   * `[:k]` drops at most `-k` of them.
   */
  lemma StoreLimitDropsOvershoot(accepted: seq<OfferRow>, storeHits: int)
    requires storeHits < 0
    ensures StoreLimitDropsAsWritten(|accepted|, storeHits) > |CutOffers(accepted, storeHits)|
  {
  }

  /** An instance: five accepted offers and `STORE_HITS` = -2 log 7 drops, where the slice discards 2. */
  lemma StoreLimitDropsNegative()
    ensures var five := seq(5, i => OfferRow("d", "c", "i", "s", 1, 0, 0.0, i as real, "u", "n"));
      && StoreLimitDropsAsWritten(5, -2) == 7
      && |CutOffers(five, -2)| == 2
  {
    var five := seq(5, i => OfferRow("d", "c", "i", "s", 1, 0, 0.0, i as real, "u", "n"));
    assert |RankOffers(five, -2)| == 3;
  }

  // ---------------------------------------------------------------------
  // Change detection
  // ---------------------------------------------------------------------

  /** `changed_shop`: there was a best yesterday, and its shop differs from today's. */
  predicate ChangedShop(best: OfferRow, yBest: Option<MinEntry>) {
    yBest.Some? && best.shopName != yBest.value.shop
  }

  /** `new_alltime_low`: no cost recorded before, or today's is strictly below the recorded minimum. */
  predicate NewAlltimeLow(best: OfferRow, aBest: Option<MinEntry>) {
    aBest.None? || CostLess(Finite(best.proteinCost), aBest.value.cost)
  }

  function Lookup(m: map<string, MinEntry>, cid: string): Option<MinEntry> {
    if cid in m then Some(m[cid]) else None
  }

  /**
   * Against the history of Min_Summary rows, today's best is a new all-time
   * low exactly when it is strictly cheaper than every recorded row of the
   * product.
   */
  lemma {:induction false} NewLowIffBelowEveryRecord(best: OfferRow, records: seq<MinRecord>, cid: string)
    requires cid != ""
    ensures NewAlltimeLow(best, Lookup(AlltimeOf(records), cid)) <==>
            forall j :: 0 <= j < |records| && records[j].canonicalId == cid ==>
              CostLess(Finite(best.proteinCost), records[j].minCost)
  {
    AlltimeOfKeys(records, cid);
    if cid in AlltimeOf(records) {
      AlltimeOfMin(records, cid);
      var j :| IsEarliestMin(records, cid, j) && AlltimeOf(records)[cid] == EntryOf(records[j]);
      forall i | 0 <= i < |records| && records[i].canonicalId == cid && CostLess(Finite(best.proteinCost), records[j].minCost)
        ensures CostLess(Finite(best.proteinCost), records[i].minCost)
      {
        CostLessTrans(records[i].minCost, records[j].minCost, Finite(best.proteinCost));
      }
    }
  }

  /**
   * Against the Min_Summary rows, the shop changed exactly when yesterday
   * has a row of the product and the last such row names another shop.
   */
  lemma ChangedShopIffLastRowDiffers(best: OfferRow, records: seq<MinRecord>, yesterday: string, cid: string)
    requires cid != ""
    ensures ChangedShop(best, Lookup(SummaryOf(records, yesterday), cid)) <==>
            exists j :: && 0 <= j < |records| && OnDate(records[j], yesterday, cid)
                        && (forall k :: j < k < |records| ==> !OnDate(records[k], yesterday, cid))
                        && records[j].minShop != best.shopName
  {
    SummaryOfSpec(records, yesterday, cid);
    if cid in SummaryOf(records, yesterday) {
      var j :| && 0 <= j < |records| && OnDate(records[j], yesterday, cid)
               && SummaryOf(records, yesterday)[cid] == EntryOf(records[j])
               && forall k :: j < k < |records| ==> !OnDate(records[k], yesterday, cid);
      forall j' | && 0 <= j' < |records| && OnDate(records[j'], yesterday, cid)
                  && (forall k :: j' < k < |records| ==> !OnDate(records[k], yesterday, cid))
        ensures j' == j
      {
      }
    }
  }

  /** The headline of a notice: `【過去最安更新】` or `【最安ショップ入れ替わり】`. */
  datatype NoticeKind = AlltimeLow | ShopChanged

  /** The notice for a product: none, or its kind with the (up to) three cheapest offers listed in it. */
  datatype Notice = NoNotice | Notify(kind: NoticeKind, top: seq<OfferRow>)

  /**
   * A notice is sent when the shop changed or the cost is a new all-time
   * low; a new low takes the headline; it lists the first three kept offers.
   */
  function NoticeFor(kept: seq<OfferRow>, yBest: Option<MinEntry>, aBest: Option<MinEntry>): (n: Notice)
    requires kept != []
    ensures n.NoNotice? <==> !ChangedShop(kept[0], yBest) && !NewAlltimeLow(kept[0], aBest)
    ensures n.Notify? ==> (n.kind == AlltimeLow <==> NewAlltimeLow(kept[0], aBest))
    ensures n.Notify? ==> n.top == kept[..if |kept| < 3 then |kept| else 3]
  {
    var best := kept[0];
    if ChangedShop(best, yBest) || NewAlltimeLow(best, aBest) then
      Notify(if NewAlltimeLow(best, aBest) then AlltimeLow else ShopChanged, Prefix(kept, 3))
    else NoNotice
  }

  /** A product never seen in Min_Summary is always announced, as a new low. */
  lemma FirstSightingIsNewLow(kept: seq<OfferRow>, yBest: Option<MinEntry>)
    requires kept != []
    ensures NoticeFor(kept, yBest, None) == Notify(AlltimeLow, Prefix(kept, 3))
  {
  }

  /** The result of the per-product step. */
  datatype EntryResult = EntryResult(kept: seq<OfferRow>, drops: DropCounts, storeLimitDrops: nat, notice: Notice)

  /**
   * One iteration of the product loop in `main`: collect and rank the offers
   * of `items`, upsert the best one into Min_Summary (its cost rendered by
   * `render`, the stand-in for `str(float)`), and choose the notice from
   * yesterday's and the all-time minimum read before the loop.
   */
  method ProcessEntry(cfg: Config, today: string, master: MasterItem, items: seq<RawItem>,
                      yday: map<string, MinEntry>, alltime: map<string, MinEntry>,
                      sheet: MinSheet, render: real -> string, updatedAt: string)
    returns (res: EntryResult)
    modifies sheet
    ensures var st := Collect(cfg, today, master, items);
      && res.kept == RankOffers(st.accepted, cfg.storeHits)
      && res.drops == st.drops
      && res.storeLimitDrops == StoreLimitDropsAsWritten(|st.accepted|, cfg.storeHits)
    ensures res.kept == [] ==> res.notice == NoNotice && sheet.values == old(sheet.values)
    ensures res.kept != [] ==>
      && res.notice == NoticeFor(res.kept, Lookup(yday, master.canonicalId), Lookup(alltime, master.canonicalId))
      && sheet.values == UpsertRows(old(sheet.values), today, master.canonicalId,
                                    [render(res.kept[0].proteinCost), res.kept[0].shopName, res.kept[0].itemUrl, updatedAt])
  {
    var accepted, seen, drops := CollectOffers(cfg, today, master, items);
    var storeDrops := StoreLimitDropsAsWritten(|accepted|, cfg.storeHits);
    var kept := RankOffers(accepted, cfg.storeHits);
    var notice := NoNotice;
    if kept != [] {
      var best := kept[0];
      sheet.UpsertTodayMin(today, master.canonicalId, render(best.proteinCost), best.shopName, best.itemUrl, updatedAt);
      notice := NoticeFor(kept, Lookup(yday, master.canonicalId), Lookup(alltime, master.canonicalId));
    }
    res := EntryResult(kept, drops, storeDrops, notice);
  }
}
