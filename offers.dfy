/**
 * The listing classifier and cost model of the tracker (`main.py`): title
 * normalisation, the exclusion-keyword and capacity filters, the
 * effective-cost computation and the reason-coded classification of one
 * search hit for one master product.
 */
module Offers {
  import opened Wrappers
  import opened PyText

  /** A row of the master list: one tracked product. */
  datatype MasterItem = MasterItem(
    canonicalId: string,
    searchKeyword: string,
    brand: string,
    capacityKg: real,
    proteinRatio: real)

  /**
   * One marketplace search hit with its fields already read: the texts are
   * stripped, `itemPrice` and `postageFlag` are the integers `safe_int`
   * yields (0 when absent) and `pointRate` the percentage `safe_float` yields.
   */
  datatype RawItem = RawItem(
    itemCode: string,
    shopName: string,
    itemUrl: string,
    itemName: string,
    itemPrice: int,
    postageFlag: int,
    pointRate: real)

  /** A priced offer; `proteinCost` is the price per kilogram of protein after shipping and points. */
  datatype OfferRow = OfferRow(
    date: string,
    canonicalId: string,
    itemCode: string,
    shopName: string,
    rawPrice: int,
    shippingCost: int,
    pointRate: real,
    proteinCost: real,
    itemUrl: string,
    itemName: string)

  /** The run-wide settings the module reads from the environment. */
  datatype Config = Config(
    defaultShippingYen: int,      // DEFAULT_SHIPPING_YEN
    extraPointRate: real,         // EXTRA_POINT_RATE
    storeHits: int,               // STORE_HITS
    excludeKeywords: seq<string>) // EXCLUDE_KEYWORDS

  /** The identity of an offer within a run: (date, canonical_id, item_code, shop_name). */
  datatype OfferKey = OfferKey(date: string, canonicalId: string, itemCode: string, shopName: string)

  /** The closed set of reasons a hit is dropped for. */
  datatype DropReason =
    | MissingRequiredOrInvalidPrice
    | ExcludedKeyword
    | CapacityMismatch
    | InvalidOffer
    | Duplicate

  /** The outcome of classifying one hit: an offer, or the reason it was dropped, never both. */
  datatype Classification = Accepted(offer: OfferRow) | Dropped(reason: DropReason)

  function KeyOf(o: OfferRow): OfferKey {
    OfferKey(o.date, o.canonicalId, o.itemCode, o.shopName)
  }

  /** The default EXCLUDE_KEYWORDS list, used when the environment sets none. */
  const DefaultExcludeKeywords: seq<string> := [
    "シェイカー", "シェーカー", "ボトル", "スプーン", "計量スプーン", "ミキサー", "ブレンダー",
    "お試し", "試供品", "サンプル", "トライアル", "小分け", "個包装", "少量", "ミニ",
    "訳あり", "中古", "アウトレット", "福袋", "セット", "詰め合わせ", "バラエティ",
    "プロテインバー", "バー", "クッキー", "チョコ", "シリアル", "グラノーラ",
    "ゲイナー", "増量", "マスゲイナー",
    "BCAA", "EAA", "クレアチン", "アミノ酸",
    "シェイク", "ドリンク", "飲料", "缶", "紙パック"
  ]

  // ---------------------------------------------------------------------
  // Title normalisation
  // ---------------------------------------------------------------------

  predicate IsFullWidthDigit(c: char) { '０' <= c <= '９' }

  predicate IsFullWidthKG(c: char) { c == 'ｋ' || c == 'ｇ' || c == 'Ｋ' || c == 'Ｇ' }

  /** The `str.translate` table mapping ０…９ to 0…9. */
  function HalfWidthDigit(c: char): (d: char)
    ensures !IsFullWidthDigit(d)
    ensures IsFullWidthDigit(c) ==> '0' <= d <= '9'
    ensures !IsFullWidthDigit(c) ==> d == c
  {
    if IsFullWidthDigit(c) then (c as int - '０' as int + '0' as int) as char else c
  }

  /** The four replacements ｋ→k, ｇ→g, Ｋ→k, Ｇ→g. */
  function HalfWidthKG(c: char): (d: char)
    ensures !IsFullWidthKG(d)
    ensures !IsFullWidthKG(c) ==> d == c
  {
    if c == 'ｋ' || c == 'Ｋ' then 'k' else if c == 'ｇ' || c == 'Ｇ' then 'g' else c
  }

  /** What one character of a title becomes before spaces are removed. */
  function NormChar(c: char): (d: char)
    ensures !IsAsciiUpper(d) && !IsFullWidthDigit(d) && !IsFullWidthKG(d)
  {
    HalfWidthKG(HalfWidthDigit(LowerChar(c)))
  }

  /**
   * `_norm_name`: lower-case, full-width digits and ｋ/ｇ/Ｋ/Ｇ made
   * half-width, every space removed.
   */
  function NormName(s: string): (r: string)
    ensures forall c :: c in r ==> !IsSpace(c) && !IsAsciiUpper(c) && !IsFullWidthDigit(c) && !IsFullWidthKG(c)
    ensures s == [] ==> r == []
  {
    RemoveSpaces(seq(|s|, i requires 0 <= i < |s| => NormChar(s[i])))
  }

  /** Normalisation works character by character, so it distributes over concatenation. */
  lemma NormNameAppend(a: string, b: string)
    ensures NormName(a + b) == NormName(a) + NormName(b)
  {
    var f := (s: string) => seq(|s|, i requires 0 <= i < |s| => NormChar(s[i]));
    assert f(a + b) == f(a) + f(b);
    RemoveSpacesAppend(f(a), f(b));
  }

  /** A single character normalises to its mapped form, or to nothing when that is a space. */
  lemma NormNameChar(c: char)
    ensures NormName([c]) == if IsSpace(NormChar(c)) then [] else [NormChar(c)]
  {
    var m := seq(1, i requires 0 <= i < 1 => NormChar([c][i]));
    assert m == [NormChar(c)];
    assert m[1..] == [];
  }

  /** A title already in normal form is left as it is. */
  lemma NormNameFixed(s: string)
    requires forall i :: 0 <= i < |s| ==> !IsSpace(s[i]) && NormChar(s[i]) == s[i]
    ensures NormName(s) == s
  {
    var m := seq(|s|, i requires 0 <= i < |s| => NormChar(s[i]));
    assert m == s;
    RemoveSpacesNoSpace(s);
  }

  // ---------------------------------------------------------------------
  // Exclusion keywords and capacity
  // ---------------------------------------------------------------------

  /** `looks_like_garbage`: some exclusion keyword occurs in the title (case-sensitive). */
  function LooksLikeGarbage(keywords: seq<string>, itemName: string): (r: bool)
    ensures r <==> exists i :: 0 <= i < |keywords| && Contains(itemName, keywords[i])
  {
    AnyOccurs(itemName, keywords)
  }

  /** An empty title is never excluded unless an exclusion keyword is itself empty. */
  lemma EmptyNameNotGarbage(keywords: seq<string>)
    requires forall i :: 0 <= i < |keywords| ==> keywords[i] != ""
    ensures !LooksLikeGarbage(keywords, "")
  {
  }

  /** The default list, like any list parsed from the environment, drops blank entries, so none is empty. */
  lemma DefaultKeywordsNonEmpty()
    ensures forall i :: 0 <= i < |DefaultExcludeKeywords| ==> DefaultExcludeKeywords[i] != ""
  {
  }

  /** Under the default list an empty title is never excluded. */
  lemma DefaultListPassesEmptyName()
    ensures !LooksLikeGarbage(DefaultExcludeKeywords, "")
  {
    DefaultKeywordsNonEmpty();
    EmptyNameNotGarbage(DefaultExcludeKeywords);
  }

  /** Python's `round` on a real: to the nearest integer, ties to the even one. */
  function RoundHalfEven(x: real): (n: int)
    ensures x - 0.5 <= n as real <= x + 0.5
    ensures (n as real == x - 0.5 || n as real == x + 0.5) ==> n % 2 == 0
  {
    var f := x.Floor;
    var d := x - f as real;
    if d < 0.5 then f
    else if d > 0.5 then f + 1
    else if f % 2 == 0 then f
    else f + 1
  }

  /** The capacity text a title must contain: `"<n>kg"` from 1 kg up, `"<grams>g"` below. */
  function CapacityToken(kg: real): (tok: string)
    requires 0.0 < kg
  {
    if kg >= 1.0 then NatToString(RoundHalfEven(kg)) + "kg"
    else NatToString(RoundHalfEven(kg * 1000.0)) + "g"
  }

  /**
   * The regular-expression alternative `($|[×x\(\)0-9]|入り|ﾊﾟｯｸ|袋|個)` at
   * index `j`; the normalised title holds no newline, so `$` is the end.
   */
  predicate BoundaryAt(name: string, j: int)
    requires 0 <= j <= |name|
  {
    || j == |name|
    || name[j] in "×x()0123456789"
    || name[j..] [..if |name| - j < 2 then |name| - j else 2] == "入り"
    || name[j..] [..if |name| - j < 4 then |name| - j else 4] == "ﾊﾟｯｸ"
    || name[j] == '袋' || name[j] == '個'
  }

  /** `re.search(rf"{tok}(…)", name)` succeeds: the token followed by one of the allowed continuations. */
  predicate TokenThenBoundary(name: string, tok: string) {
    exists i :: 0 <= i <= |name| - |tok| && OccursAt(name, tok, i) && BoundaryAt(name, i + |tok|)
  }

  /**
   * `capacity_strict_match` (with the strict flag on, as configured):
   * either regular expression or the bare substring test. The regular
   * expression only ever adds cases the substring test already accepts, so
   * the rule is the substring test.
   */
  function CapacityStrictMatch(master: MasterItem, itemName: string): (r: bool)
    ensures r <==> master.capacityKg <= 0.0 || Contains(NormName(itemName), CapacityToken(master.capacityKg))
  {
    if master.capacityKg <= 0.0 then true
    else
      var name := NormName(itemName);
      var tok := CapacityToken(master.capacityKg);
      TokenThenBoundary(name, tok) || Contains(name, tok)
  }

  // ---------------------------------------------------------------------
  // Cost model
  // ---------------------------------------------------------------------

  /** `max(0.0, min(1.0, x))`. */
  function Clamp01(x: real): (r: real)
    ensures 0.0 <= r <= 1.0
    ensures 0.0 <= x <= 1.0 ==> r == x
    ensures x < 0.0 ==> r == 0.0
    ensures 1.0 < x ==> r == 1.0
  {
    if x < 0.0 then 0.0 else if x > 1.0 then 1.0 else x
  }

  /** Shipping added to the price: `postageFlag == 1` means shipping is not included. */
  function ShippingCost(cfg: Config, postageFlag: int): int {
    if postageFlag == 1 then cfg.defaultShippingYen else 0
  }

  /** The point rate as a fraction: the listed percentage, clamped, plus the extra boost, clamped again. */
  function PointRate(cfg: Config, pointRatePercent: real): real {
    Clamp01(Clamp01(pointRatePercent / 100.0) + cfg.extraPointRate)
  }

  /** `((raw_price + shipping) * (1.0 - point_rate)) / denom`. */
  function EffectiveCost(rawPrice: int, shipping: int, pointRate: real, denom: real): real
    requires denom > 0.0
  {
    ((rawPrice + shipping) as real * (1.0 - pointRate)) / denom
  }

  /** A non-negative amount after points, over a positive denominator, is non-negative; positive unless the points cover it all. */
  lemma EffectiveCostSign(rawPrice: int, shipping: int, pointRate: real, denom: real)
    requires denom > 0.0 && rawPrice + shipping > 0 && 0.0 <= pointRate <= 1.0
    ensures EffectiveCost(rawPrice, shipping, pointRate, denom) >= 0.0
    ensures pointRate < 1.0 ==> EffectiveCost(rawPrice, shipping, pointRate, denom) > 0.0
  {
    var total := (rawPrice + shipping) as real;
    NonNegProduct(total, 1.0 - pointRate);
    QuotientSign(total * (1.0 - pointRate), denom, EffectiveCost(rawPrice, shipping, pointRate, denom));
  }

  predicate MissingRequired(item: RawItem) {
    item.itemCode == "" || item.shopName == "" || item.itemPrice <= 0
  }

  /**
   * `compute_offer`: no offer when a required field is missing or the price
   * is not positive, the title is excluded, the capacity does not match, or
   * the denominator capacity × ratio is not positive; otherwise the priced
   * offer.
   */
  function ComputeOffer(cfg: Config, today: string, master: MasterItem, item: RawItem): (r: Option<OfferRow>)
    ensures r.None? <==>
      || MissingRequired(item)
      || LooksLikeGarbage(cfg.excludeKeywords, item.itemName)
      || !CapacityStrictMatch(master, item.itemName)
      || master.capacityKg * master.proteinRatio <= 0.0
    ensures r.Some? ==>
      && r.value.date == today
      && r.value.canonicalId == master.canonicalId
      && r.value.itemCode == item.itemCode && r.value.itemCode != ""
      && r.value.shopName == item.shopName && r.value.shopName != ""
      && r.value.itemUrl == item.itemUrl
      && r.value.itemName == item.itemName
      && r.value.rawPrice == item.itemPrice > 0
      && r.value.shippingCost == (if item.postageFlag == 1 then cfg.defaultShippingYen else 0)
      && 0.0 <= r.value.pointRate <= 1.0
      && r.value.pointRate == PointRate(cfg, item.pointRate)
      && master.capacityKg * master.proteinRatio > 0.0
      && r.value.proteinCost == EffectiveCost(item.itemPrice, r.value.shippingCost, r.value.pointRate,
                                              master.capacityKg * master.proteinRatio)
  {
    if MissingRequired(item) then None
    else if LooksLikeGarbage(cfg.excludeKeywords, item.itemName) then None
    else if !CapacityStrictMatch(master, item.itemName) then None
    else
      var shipping := ShippingCost(cfg, item.postageFlag);
      var pointRate := PointRate(cfg, item.pointRate);
      var denom := master.capacityKg * master.proteinRatio;
      if denom <= 0.0 then None
      else
        Some(OfferRow(today, master.canonicalId, item.itemCode, item.shopName, item.itemPrice,
                      shipping, pointRate, EffectiveCost(item.itemPrice, shipping, pointRate, denom),
                      item.itemUrl, item.itemName))
  }

  /**
   * The effective cost is never negative when the default shipping is not,
   * and is positive unless the points cover the whole price.
   */
  lemma OfferCostSign(cfg: Config, today: string, master: MasterItem, item: RawItem, o: OfferRow)
    requires cfg.defaultShippingYen >= 0
    requires ComputeOffer(cfg, today, master, item) == Some(o)
    ensures o.proteinCost >= 0.0
    ensures o.pointRate < 1.0 ==> o.proteinCost > 0.0
  {
    EffectiveCostSign(item.itemPrice, o.shippingCost, o.pointRate, master.capacityKg * master.proteinRatio);
  }

  lemma NonNegProduct(a: real, b: real)
    requires a > 0.0 && b >= 0.0
    ensures a * b >= 0.0 && (b > 0.0 ==> a * b > 0.0)
  {
  }

  lemma QuotientSign(num: real, denom: real, q: real)
    requires denom > 0.0 && num >= 0.0 && q == num / denom
    ensures q >= 0.0 && (num > 0.0 ==> q > 0.0)
  {
  }

  // ---------------------------------------------------------------------
  // Classification
  // ---------------------------------------------------------------------

  /**
   * `classify_item_filter`: the checks in their fixed order, the first
   * failing one giving the reason; `seen` is only read.
   */
  function ClassifyItemFilter(cfg: Config, today: string, master: MasterItem, item: RawItem, seen: set<OfferKey>)
    : (r: Classification)
    ensures r == Dropped(MissingRequiredOrInvalidPrice) <==> MissingRequired(item)
    ensures r == Dropped(ExcludedKeyword) <==>
      !MissingRequired(item) && LooksLikeGarbage(cfg.excludeKeywords, item.itemName)
    ensures r == Dropped(CapacityMismatch) <==>
      && !MissingRequired(item) && !LooksLikeGarbage(cfg.excludeKeywords, item.itemName)
      && !CapacityStrictMatch(master, item.itemName)
    ensures r == Dropped(InvalidOffer) <==>
      && !MissingRequired(item) && !LooksLikeGarbage(cfg.excludeKeywords, item.itemName)
      && CapacityStrictMatch(master, item.itemName)
      && master.capacityKg * master.proteinRatio <= 0.0
    ensures r == Dropped(Duplicate) <==>
      ComputeOffer(cfg, today, master, item).Some? && KeyOf(ComputeOffer(cfg, today, master, item).value) in seen
    ensures r.Accepted? <==>
      ComputeOffer(cfg, today, master, item).Some? && KeyOf(ComputeOffer(cfg, today, master, item).value) !in seen
    ensures r.Accepted? ==> Some(r.offer) == ComputeOffer(cfg, today, master, item)
  {
    if MissingRequired(item) then Dropped(MissingRequiredOrInvalidPrice)
    else if LooksLikeGarbage(cfg.excludeKeywords, item.itemName) then Dropped(ExcludedKeyword)
    else if !CapacityStrictMatch(master, item.itemName) then Dropped(CapacityMismatch)
    else
      var o := ComputeOffer(cfg, today, master, item);
      if o.None? then Dropped(InvalidOffer)
      else if KeyOf(o.value) in seen then Dropped(Duplicate)
      else Accepted(o.value)
  }
}

module OffersExamples {
  import opened Wrappers
  import opened PyText
  import opened Offers

  function Tub(kg: real): MasterItem {
    MasterItem("whey-3kg", "whey", "brand", kg, 0.75)
  }

  lemma ThreeKgToken()
    ensures CapacityToken(3.0) == "3kg"
  {
    assert RoundHalfEven(3.0) == 3;
    assert NatToString(3) == "3";
  }

  lemma NormNameThreeKg()
    ensures NormName("3kg") == "3kg"
  {
    assert "3kg" == "3" + "kg" && "kg" == "k" + "g";
    NormNameAppend("3", "kg");
    NormNameAppend("k", "g");
    NormNameChar('3');
    NormNameChar('k');
    NormNameChar('g');
  }

  /** A title reading "3kg" matches a 3 kg product. */
  lemma ThreeKgMatches()
    ensures CapacityStrictMatch(Tub(3.0), "3kg")
  {
    ThreeKgToken();
    NormNameThreeKg();
    assert OccursAt("3kg", "3kg", 0);
  }

  lemma NormNameThreeHundredGrams()
    ensures NormName("300g") == "300g"
  {
    assert "300g" == "3" + "00g" && "00g" == "0" + "0g" && "0g" == "0" + "g";
    NormNameAppend("3", "00g");
    NormNameAppend("0", "0g");
    NormNameAppend("0", "g");
    NormNameChar('3');
    NormNameChar('0');
    NormNameChar('g');
  }

  lemma NoThreeKgInThreeHundredGrams()
    ensures !Contains("300g", "3kg")
  {
    assert "300g"[..3][1] != "3kg"[1];
    assert "300g"[1..] == "00g" && "00g"[..3][0] != "3kg"[0];
    assert "00g"[1..] == "0g";
  }

  /** A title reading "300g" does not match a 3 kg product. */
  lemma ThreeHundredGramsMismatch()
    ensures !CapacityStrictMatch(Tub(3.0), "300g")
  {
    ThreeKgToken();
    NormNameThreeHundredGrams();
    NoThreeKgInThreeHundredGrams();
  }

  lemma TwoKgToken()
    ensures CapacityToken(2.0) == "2kg"
  {
    assert RoundHalfEven(2.0) == 2;
    assert NatToString(2) == "2";
  }

  lemma NormNameFullWidthTwoKg()
    ensures NormName("２ｋｇ") == "2kg"
  {
    assert "２ｋｇ" == "２" + "ｋｇ" && "ｋｇ" == "ｋ" + "ｇ";
    NormNameAppend("２", "ｋｇ");
    NormNameAppend("ｋ", "ｇ");
    NormNameChar('２');
    NormNameChar('ｋ');
    NormNameChar('ｇ');
  }

  /** The full-width title "２ｋｇ" matches a 2 kg product once normalised. */
  lemma FullWidthTwoKgMatches()
    ensures CapacityStrictMatch(Tub(2.0), "２ｋｇ")
  {
    TwoKgToken();
    NormNameFullWidthTwoKg();
    assert OccursAt("2kg", "2kg", 0);
  }

  lemma NormNameProtein()
    ensures NormName("プロテイン") == "プロテイン"
  {
    NormNameFixed("プロテイン");
  }

  lemma NormNameProteinSpace()
    ensures NormName("プロテイン ") == "プロテイン"
  {
    assert "プロテイン " == "プロテイン" + " ";
    NormNameAppend("プロテイン", " ");
    NormNameProtein();
    NormNameChar(' ');
  }

  lemma NormNameWorkedExample()
    ensures NormName("プロテイン 3kg") == "プロテイン3kg"
  {
    assert "プロテイン 3kg" == "プロテイン " + "3kg";
    NormNameAppend("プロテイン ", "3kg");
    NormNameProteinSpace();
    NormNameThreeKg();
  }

  /** "プロテイン 3kg" matches a 3 kg product. */
  lemma WorkedExampleCapacity()
    ensures CapacityStrictMatch(Tub(3.0), "プロテイン 3kg")
  {
    ThreeKgToken();
    NormNameWorkedExample();
    assert "プロテイン3kg"[5..][..3] == "3kg";
    assert OccursAt("プロテイン3kg", "3kg", 5);
  }

  /**
   * The worked example: a 3 kg tub at 75 % protein, listed at 9000 yen
   * without shipping and with 2 % points, costs (9000 + 800) × 0.98 / 2.25
   * yen per kilogram of protein with 800 yen default shipping and no extra
   * points, under any exclusion list that lets its title through.
   */
  lemma WorkedExample(keywords: seq<string>)
    requires !LooksLikeGarbage(keywords, "プロテイン 3kg")
    ensures ComputeOffer(Config(800, 0.0, 20, keywords), "2025-01-01", Tub(3.0),
                         RawItem("shop:1", "shop", "https://example.com/1", "プロテイン 3kg", 9000, 1, 2.0))
         == Some(OfferRow("2025-01-01", "whey-3kg", "shop:1", "shop", 9000, 800, 0.02,
                          9800.0 * 0.98 / 2.25, "https://example.com/1", "プロテイン 3kg"))
  {
    var cfg := Config(800, 0.0, 20, keywords);
    WorkedExampleCapacity();
    assert PointRate(cfg, 2.0) == 0.02;
    assert EffectiveCost(9000, 800, 0.02, 3.0 * 0.75) == 9800.0 * 0.98 / 2.25;
  }
}
