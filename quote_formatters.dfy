/** Display helpers for quotes: Japanese names for the spec codes and the
    discount shown beside a discounted price. */
module QuoteFormatters {
  import opened Types

  /** `table[key] || key`: the display name, or the code itself when the table
      has no (non-empty) entry for it. */
  function NameOr(table: map<string, string>, key: string): (r: string)
    ensures key in table && table[key] != "" ==> r == table[key]
    ensures !(key in table && table[key] != "") ==> r == key
  {
    if key in table && table[key] != "" then table[key] else key
  }

  const ProductTypeNames: map<string, string> := map[
    "business-card" := "名刺",
    "flyer" := "チラシ",
    "brochure" := "パンフレット",
    "poster" := "ポスター",
    "booklet" := "冊子",
    "postcard" := "ポストカード",
    "stationery" := "文房具",
    "other" := "その他"]

  const SizeNames: map<string, string> := map[
    "a3" := "A3",
    "a4" := "A4",
    "a5" := "A5",
    "b4" := "B4",
    "b5" := "B5",
    "postcard" := "ハガキ",
    "business-card" := "名刺サイズ",
    "custom" := "カスタム"]

  const PaperTypeNames: map<string, string> := map[
    "standard" := "普通紙",
    "premium" := "上質紙",
    "recycled" := "再生紙",
    "glossy" := "光沢紙",
    "matte" := "マット紙",
    "textured" := "エンボス紙"]

  const PrintColorNames: map<string, string> := map[
    "black-and-white" := "モノクロ",
    "full-color-one-side" := "フルカラー（片面）",
    "full-color-both-sides" := "フルカラー（両面）",
    "spot-color" := "特色"]

  const FinishingNames: map<string, string> := map[
    "none" := "なし",
    "folding" := "折り",
    "binding" := "製本",
    "lamination" := "ラミネート",
    "die-cutting" := "型抜き",
    "embossing" := "エンボス",
    "foil-stamping" := "箔押し",
    "uv-coating" := "UVコート"]

  function GetProductTypeName(productType: string): (r: string)
    ensures productType in ProductTypeNames ==> r == ProductTypeNames[productType]
    ensures productType !in ProductTypeNames ==> r == productType
  {
    NameOr(ProductTypeNames, productType)
  }

  function GetSizeName(size: string): (r: string)
    ensures size in SizeNames ==> r == SizeNames[size]
    ensures size !in SizeNames ==> r == size
  {
    NameOr(SizeNames, size)
  }

  function GetPaperTypeName(paperType: string): (r: string)
    ensures paperType in PaperTypeNames ==> r == PaperTypeNames[paperType]
    ensures paperType !in PaperTypeNames ==> r == paperType
  {
    NameOr(PaperTypeNames, paperType)
  }

  function GetPrintColorName(printColors: string): (r: string)
    ensures printColors in PrintColorNames ==> r == PrintColorNames[printColors]
    ensures printColors !in PrintColorNames ==> r == printColors
  {
    NameOr(PrintColorNames, printColors)
  }

  function GetFinishingName(finishing: string): (r: string)
    ensures finishing in FinishingNames ==> r == FinishingNames[finishing]
    ensures finishing !in FinishingNames ==> r == finishing
  {
    NameOr(FinishingNames, finishing)
  }

  /** No two product codes share a display name, so a known name identifies its code. */
  lemma ProductTypeNamesDistinct(a: string, b: string)
    requires a in ProductTypeNames && b in ProductTypeNames
    requires GetProductTypeName(a) == GetProductTypeName(b)
    ensures a == b
  {
  }

  /** Size names are not distinct once unknown codes pass through: the code
      `'a4'` and the free text `'A4'` both display as `A4`. */
  lemma SizeNameCollision()
    ensures GetSizeName("a4") == GetSizeName("A4") == "A4"
  {
    assert "A4" !in SizeNames;
  }

  /** A product type given in Japanese (as the chat assistant's sample quote
      does) is shown as written. */
  lemma JapaneseProductTypeShownAsIs()
    ensures GetProductTypeName("チラシ") == "チラシ"
  {
    assert "チラシ" !in ProductTypeNames;
  }

  /** `Math.round`: the nearest integer, halves rounded up. */
  function Round(x: real): (r: int)
    ensures x - 0.5 < r as real <= x + 0.5
  {
    (x + 0.5).Floor
  }

  /** The discount shown for a quote: the rate as a percentage and the amount
      saved. `amount` is `None` where the original price is not a finite
      number (a rate of 1 divides by zero). */
  datatype DiscountInfo = DiscountInfo(percentage: real, amount: Option<int>)

  /** `getDiscountAmount`: no discount for a missing or zero rate; otherwise
      the original price is recovered as `round(price / (1 - rate))`. */
  function GetDiscountAmount(price: int, discountApplied: Option<real>): (r: Option<DiscountInfo>)
    ensures r.None? <==> discountApplied.None? || discountApplied.value == 0.0
    ensures r.Some? ==> r.value.percentage == discountApplied.value * 100.0
    ensures r.Some? ==> (r.value.amount.None? <==> discountApplied.value == 1.0)
    ensures r.Some? && r.value.amount.Some? ==>
              var original := price as real / (1.0 - discountApplied.value);
              original - 0.5 < (r.value.amount.value + price) as real <= original + 0.5
  {
    match discountApplied
    case None => None
    case Some(rate) =>
      if rate == 0.0 then None
      else if rate == 1.0 then Some(DiscountInfo(rate * 100.0, None))
      else
        var originalPrice := Round(price as real / (1.0 - rate));
        Some(DiscountInfo(rate * 100.0, Some(originalPrice - price)))
  }

  /** For a price and a rate the calculator can produce, the amount saved is never negative. */
  lemma DiscountAmountNonNegative(price: nat, rate: real)
    requires 0.0 < rate < 1.0
    ensures GetDiscountAmount(price, Some(rate)).Some?
    ensures GetDiscountAmount(price, Some(rate)).value.amount.Some?
    ensures GetDiscountAmount(price, Some(rate)).value.amount.value >= 0
  {
    var k := 1.0 - rate;
    var original := price as real / k;
    assert original * k == price as real;
    assert original >= 0.0;
    assert original - price as real == original * rate;
    assert original * rate >= 0.0;
  }

  /** When the price is exactly the discounted form of a whole original
      price, the original is recovered and the amount is the difference. */
  lemma {:induction false} DiscountAmountRecoversOriginal(original: int, rate: real, price: int)
    requires 0.0 < rate < 1.0
    requires price as real == original as real * (1.0 - rate)
    ensures GetDiscountAmount(price, Some(rate)) == Some(DiscountInfo(rate * 100.0, Some(original - price)))
  {
    var k := 1.0 - rate;
    assert (original as real * k) / k == original as real;
    assert price as real / k == original as real;
    assert Round(original as real) == original;
  }
}
