/** The quote pricing engine: fixed price tables, the stepped quantity
    discount, the turnaround rules and the quote assembly. Every service goes
    through the same printing formula; nothing dispatches on `serviceType`. */
module PrintCalculator {
  import opened Types

  const BaseProductPrices: map<string, real> := map[
    "business-card" := 2000.0,
    "flyer" := 5000.0,
    "brochure" := 10000.0,
    "poster" := 8000.0,
    "booklet" := 15000.0,
    "postcard" := 3000.0,
    "stationery" := 4000.0,
    "other" := 10000.0]

  const PaperMultipliers: map<string, real> := map[
    "standard" := 1.0,
    "premium" := 1.5,
    "recycled" := 1.2,
    "glossy" := 1.3,
    "matte" := 1.2,
    "textured" := 1.6]

  const ColorPriceModifiers: map<string, real> := map[
    "black-and-white" := 0.0,
    "full-color-one-side" := 3000.0,
    "full-color-both-sides" := 5000.0,
    "spot-color" := 2000.0]

  const FinishingPrices: map<string, real> := map[
    "none" := 0.0,
    "folding" := 1000.0,
    "binding" := 3000.0,
    "lamination" := 2000.0,
    "die-cutting" := 5000.0,
    "embossing" := 4000.0,
    "foil-stamping" := 3500.0,
    "uv-coating" := 2500.0]

  /** Quantity thresholds and their discount rates, in increasing order. */
  const QuantityDiscounts: seq<(int, real)> := [
    (100, 0.0), (250, 0.05), (500, 0.1), (1000, 0.15), (2500, 0.2), (5000, 0.25)]

  /** JavaScript's `table[key] || fallback` on a numeric table: a missing key
      and a stored 0 both give the fallback. */
  function LookupOr(table: map<string, real>, key: string, fallback: real): (r: real)
    ensures key in table && table[key] != 0.0 ==> r == table[key]
    ensures key !in table ==> r == fallback
    ensures key in table && table[key] == 0.0 ==> r == fallback
  {
    if key in table && table[key] != 0.0 then table[key] else fallback
  }

  /** Base price of the product, falling back to the `'other'` price. */
  function BasePrice(productType: string): (r: real)
    ensures productType in BaseProductPrices ==> r == BaseProductPrices[productType]
    ensures productType !in BaseProductPrices ==> r == BaseProductPrices["other"]
    ensures 2000.0 <= r <= 15000.0
  {
    LookupOr(BaseProductPrices, productType, BaseProductPrices["other"])
  }

  /** Paper multiplier, falling back to the `'standard'` multiplier. */
  function PaperMultiplier(paperType: string): (r: real)
    ensures paperType in PaperMultipliers ==> r == PaperMultipliers[paperType]
    ensures paperType !in PaperMultipliers ==> r == PaperMultipliers["standard"]
    ensures 1.0 <= r <= 1.6
  {
    LookupOr(PaperMultipliers, paperType, PaperMultipliers["standard"])
  }

  /** Colour surcharge, 0 for an unknown colour code. */
  function ColorModifier(printColors: string): (r: real)
    ensures printColors in ColorPriceModifiers ==> r == ColorPriceModifiers[printColors]
    ensures printColors !in ColorPriceModifiers ==> r == 0.0
    ensures 0.0 <= r <= 5000.0
  {
    LookupOr(ColorPriceModifiers, printColors, 0.0)
  }

  /** Surcharge of one finish, 0 for an unknown finish code. */
  function FinishingPrice(finish: string): (r: real)
    ensures finish in FinishingPrices ==> r == FinishingPrices[finish]
    ensures finish !in FinishingPrices ==> r == 0.0
    ensures 0.0 <= r <= 5000.0
  {
    LookupOr(FinishingPrices, finish, 0.0)
  }

  /** Sum of the surcharges of the selected finishes, each occurrence counted. */
  function FinishingCost(finishing: seq<string>): (r: real)
    ensures finishing == [] ==> r == 0.0
    ensures 0.0 <= r
    ensures forall i :: 0 <= i < |finishing| ==> FinishingPrice(finishing[i]) <= r
  {
    if finishing == [] then 0.0
    else FinishingCost(finishing[..|finishing| - 1]) + FinishingPrice(finishing[|finishing| - 1])
  }

  lemma {:induction false} FinishingCostBounds(finishing: seq<string>)
    ensures 0.0 <= FinishingCost(finishing) <= 5000.0 * |finishing| as real
  {
    if finishing != [] {
      FinishingCostBounds(finishing[..|finishing| - 1]);
    }
  }

  /** The cost of a list of finishes is the sum over its parts, so a finish
      that is listed twice is charged twice. */
  lemma {:induction false} FinishingCostConcat(a: seq<string>, b: seq<string>)
    ensures FinishingCost(a + b) == FinishingCost(a) + FinishingCost(b)
  {
    if b == [] {
      assert a + b == a;
    } else {
      assert (a + b)[..|a + b| - 1] == a + b[..|b| - 1];
      FinishingCostConcat(a, b[..|b| - 1]);
    }
  }

  lemma FinishingCostDuplicate(a: seq<string>, f: string)
    ensures FinishingCost(a + [f, f]) == FinishingCost(a) + 2.0 * FinishingPrice(f)
  {
    FinishingCostConcat(a, [f, f]);
    assert [f, f][..1] == [f];
    assert [f][..0] == [];
    assert FinishingCost([f]) == FinishingPrice(f);
    assert FinishingCost([f, f]) == FinishingCost([f]) + FinishingPrice(f);
  }

  /** The quantity discount: the rate of the largest threshold not above the
      quantity, 0 below the first threshold. */
  function DiscountRate(quantity: int): (r: real)
    ensures 0.0 <= r <= 0.25
    ensures r == 0.0 <==> quantity < 250
  {
    if quantity >= 5000 then 0.25
    else if quantity >= 2500 then 0.2
    else if quantity >= 1000 then 0.15
    else if quantity >= 500 then 0.1
    else if quantity >= 250 then 0.05
    else 0.0
  }

  /** `r` is the rate paired with the largest threshold of `tiers` that is at
      most `quantity`, or 0 when every threshold is above it. */
  ghost predicate IsLargestTierRate(tiers: seq<(int, real)>, quantity: int, r: real) {
    || ((forall j | 0 <= j < |tiers| :: quantity < tiers[j].0) && r == 0.0)
    || (exists k | 0 <= k < |tiers| ::
          tiers[k].0 <= quantity && r == tiers[k].1 &&
          forall j | k < j < |tiers| :: quantity < tiers[j].0)
  }

  /** `getQuantityDiscount`: walk the thresholds in order, keep the rate of
      each threshold reached and stop at the first one above the quantity. */
  method GetQuantityDiscount(quantity: int) returns (discountRate: real)
    ensures discountRate == DiscountRate(quantity)
    ensures IsLargestTierRate(QuantityDiscounts, quantity, discountRate)
  {
    discountRate := 0.0;
    var i := 0;
    while i < |QuantityDiscounts|
      invariant 0 <= i <= |QuantityDiscounts|
      invariant forall j | 0 <= j < i :: QuantityDiscounts[j].0 <= quantity
      invariant discountRate == if i == 0 then 0.0 else QuantityDiscounts[i - 1].1
    {
      var (threshold, rate) := QuantityDiscounts[i];
      if quantity >= threshold {
        discountRate := rate;
      } else {
        break;
      }
      i := i + 1;
    }
    assert forall j | i <= j < |QuantityDiscounts| :: quantity < QuantityDiscounts[j].0;
    if i > 0 {
      assert QuantityDiscounts[i - 1].0 <= quantity;
    }
  }

  /** The listed rates are exactly those of the schedule. */
  lemma DiscountRateTiers(quantity: int)
    ensures quantity < 250 ==> DiscountRate(quantity) == 0.0
    ensures 250 <= quantity < 500 ==> DiscountRate(quantity) == 0.05
    ensures 500 <= quantity < 1000 ==> DiscountRate(quantity) == 0.1
    ensures 1000 <= quantity < 2500 ==> DiscountRate(quantity) == 0.15
    ensures 2500 <= quantity < 5000 ==> DiscountRate(quantity) == 0.2
    ensures 5000 <= quantity ==> DiscountRate(quantity) == 0.25
  {
  }

  /** The rate lies in [0, 0.25] and never falls as the quantity grows. */
  lemma DiscountRateMonotone(q1: int, q2: int)
    requires q1 <= q2
    ensures 0.0 <= DiscountRate(q1) <= DiscountRate(q2) <= 0.25
  {
  }

  /** Base days of a product: 3 for business cards, 10 for booklets, else 5. */
  function BaseDays(productType: string): (r: int)
    ensures r == 3 <==> productType == "business-card"
    ensures r == 10 <==> productType == "booklet"
    ensures r == 5 <==> productType != "business-card" && productType != "booklet"
  {
    match productType
    case "business-card" => 3
    case "booklet" => 10
    case _ => 5
  }

  /** Extra days for finishing: 3 for die-cutting or embossing, otherwise 1 for
      any finish list that is non-empty and holds no `'none'`. */
  function FinishingDays(finishing: seq<string>): (r: int)
    ensures r == 3 <==> "die-cutting" in finishing || "embossing" in finishing
    ensures r == 1 <==> "die-cutting" !in finishing && "embossing" !in finishing && |finishing| > 0
                        && "none" !in finishing
    ensures r == 0 || r == 1 || r == 3
  {
    if "die-cutting" in finishing || "embossing" in finishing then 3
    else if |finishing| > 0 && "none" !in finishing then 1
    else 0
  }

  /** Two extra days above 1000 copies. */
  function QuantityDays(quantity: int): (r: int)
    ensures r == 2 <==> quantity > 1000
    ensures r == 0 <==> quantity <= 1000
  {
    if quantity > 1000 then 2 else 0
  }

  /** The turnaround estimate in days. */
  function TurnaroundDays(specs: Specs): (r: int)
    ensures 3 <= r <= 15
    ensures specs.quantity > 1000 ==> r >= 5
  {
    BaseDays(specs.productType) + FinishingDays(specs.finishing) + QuantityDays(specs.quantity)
  }

  /** `calculateTurnaround`: start from 5 days and adjust step by step. */
  method CalculateTurnaround(specs: Specs) returns (baseDays: int)
    ensures baseDays == TurnaroundDays(specs)
    ensures 3 <= baseDays <= 15
  {
    baseDays := 5;
    match specs.productType {
      case "business-card" => baseDays := 3;
      case "booklet" => baseDays := 10;
      case _ =>
    }
    if "die-cutting" in specs.finishing || "embossing" in specs.finishing {
      baseDays := baseDays + 3;
    } else if |specs.finishing| > 0 && "none" !in specs.finishing {
      baseDays := baseDays + 1;
    }
    if specs.quantity > 1000 {
      baseDays := baseDays + 2;
    }
  }

  /** Each turnaround rule, stated on its own. */
  lemma TurnaroundRules(specs: Specs)
    ensures specs.productType == "business-card" ==> BaseDays(specs.productType) == 3
    ensures specs.productType == "booklet" ==> BaseDays(specs.productType) == 10
    ensures specs.productType != "business-card" && specs.productType != "booklet" ==> BaseDays(specs.productType) == 5
    ensures ("die-cutting" in specs.finishing || "embossing" in specs.finishing) ==> FinishingDays(specs.finishing) == 3
    ensures "none" in specs.finishing && "die-cutting" !in specs.finishing && "embossing" !in specs.finishing
            ==> FinishingDays(specs.finishing) == 0
    ensures "die-cutting" !in specs.finishing && "embossing" !in specs.finishing && |specs.finishing| > 0
            && "none" !in specs.finishing
            ==> FinishingDays(specs.finishing) == 1
    ensures specs.finishing == [] ==> FinishingDays(specs.finishing) == 0
    ensures specs.quantity <= 1000 ==> QuantityDays(specs.quantity) == 0
    ensures specs.quantity > 1000 ==> QuantityDays(specs.quantity) == 2
    ensures 3 <= TurnaroundDays(specs) <= 15
  {
  }

  function Max(a: int, b: int): (r: int) {
    if a >= b then a else b
  }

  /** `Math.ceil`. */
  function Ceil(x: real): (r: int)
    ensures r as real - 1.0 < x <= r as real
  {
    -((-x).Floor)
  }

  /** The price per 100 units from the four looked-up amounts. */
  function UnitPriceOf(basePrice: real, paperMultiplier: real, colorModifier: real, finishingCost: real): (r: real) {
    basePrice * paperMultiplier + colorModifier + finishingCost
  }

  /** Linear quantity scaling against a baseline of 100 units; orders under 50
      are billed as 50. */
  function Scale(quantity: int): (r: real) {
    Max(50, quantity) as real / 100.0
  }

  function Scaled(price: real, quantity: int): (r: real) {
    price * Scale(quantity)
  }

  /** `price - price * rate`. */
  function Discounted(price: real, rate: real): (r: real) {
    price - price * rate
  }

  /** `Math.ceil(price / 100) * 100`. */
  function RoundUp100(price: real): (r: int)
    ensures r % 100 == 0
    ensures price <= r as real < price + 100.0
  {
    var c := Ceil(price / 100.0);
    assert c as real * 100.0 >= price;
    assert (c as real - 1.0) * 100.0 < price;
    c * 100
  }

  /** The price per 100 units of a spec. */
  function UnitPrice(specs: Specs): (r: real)
    ensures r >= BasePrice(specs.productType) + ColorModifier(specs.printColors) + FinishingCost(specs.finishing)
  {
    assert BasePrice(specs.productType) * PaperMultiplier(specs.paperType) >= BasePrice(specs.productType) * 1.0;
    UnitPriceOf(BasePrice(specs.productType), PaperMultiplier(specs.paperType),
                ColorModifier(specs.printColors), FinishingCost(specs.finishing))
  }

  /** The price before the discount. */
  function RawPrice(specs: Specs): (r: real)
    ensures r >= 1000.0
  {
    FinishingCostBounds(specs.finishing);
    PriceArithmeticBounds(BasePrice(specs.productType), PaperMultiplier(specs.paperType),
                          ColorModifier(specs.printColors), FinishingCost(specs.finishing),
                          specs.quantity, DiscountRate(specs.quantity));
    Scaled(UnitPrice(specs), specs.quantity)
  }

  /** The discounted price; the rate comes from the quantity as entered, not
      from the effective quantity used for scaling. */
  function DiscountedPrice(specs: Specs): (r: real)
    ensures 0.75 * RawPrice(specs) <= r <= RawPrice(specs)
    ensures specs.quantity < 250 ==> r == RawPrice(specs)
  {
    DiscountBounds(RawPrice(specs), DiscountRate(specs.quantity));
    Discounted(RawPrice(specs), DiscountRate(specs.quantity))
  }

  /** The final price: the discounted price rounded up to a multiple of 100. */
  function QuotePrice(specs: Specs): (r: int)
    ensures r >= 100 && r % 100 == 0
    ensures DiscountedPrice(specs) <= r as real < DiscountedPrice(specs) + 100.0
  {
    RoundUp100(DiscountedPrice(specs))
  }

  /** The `discountApplied` field: the rate when it is positive, absent otherwise. */
  function DiscountField(quantity: int): (r: Option<real>)
    ensures r.None? <==> quantity < 250
    ensures r.Some? ==> r.value == DiscountRate(quantity) && 0.05 <= r.value <= 0.25
  {
    if DiscountRate(quantity) > 0.0 then Some(DiscountRate(quantity)) else None
  }

  /** The `forEach` that accumulates the surcharge of every selected finish. */
  method SumFinishing(finishing: seq<string>) returns (finishingCost: real)
    ensures finishingCost == FinishingCost(finishing)
  {
    finishingCost := 0.0;
    for i := 0 to |finishing|
      invariant finishingCost == FinishingCost(finishing[..i])
    {
      assert finishing[..i + 1][..i] == finishing[..i];
      finishingCost := finishingCost + FinishingPrice(finishing[i]);
    }
    assert finishing[..|finishing|] == finishing;
  }

  /** The arithmetic of `calculateQuote` once the amounts are looked up:
      combine, scale by the effective quantity, discount, round up to 100. */
  method PriceSteps(basePrice: real, paperMultiplier: real, colorModifier: real,
                    finishingCost: real, quantity: int, discountRate: real) returns (rounded: int)
    ensures rounded == RoundUp100(Discounted(Scaled(UnitPriceOf(basePrice, paperMultiplier, colorModifier, finishingCost), quantity), discountRate))
  {
    var price := basePrice * paperMultiplier;
    price := price + colorModifier;
    price := price + finishingCost;
    assert price == UnitPriceOf(basePrice, paperMultiplier, colorModifier, finishingCost);
    var effectiveQuantity := Max(50, quantity);
    price := price * (effectiveQuantity as real / 100.0);
    assert price == Scaled(UnitPriceOf(basePrice, paperMultiplier, colorModifier, finishingCost), quantity);
    var discountAmount := price * discountRate;
    price := price - discountAmount;
    assert price == Discounted(Scaled(UnitPriceOf(basePrice, paperMultiplier, colorModifier, finishingCost), quantity), discountRate);
    rounded := Ceil(price / 100.0) * 100;
  }

  /** `calculateQuote`. The id the source derives from the clock is a parameter. */
  method CalculateQuote(specs: Specs, id: string) returns (quote: Quote)
    ensures quote.id == id && quote.specs == specs && quote.createdAt == None
    ensures quote.price == QuotePrice(specs)
    ensures quote.price % 100 == 0
    ensures DiscountedPrice(specs) <= quote.price as real < DiscountedPrice(specs) + 100.0
    ensures quote.turnaround == TurnaroundDays(specs)
    ensures quote.discountApplied == DiscountField(specs.quantity)
  {
    var basePrice := BasePrice(specs.productType);
    var paperMultiplier := PaperMultiplier(specs.paperType);
    var colorModifier := ColorModifier(specs.printColors);
    var finishingCost := SumFinishing(specs.finishing);
    var discountRate := GetQuantityDiscount(specs.quantity);
    var price := PriceSteps(basePrice, paperMultiplier, colorModifier, finishingCost,
                            specs.quantity, discountRate);
    var turnaround := CalculateTurnaround(specs);
    quote := Quote(id, specs, price, turnaround,
                   if discountRate > 0.0 then Some(discountRate) else None, None);
  }

  /** A discount of at most 25% keeps at least three quarters of a
      non-negative price. */
  lemma DiscountBounds(price: real, rate: real)
    requires price >= 0.0 && 0.0 <= rate <= 0.25
    ensures 0.75 * price <= Discounted(price, rate) <= price
  {
    assert price * rate <= price * 0.25;
    assert price * rate >= 0.0;
  }

  /** With amounts in the ranges the tables allow, the scaled price is at
      least 1000 and the discounted price stays positive. */
  lemma PriceArithmeticBounds(basePrice: real, paperMultiplier: real, colorModifier: real,
                              finishingCost: real, quantity: int, rate: real)
    requires basePrice >= 2000.0 && paperMultiplier >= 1.0
    requires colorModifier >= 0.0 && finishingCost >= 0.0 && 0.0 <= rate <= 0.25
    ensures Scaled(UnitPriceOf(basePrice, paperMultiplier, colorModifier, finishingCost), quantity) >= 1000.0
    ensures Discounted(Scaled(UnitPriceOf(basePrice, paperMultiplier, colorModifier, finishingCost), quantity), rate) > 0.0
  {
    var u := UnitPriceOf(basePrice, paperMultiplier, colorModifier, finishingCost);
    assert basePrice * paperMultiplier >= basePrice * 1.0;
    assert u >= 2000.0;
    var scale := Scale(quantity);
    assert scale >= 0.5;
    assert u * scale >= 2000.0 * 0.5;
    var raw := Scaled(u, quantity);
    assert Discounted(raw, rate) == raw * (1.0 - rate);
    assert raw * (1.0 - rate) >= raw * 0.75;
  }

  /** Price, turnaround and discount depend on the product, paper, colour,
      finishing and quantity only: never on the service type, the size or the
      service-specific fields. */
  lemma QuoteDependsOnPrintingFields(s: Specs, t: Specs)
    requires s.productType == t.productType && s.paperType == t.paperType
    requires s.printColors == t.printColors && s.finishing == t.finishing
    requires s.quantity == t.quantity
    ensures QuotePrice(s) == QuotePrice(t)
    ensures TurnaroundDays(s) == TurnaroundDays(t)
    ensures DiscountField(s.quantity) == DiscountField(t.quantity)
  {
  }

  /** Any service type (or none), size and binding fields give the same price. */
  lemma ServiceTypeIsIgnored(s: Specs, t: Option<ServiceType>, size: string, bindingType: Option<string>,
                             pageCount: Option<int>, coverType: Option<string>)
    ensures QuotePrice(s.(serviceType := t, size := size, bindingType := bindingType, pageCount := pageCount,
                          coverType := coverType)) == QuotePrice(s)
  {
    QuoteDependsOnPrintingFields(s.(serviceType := t, size := size, bindingType := bindingType, pageCount := pageCount,
                                    coverType := coverType), s);
  }

  function PrintingSpecs(productType: string, paperType: string, printColors: string,
                         finishing: seq<string>, quantity: int): (r: Specs) {
    Specs(Some(Printing), productType, "a4", quantity, paperType, printColors, finishing,
          None, None, None, None, None, None, None, None, None, None, None, None)
  }

  /** 100 standard monochrome flyers without finishing: 5000, 5 days, no discount. */
  lemma FlyerHundred()
    ensures QuotePrice(PrintingSpecs("flyer", "standard", "black-and-white", ["none"], 100)) == 5000
    ensures TurnaroundDays(PrintingSpecs("flyer", "standard", "black-and-white", ["none"], 100)) == 5
    ensures DiscountField(100) == None
  {
    var s := PrintingSpecs("flyer", "standard", "black-and-white", ["none"], 100);
    assert FinishingCost(["none"]) == 0.0 by { assert ["none"][..0] == []; }
    assert DiscountedPrice(s) == 5000.0;
    assert QuotePrice(s) == Ceil(50.0) * 100;
    PlainDays(s);
  }

  /** 100 standard monochrome items without finishing of a product priced
      at 10000 (`'other'`, or any code the table does not list) cost 10000
      and take 5 days. */
  lemma PlainHundredOrder(s: Specs)
    requires BasePrice(s.productType) == 10000.0 && s.productType != "business-card" && s.productType != "booklet"
    requires s.paperType == "standard" && s.printColors == "black-and-white"
    requires s.finishing == ["none"] && s.quantity == 100
    ensures QuotePrice(s) == 10000 && TurnaroundDays(s) == 5
  {
    assert FinishingCost(["none"]) == 0.0 by { assert ["none"][..0] == []; }
    assert UnitPrice(s) == UnitPriceOf(10000.0, 1.0, 0.0, 0.0) == 10000.0;
    assert RawPrice(s) == Scaled(10000.0, 100) == 10000.0 by { assert Scale(100) == 1.0; }
    assert DiscountRate(100) == 0.0;
    assert DiscountedPrice(s) == Discounted(10000.0, 0.0) == 10000.0;
    assert QuotePrice(s) == RoundUp100(10000.0) == Ceil(100.0) * 100;
    PlainDays(s);
  }

  /** A product other than business cards and booklets, finished `'none'`,
      in 100 copies takes the base 5 days. */
  lemma PlainDays(s: Specs)
    requires s.productType != "business-card" && s.productType != "booklet"
    requires s.finishing == ["none"] && s.quantity == 100
    ensures TurnaroundDays(s) == 5
  {
  }

  /** 1000 such flyers: 50000 less 15% is 42500; 1000 is not above 1000, so 5 days. */
  lemma FlyerThousand()
    ensures QuotePrice(PrintingSpecs("flyer", "standard", "black-and-white", ["none"], 1000)) == 42500
    ensures TurnaroundDays(PrintingSpecs("flyer", "standard", "black-and-white", ["none"], 1000)) == 5
    ensures DiscountField(1000) == Some(0.15)
  {
    var s := PrintingSpecs("flyer", "standard", "black-and-white", ["none"], 1000);
    assert FinishingCost(["none"]) == 0.0 by { assert ["none"][..0] == []; }
    assert RawPrice(s) == 50000.0;
    assert DiscountedPrice(s) == 42500.0;
    assert QuotePrice(s) == Ceil(425.0) * 100;
  }

  /** The discount tier can make a larger order cheaper: 249 flyers cost 12500,
      250 flyers cost 11900. */
  lemma PriceNotMonotoneInQuantity()
    ensures QuotePrice(PrintingSpecs("flyer", "standard", "black-and-white", [], 249)) == 12500
    ensures QuotePrice(PrintingSpecs("flyer", "standard", "black-and-white", [], 250)) == 11900
  {
    var s := PrintingSpecs("flyer", "standard", "black-and-white", [], 249);
    var t := PrintingSpecs("flyer", "standard", "black-and-white", [], 250);
    assert DiscountedPrice(s) == 12450.0;
    assert QuotePrice(s) == Ceil(124.5) * 100;
    assert DiscountedPrice(t) == 11875.0;
    assert QuotePrice(t) == Ceil(118.75) * 100;
  }
}
