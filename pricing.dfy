/** The pricing policy of `model/models.py`: the tax rate and the shipping
    setting in force on a given day, the free-shipping threshold, and the
    tax-inclusive price. Rates are `DecimalField(decimal_places=2)` percentages,
    kept here exactly as integer hundredths of a percent (10.00% is 1000). */
module Pricing {
  import opened Base

  /** A percentage in hundredths of a percent. */
  type Rate = int

  /** `Scale` hundredths of a percent make a whole: `x * rate / 100 / 100`. */
  const Scale: int := 10000

  /** The rate used when no tax row applies (the literal `10.00`). */
  const DefaultTaxRate: Rate := 1000

  /** Python's `int()` of the exact quotient `a / Scale`: truncation toward zero. */
  function Truncate(a: int): (q: int)
    ensures a >= 0 ==> 0 <= q && q * Scale <= a < q * Scale + Scale
    ensures a < 0 ==> q <= 0 && q * Scale - Scale < a <= q * Scale
  {
    if a >= 0 then a / Scale else -((-a) / Scale)
  }

  /** `int(amount * (1 + rate / 100))`: an amount with tax added, truncated. */
  function WithTax(amount: int, rate: Rate): (r: int)
    ensures amount * (Scale + rate) >= 0 ==> r * Scale <= amount * (Scale + rate) < r * Scale + Scale
    ensures amount >= 0 && rate >= 0 ==> r >= amount
  {
    Truncate(amount * (Scale + rate))
  }

  /** `int(amount * rate / 100)`: the tax on an amount, truncated. */
  function TaxOn(amount: int, rate: Rate): int {
    Truncate(amount * rate)
  }

  /** For non-negative prices and rates the tax-inclusive price is the floor of
      `price * (100 + rate) / 100`, is at least the price, and is the price plus
      the tax on it. */
  lemma WithTaxIsFloor(amount: nat, rate: nat)
    ensures WithTax(amount, rate) * Scale <= amount * (Scale + rate) < WithTax(amount, rate) * Scale + Scale
    ensures WithTax(amount, rate) == amount + TaxOn(amount, rate)
    ensures amount <= WithTax(amount, rate)
  {
    var x := amount * rate;
    assert amount * (Scale + rate) == amount * Scale + x;
    assert x >= 0;
    var t := x / Scale;
    assert t * Scale <= x < t * Scale + Scale;
    assert amount * Scale + t * Scale == (amount + t) * Scale;
    assert (amount * Scale + x) / Scale == amount + t;
  }

  /** A row of a dated settings table (`TaxRate`, `ShippingFee`): its setting
      applies from `startDate` on, while the row is active. */
  datatype Row<T> = Row(setting: T, startDate: Date, isActive: bool)

  /** `is_active=True, start_date__lte=today` */
  predicate Applies<T>(row: Row<T>, today: Date) {
    row.isActive && row.startDate <= today
  }

  /** `filter(is_active=True, start_date__lte=today).order_by('-start_date').first()`:
      the index of an applying row with the latest start date, or None when no
      row applies. Rows that tie on the start date are ordered arbitrarily by
      the database; the model takes the earliest of them in `rows`. */
  function LatestIndex<T>(rows: seq<Row<T>>, today: Date): (r: Option<nat>)
    ensures r.None? <==> forall i :: 0 <= i < |rows| ==> !Applies(rows[i], today)
    ensures r.Some? ==> r.value < |rows| && Applies(rows[r.value], today)
    ensures r.Some? ==> forall i :: 0 <= i < |rows| && Applies(rows[i], today) ==> rows[i].startDate <= rows[r.value].startDate
  {
    if |rows| == 0 then None
    else
      var last := |rows| - 1;
      var best := LatestIndex(rows[..last], today);
      if !Applies(rows[last], today) then best
      else if best.Some? && rows[best.value].startDate >= rows[last].startDate then best
      else Some(last)
  }

  /** `TaxRate.get_current_rate()` on the day `today`. */
  function CurrentTaxRate(rows: seq<Row<Rate>>, today: Date): (r: Rate)
    ensures (forall i :: 0 <= i < |rows| ==> !Applies(rows[i], today)) ==> r == DefaultTaxRate
    ensures r == DefaultTaxRate || exists i :: 0 <= i < |rows| && Applies(rows[i], today) && r == rows[i].setting
  {
    match LatestIndex(rows, today)
    case Some(i) => rows[i].setting
    case None => DefaultTaxRate
  }

  /** The current tax rate is the rate of an active row with the latest start
      date on or before today; it is 10.00% when no row qualifies. */
  lemma CurrentTaxRateIsLatest(rows: seq<Row<Rate>>, today: Date)
    ensures (forall i :: 0 <= i < |rows| ==> !Applies(rows[i], today)) ==> CurrentTaxRate(rows, today) == DefaultTaxRate
    ensures (exists i :: 0 <= i < |rows| && Applies(rows[i], today)) ==>
      exists i :: 0 <= i < |rows| && Applies(rows[i], today) && CurrentTaxRate(rows, today) == rows[i].setting
        && forall j :: 0 <= j < |rows| && Applies(rows[j], today) ==> rows[j].startDate <= rows[i].startDate
  {
    var r := LatestIndex(rows, today);
    if r.Some? {
      assert Applies(rows[r.value], today) && CurrentTaxRate(rows, today) == rows[r.value].setting;
    }
  }

  /** A `ShippingFee` row's setting: the flat fee and the optional amount from
      which shipping is free. */
  datatype ShippingRule = ShippingRule(fee: int, freeThreshold: Option<int>)

  /** `cls(fee=800, free_shipping_threshold=None)` */
  const DefaultShippingRule: ShippingRule := ShippingRule(800, None)

  /** `ShippingFee.get_current_fee()` on the day `today`. */
  function CurrentShippingRule(rows: seq<Row<ShippingRule>>, today: Date): (r: ShippingRule)
    ensures (forall i :: 0 <= i < |rows| ==> !Applies(rows[i], today)) ==> r == DefaultShippingRule
    ensures r == DefaultShippingRule || exists i :: 0 <= i < |rows| && Applies(rows[i], today) && r == rows[i].setting
  {
    match LatestIndex(rows, today)
    case Some(i) => rows[i].setting
    case None => DefaultShippingRule
  }

  /** The shipping setting is resolved like the tax rate, with the default of
      800 yen and no threshold. */
  lemma CurrentShippingRuleIsLatest(rows: seq<Row<ShippingRule>>, today: Date)
    ensures (forall i :: 0 <= i < |rows| ==> !Applies(rows[i], today)) ==> CurrentShippingRule(rows, today) == DefaultShippingRule
    ensures (exists i :: 0 <= i < |rows| && Applies(rows[i], today)) ==>
      exists i :: 0 <= i < |rows| && Applies(rows[i], today) && CurrentShippingRule(rows, today) == rows[i].setting
        && forall j :: 0 <= j < |rows| && Applies(rows[j], today) ==> rows[j].startDate <= rows[i].startDate
  {
    var r := LatestIndex(rows, today);
    if r.Some? {
      assert Applies(rows[r.value], today) && CurrentShippingRule(rows, today) == rows[r.value].setting;
    }
  }

  /** The threshold is set and truthy (a threshold of 0 counts as unset) and
      the subtotal reaches it. */
  predicate Waived(rule: ShippingRule, subtotal: int) {
    rule.freeThreshold.Some? && rule.freeThreshold.value != 0 && subtotal >= rule.freeThreshold.value
  }

  /** The body of `calculate_shipping_fee` once the rule is resolved. */
  function ShippingFeeFor(rule: ShippingRule, subtotal: int): (fee: int)
    ensures Waived(rule, subtotal) ==> fee == 0
    ensures !Waived(rule, subtotal) ==> fee == rule.fee
  {
    match rule.freeThreshold
    case Some(t) => if t != 0 && subtotal >= t then 0 else rule.fee
    case None => rule.fee
  }

  /** `ShippingFee.calculate_shipping_fee(subtotal)` on the day `today`. */
  function CalculateShippingFee(rows: seq<Row<ShippingRule>>, today: Date, subtotal: int): (fee: int)
    ensures Waived(CurrentShippingRule(rows, today), subtotal) ==> fee == 0
    ensures !Waived(CurrentShippingRule(rows, today), subtotal) ==> fee == CurrentShippingRule(rows, today).fee
  {
    ShippingFeeFor(CurrentShippingRule(rows, today), subtotal)
  }

  /** The threshold is inclusive: a subtotal equal to it ships free, one yen
      less pays the flat fee. */
  lemma FreeShippingBoundary(rule: ShippingRule)
    requires rule.freeThreshold.Some? && rule.freeThreshold.value != 0
    ensures ShippingFeeFor(rule, rule.freeThreshold.value) == 0
    ensures ShippingFeeFor(rule, rule.freeThreshold.value - 1) == rule.fee
  {
  }

  /** Without a threshold, or with a threshold of 0, the fee is never waived. */
  lemma NoThresholdNeverWaives(rule: ShippingRule, subtotal: int)
    requires rule.freeThreshold.None? || rule.freeThreshold.value == 0
    ensures ShippingFeeFor(rule, subtotal) == rule.fee
  {
  }

  /** Once waived, the fee stays waived for every larger subtotal. */
  lemma WaiverIsUpwardClosed(rule: ShippingRule, subtotal: int, larger: int)
    requires subtotal <= larger && Waived(rule, subtotal)
    ensures ShippingFeeFor(rule, larger) == 0
  {
  }
}
