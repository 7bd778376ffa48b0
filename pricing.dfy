/**
  The point-of-sale pricing pipeline: discount tiers, per-line discounts,
  the cart subtotal, the summed discount, 12% VAT on the discounted subtotal
  and the grand total.

  Money is modelled as `real` (exact decimals), so nothing here speaks about
  floating-point rounding. Every operation is a pure function of its inputs.
*/
module Pricing {

  /** Value-added tax applied to the discounted subtotal. */
  const VAT_RATE: real := 0.12

  /** The discount tier chosen at the till; `Other` stands for every tag the
      pricing code does not recognise (including "no discount"). */
  datatype DiscountType = Senior | PWD | Employee | Custom | Other

  /** An optional number; `None` is the caller leaving the custom percent out. */
  datatype Option<T> = None | Some(value: T)

  /** One cart line: unit price, quantity and whatever else identifies the
      product (opaque to the pricing code). */
  datatype CartItem<P> = CartItem(price: real, quantity: int, payload: P)

  /** A line amount before any discount: price times quantity. */
  function LineAmount(price: real, quantity: int): real {
    price * quantity as real
  }

  /** A copy of a cart line carrying its computed `discount`. */
  datatype DiscountedItem<P> = DiscountedItem(item: CartItem<P>, discount: real)

  datatype Totals<P> = Totals(
    subtotal: real,
    discountAmount: real,
    discountedSubtotal: real,
    vat: real,
    total: real,
    items: seq<DiscountedItem<P>>)

  /** `customValue || 0`: a missing custom percent counts as zero. */
  function OrZero(v: Option<real>): real {
    if v.Some? then v.value else 0.0
  }

  /** The fraction of the price a tier takes off. Custom values are used as
      given: nothing limits them to 0..100. */
  function DiscountRate(t: DiscountType, customValue: Option<real>): (rate: real)
    ensures t == Senior || t == PWD ==> rate == 0.20
    ensures t == Employee ==> rate == 0.10
    ensures t == Custom ==> rate * 100.0 == OrZero(customValue)
    ensures t == Other ==> rate == 0.0
    // the rate is a proper fraction exactly when the custom percent is in 0..100
    ensures 0.0 <= rate <= 1.0 <==> t != Custom || 0.0 <= OrZero(customValue) <= 100.0
    ensures rate < 0.0 <==> t == Custom && OrZero(customValue) < 0.0
  {
    match t
    case Senior | PWD => 0.20
    case Employee => 0.10
    case Custom => OrZero(customValue) / 100.0
    case Other => 0.0
  }

  /** The percentage the per-line switch settles on: the fixed tiers as in
      `DiscountRate`, a Custom percent only when it is present and positive,
      and zero otherwise. */
  function ItemPercentage(t: DiscountType, customValue: Option<real>): (rate: real)
    ensures 0.0 <= rate
    // it is DiscountRate with a negative rate replaced by zero
    ensures rate == if DiscountRate(t, customValue) < 0.0 then 0.0 else DiscountRate(t, customValue)
    // only a Custom percent above 100 takes off more than the whole line
    ensures rate <= 1.0 <==> t != Custom || OrZero(customValue) <= 100.0
  {
    match t
    case Senior | PWD => 0.20
    case Employee => 0.10
    case Custom => if customValue.Some? && customValue.value > 0.0 then customValue.value / 100.0 else 0.0
    case Other => 0.0
  }

  /** The discount on one line. An unrecognised tag returns zero before any
      multiplication; otherwise the line amount is scaled by the percentage. */
  function ItemDiscount(price: real, quantity: int, t: DiscountType, customValue: Option<real>): (d: real)
    ensures t == Other ==> d == 0.0
    // a missing, zero or negative Custom percent gives no discount
    ensures t == Custom && OrZero(customValue) <= 0.0 ==> d == 0.0
  {
    if t == Other then 0.0
    else LineAmount(price, quantity) * ItemPercentage(t, customValue)
  }

  /** The sum of price times quantity over the cart, folded from the left. */
  function Subtotal<P>(items: seq<CartItem<P>>): (s: real)
    ensures items == [] ==> s == 0.0
  {
    if items == [] then 0.0
    else Subtotal(items[..|items| - 1]) + LineAmount(items[|items| - 1].price, items[|items| - 1].quantity)
  }

  /** The sum of the per-line discounts over the cart, folded from the left. */
  function Discount<P>(items: seq<CartItem<P>>, t: DiscountType, customValue: Option<real>): (d: real)
    ensures items == [] ==> d == 0.0
  {
    if items == [] then 0.0
    else
      var last := items[|items| - 1];
      Discount(items[..|items| - 1], t, customValue) + ItemDiscount(last.price, last.quantity, t, customValue)
  }

  /** The per-line discount is the line amount times the tier's rate, except
      that a negative Custom rate is treated as zero. */
  lemma {:induction false} ItemDiscountUsesRate(price: real, quantity: int, t: DiscountType, customValue: Option<real>)
    ensures ItemDiscount(price, quantity, t, customValue) == LineAmount(price, quantity) * ItemPercentage(t, customValue)
    ensures DiscountRate(t, customValue) >= 0.0 ==>
      ItemDiscount(price, quantity, t, customValue) == LineAmount(price, quantity) * DiscountRate(t, customValue)
  {
  }

  /** Summing the per-line discounts is the same as discounting the subtotal. */
  lemma {:induction false} DiscountIsScaledSubtotal<P>(items: seq<CartItem<P>>, t: DiscountType, customValue: Option<real>)
    ensures Discount(items, t, customValue) == Subtotal(items) * ItemPercentage(t, customValue)
  {
    if items != [] {
      var prefix, last, rate := items[..|items| - 1], items[|items| - 1], ItemPercentage(t, customValue);
      DiscountIsScaledSubtotal(prefix, t, customValue);
      ItemDiscountUsesRate(last.price, last.quantity, t, customValue);
      Distributes(Subtotal(prefix), LineAmount(last.price, last.quantity), Subtotal(items), rate);
    }
  }


  /** VAT owed on a (discounted) amount. */
  function Vat(discountedAmount: real): (v: real)
    ensures discountedAmount + v == discountedAmount * 1.12
    ensures discountedAmount >= 0.0 <==> v >= 0.0
  {
    discountedAmount * VAT_RATE
  }

  /** Copies every line, adding its computed discount. */
  function WithDiscounts<P>(items: seq<CartItem<P>>, t: DiscountType, customValue: Option<real>): (r: seq<DiscountedItem<P>>)
    ensures |r| == |items|
    ensures forall i :: 0 <= i < |items| ==>
      r[i].item == items[i] && r[i].discount == ItemDiscount(items[i].price, items[i].quantity, t, customValue)
  {
    seq(|items|, i requires 0 <= i < |items| =>
      DiscountedItem(items[i], ItemDiscount(items[i].price, items[i].quantity, t, customValue)))
  }

  /** The subtotal as `calculateTotals` recomputes it, over the annotated lines. */
  function SumAmounts<P>(lines: seq<DiscountedItem<P>>): real {
    if lines == [] then 0.0
    else SumAmounts(lines[..|lines| - 1]) + LineAmount(lines[|lines| - 1].item.price, lines[|lines| - 1].item.quantity)
  }

  /** The discount total as `calculateTotals` sums it, over the annotated lines. */
  function SumDiscounts<P>(lines: seq<DiscountedItem<P>>): real {
    if lines == [] then 0.0
    else SumDiscounts(lines[..|lines| - 1]) + lines[|lines| - 1].discount
  }

  lemma {:induction false} WithDiscountsPrefix<P>(items: seq<CartItem<P>>, t: DiscountType, customValue: Option<real>)
    requires items != []
    ensures WithDiscounts(items, t, customValue)[..|items| - 1] == WithDiscounts(items[..|items| - 1], t, customValue)
  {
  }

  /** Summing the line amounts of the annotated copies gives the subtotal of
      the original cart. */
  lemma {:induction false} SumAmountsOfAnnotated<P>(items: seq<CartItem<P>>, t: DiscountType, customValue: Option<real>)
    ensures SumAmounts(WithDiscounts(items, t, customValue)) == Subtotal(items)
  {
    if items != [] {
      WithDiscountsPrefix(items, t, customValue);
      SumAmountsOfAnnotated(items[..|items| - 1], t, customValue);
    }
  }

  /** Summing the discounts written on the annotated copies gives the
      cart discount: the displayed and aggregated figures agree. */
  lemma {:induction false} SumDiscountsOfAnnotated<P>(items: seq<CartItem<P>>, t: DiscountType, customValue: Option<real>)
    ensures SumDiscounts(WithDiscounts(items, t, customValue)) == Discount(items, t, customValue)
  {
    if items != [] {
      WithDiscountsPrefix(items, t, customValue);
      SumDiscountsOfAnnotated(items[..|items| - 1], t, customValue);
    }
  }

  /** The full breakdown for a cart and a discount selection. */
  function CalculateTotals<P>(items: seq<CartItem<P>>, t: DiscountType, customValue: Option<real>): (r: Totals<P>)
    ensures |r.items| == |items|
    ensures forall i :: 0 <= i < |items| ==>
      r.items[i].item == items[i] && r.items[i].discount == ItemDiscount(items[i].price, items[i].quantity, t, customValue)
    ensures r.subtotal == Subtotal(items)
    ensures r.discountAmount == Discount(items, t, customValue)
    ensures r.discountedSubtotal == r.subtotal - r.discountAmount
    ensures r.vat == Vat(r.discountedSubtotal)
    ensures r.total == r.discountedSubtotal + r.vat == r.discountedSubtotal * 1.12
  {
    var annotated := WithDiscounts(items, t, customValue);
    var subtotal := SumAmounts(annotated);
    var discountAmount := SumDiscounts(annotated);
    var discountedSubtotal := subtotal - discountAmount;
    var vat := discountedSubtotal * VAT_RATE;
    SumAmountsOfAnnotated(items, t, customValue);
    SumDiscountsOfAnnotated(items, t, customValue);
    Totals(subtotal, discountAmount, discountedSubtotal, vat, discountedSubtotal + vat, annotated)
  }

  /** The subtotal distributes over concatenation of carts. */
  lemma {:induction false} SubtotalAppend<P>(a: seq<CartItem<P>>, b: seq<CartItem<P>>)
    ensures Subtotal(a + b) == Subtotal(a) + Subtotal(b)
  {
    if b == [] {
      assert a + b == a;
    } else {
      var b' := b[..|b| - 1];
      assert (a + b)[..|a + b| - 1] == a + b';
      assert (a + b)[|a + b| - 1] == b[|b| - 1];
      SubtotalAppend(a, b');
    }
  }

  /** So does the summed discount. */
  lemma {:induction false} DiscountAppend<P>(a: seq<CartItem<P>>, b: seq<CartItem<P>>, t: DiscountType, customValue: Option<real>)
    ensures Discount(a + b, t, customValue) == Discount(a, t, customValue) + Discount(b, t, customValue)
  {
    if b == [] {
      assert a + b == a;
    } else {
      var b' := b[..|b| - 1];
      assert (a + b)[..|a + b| - 1] == a + b';
      assert (a + b)[|a + b| - 1] == b[|b| - 1];
      DiscountAppend(a, b', t, customValue);
    }
  }

  /** The subtotal does not depend on the order of the lines. */
  lemma {:induction false} SubtotalPermutation<P>(a: seq<CartItem<P>>, b: seq<CartItem<P>>)
    requires multiset(a) == multiset(b)
    ensures Subtotal(a) == Subtotal(b)
  {
    if a != [] {
      var x := a[|a| - 1];
      var a' := a[..|a| - 1];
      assert a == a' + [x];
      assert x in multiset(b);
      var k :| 0 <= k < |b| && b[k] == x;
      RemoveAt(b, k);
      SubtotalPermutation(a', b[..k] + b[k + 1..]);
      SubtotalRemoveAt(b, k);
    }
  }

  /** Taking out the line at k removes one copy of it from the multiset. */
  lemma {:induction false} RemoveAt<P>(b: seq<CartItem<P>>, k: nat)
    requires k < |b|
    ensures multiset(b[..k] + b[k + 1..]) == multiset(b) - multiset{b[k]}
  {
    assert b == b[..k] + [b[k]] + b[k + 1..];
  }

  /** Taking out the line at k takes its amount off the subtotal. */
  lemma {:induction false} SubtotalRemoveAt<P>(b: seq<CartItem<P>>, k: nat)
    requires k < |b|
    ensures Subtotal(b) == Subtotal(b[..k] + b[k + 1..]) + LineAmount(b[k].price, b[k].quantity)
  {
    var b1, b2 := b[..k], b[k + 1..];
    assert b == b1 + [b[k]] + b2;
    assert [b[k]][..0] == [];
    SubtotalAppend(b1 + [b[k]], b2);
    SubtotalAppend(b1, [b[k]]);
    SubtotalAppend(b1, b2);
  }

  /** With non-negative prices and quantities every line amount is non-negative. */
  lemma {:induction false} NonNegativeLines<P>(items: seq<CartItem<P>>)
    requires forall i :: 0 <= i < |items| ==> items[i].price >= 0.0 && items[i].quantity >= 0
    ensures forall i :: 0 <= i < |items| ==> LineAmount(items[i].price, items[i].quantity) >= 0.0
  {
    forall i | 0 <= i < |items|
      ensures LineAmount(items[i].price, items[i].quantity) >= 0.0
    {
      ProductNonNegative(items[i].price, items[i].quantity as real);
    }
  }

  /** A line with a non-negative amount never gets a negative discount, even
      when `DiscountRate` itself is negative. */
  lemma {:induction false} ItemDiscountNonNegative(price: real, quantity: int, t: DiscountType, customValue: Option<real>)
    requires LineAmount(price, quantity) >= 0.0
    ensures ItemDiscount(price, quantity, t, customValue) >= 0.0
  {
    ItemDiscountUsesRate(price, quantity, t, customValue);
    ProductNonNegative(LineAmount(price, quantity), ItemPercentage(t, customValue));
  }

  /** When the tier's rate is a proper fraction a line's discount never
      exceeds the line amount. */
  lemma {:induction false} ItemDiscountAtMostAmount(price: real, quantity: int, t: DiscountType, customValue: Option<real>)
    requires LineAmount(price, quantity) >= 0.0
    requires 0.0 <= DiscountRate(t, customValue) <= 1.0
    ensures ItemDiscount(price, quantity, t, customValue) <= LineAmount(price, quantity)
  {
    ItemDiscountUsesRate(price, quantity, t, customValue);
    ScaledDown(LineAmount(price, quantity), ItemPercentage(t, customValue));
  }

  /** A cart of non-negative line amounts has a non-negative subtotal. */
  lemma {:induction false} SubtotalNonNegative<P>(items: seq<CartItem<P>>)
    requires forall i :: 0 <= i < |items| ==> LineAmount(items[i].price, items[i].quantity) >= 0.0
    ensures Subtotal(items) >= 0.0
  {
    if items != [] {
      SubtotalNonNegative(items[..|items| - 1]);
    }
  }

  /** The breakdown in closed form: everything is the subtotal scaled by the
      rate the per-line discount applies. */
  lemma {:induction false} TotalClosedForm<P>(items: seq<CartItem<P>>, t: DiscountType, customValue: Option<real>)
    ensures var r := CalculateTotals(items, t, customValue);
      var s, rate := Subtotal(items), ItemPercentage(t, customValue);
      && r.discountAmount == s * rate
      && r.discountedSubtotal == s * (1.0 - rate)
      && r.total == s * (1.0 - rate) * 1.12
  {
    var r := CalculateTotals(items, t, customValue);
    assert r.subtotal == Subtotal(items) && r.discountAmount == Discount(items, t, customValue);
    DiscountIsScaledSubtotal(items, t, customValue);
    ClosedFormArithmetic(r.subtotal, r.discountAmount, r.discountedSubtotal, r.total, ItemPercentage(t, customValue));
  }

  lemma ClosedFormArithmetic(s: real, discount: real, discounted: real, total: real, rate: real)
    requires discount == s * rate && discounted == s - discount && total == discounted * 1.12
    ensures discounted == s * (1.0 - rate) && total == s * (1.0 - rate) * 1.12
  {
  }

  /** With a proper discount rate and non-negative prices and quantities, the
      discount never exceeds the subtotal and nothing goes negative. */
  lemma {:induction false} TotalsNonNegative<P>(items: seq<CartItem<P>>, t: DiscountType, customValue: Option<real>)
    requires forall i :: 0 <= i < |items| ==> items[i].price >= 0.0 && items[i].quantity >= 0
    requires t == Custom ==> OrZero(customValue) <= 100.0
    ensures var r := CalculateTotals(items, t, customValue);
      0.0 <= r.discountAmount <= r.subtotal && r.discountedSubtotal >= 0.0 && r.total >= 0.0
  {
    var r := CalculateTotals(items, t, customValue);
    NonNegativeLines(items);
    SubtotalNonNegative(items);
    DiscountWithinSubtotal(items, t, customValue);
    BreakdownSigns(r.subtotal, r.discountAmount, r.discountedSubtotal, r.total);
  }

  /** A rate of at most 1 on a non-negative subtotal discounts at most the subtotal. */
  lemma {:induction false} DiscountWithinSubtotal<P>(items: seq<CartItem<P>>, t: DiscountType, customValue: Option<real>)
    requires Subtotal(items) >= 0.0
    requires ItemPercentage(t, customValue) <= 1.0
    ensures 0.0 <= Discount(items, t, customValue) <= Subtotal(items)
  {
    DiscountIsScaledSubtotal(items, t, customValue);
    ScaledWithin(Subtotal(items), ItemPercentage(t, customValue), Discount(items, t, customValue));
  }

  /** A rate above 1 on a positive subtotal discounts more than the subtotal. */
  lemma {:induction false} DiscountBeyondSubtotal<P>(items: seq<CartItem<P>>, t: DiscountType, customValue: Option<real>)
    requires Subtotal(items) > 0.0
    requires ItemPercentage(t, customValue) > 1.0
    ensures Discount(items, t, customValue) > Subtotal(items)
  {
    DiscountIsScaledSubtotal(items, t, customValue);
    ScaledBeyond(Subtotal(items), ItemPercentage(t, customValue), Discount(items, t, customValue));
  }

  lemma BreakdownSigns(s: real, discount: real, discounted: real, total: real)
    requires discounted == s - discount && total == discounted * 1.12
    ensures discount <= s ==> discounted >= 0.0 && total >= 0.0
    ensures discount > s ==> discounted < 0.0 && total < 0.0
  {
  }

  /** Nothing clamps a Custom percent: above 100 the discount exceeds the
      subtotal and the total turns negative. */
  lemma {:induction false} CustomAboveHundredOverDiscounts<P>(items: seq<CartItem<P>>, percent: real)
    requires percent > 100.0
    requires Subtotal(items) > 0.0
    ensures var r := CalculateTotals(items, Custom, Some(percent));
      r.discountAmount > r.subtotal && r.discountedSubtotal < 0.0 && r.total < 0.0
  {
    var r := CalculateTotals(items, Custom, Some(percent));
    DiscountBeyondSubtotal(items, Custom, Some(percent));
    BreakdownSigns(r.subtotal, r.discountAmount, r.discountedSubtotal, r.total);
  }

  /** An unrecognised tier is no discount: the total is the subtotal plus VAT. */
  lemma {:induction false} NoDiscountTotal<P>(items: seq<CartItem<P>>, customValue: Option<real>)
    ensures var r := CalculateTotals(items, Other, customValue);
      r.discountAmount == 0.0 && r.total == r.subtotal * 1.12
  {
    DiscountIsScaledSubtotal(items, Other, customValue);
    ScaledByZero(Subtotal(items), ItemPercentage(Other, customValue));
  }

  /** An empty cart totals to zero throughout. */
  lemma EmptyCart<P>(t: DiscountType, customValue: Option<real>)
    ensures var r := CalculateTotals<P>([], t, customValue);
      r.subtotal == 0.0 && r.discountAmount == 0.0 && r.discountedSubtotal == 0.0 && r.vat == 0.0 && r.total == 0.0 && r.items == []
  {
  }

  /** Two lines, 100 x 2 and 50 x 1, under the Senior tier and under Custom 10%. */
  lemma WorkedExamples<P>(p: P, q: P)
    ensures var cart := [CartItem(100.0, 2, p), CartItem(50.0, 1, q)];
      var senior := CalculateTotals(cart, Senior, None);
      var custom := CalculateTotals(cart, Custom, Some(10.0));
      && senior.subtotal == 250.0 && senior.discountAmount == 50.0
      && senior.discountedSubtotal == 200.0 && senior.vat == 24.0 && senior.total == 224.0
      && custom.discountAmount == 25.0 && custom.discountedSubtotal == 225.0
      && custom.vat == 27.0 && custom.total == 252.0
  {
    var cart := [CartItem(100.0, 2, p), CartItem(50.0, 1, q)];
    assert cart[..1] == [CartItem(100.0, 2, p)];
    assert [CartItem(100.0, 2, p)][..0] == [];
    assert Subtotal(cart) == 250.0;
    TotalClosedForm(cart, Senior, None);
    TotalClosedForm(cart, Custom, Some(10.0));
  }

  lemma Distributes(x: real, y: real, sum: real, rate: real)
    requires sum == x + y
    ensures sum * rate == x * rate + y * rate
  {
  }

  lemma ProductNonNegative(x: real, y: real)
    requires x >= 0.0 && y >= 0.0
    ensures x * y >= 0.0
  {
  }

  lemma ScaledDown(s: real, rate: real)
    requires s >= 0.0 && 0.0 <= rate <= 1.0
    ensures 0.0 <= s * rate <= s
  {
  }

  lemma ScaledWithin(s: real, rate: real, scaled: real)
    requires scaled == s * rate
    requires s >= 0.0 && 0.0 <= rate <= 1.0
    ensures 0.0 <= scaled <= s
  {
    ScaledDown(s, rate);
  }

  lemma ScaledBeyond(s: real, rate: real, scaled: real)
    requires scaled == s * rate
    requires s > 0.0 && rate > 1.0
    ensures scaled > s
  {
    ScaledUp(s, rate);
  }

  lemma ScaledByZero(s: real, rate: real)
    requires rate == 0.0
    ensures s * rate == 0.0
  {
  }

  lemma ScaledUp(s: real, rate: real)
    requires s > 0.0 && rate > 1.0
    ensures s * rate > s
  {
  }
}
