// The cart total of the food-details screen: the food's price times the food
// quantity plus what the selected extras cost, computed as the screen does
// (map each extra to quantity * value, then reduce with + from 0) and related
// to the closed-form sum it is meant to be.
module Totals {
  import opened Extras

  /** The map step: what each extra line costs. */
  function Subtotals(s: seq<Extra>): (r: seq<int>)
    ensures |r| == |s|
    ensures forall i :: 0 <= i < |s| ==> r[i] == s[i].quantity * s[i].value
  {
    if s == [] then [] else [s[0].quantity * s[0].value] + Subtotals(s[1..])
  }

  /** The reduce step: a left fold with + starting from `acc`. */
  function ReduceSum(xs: seq<int>, acc: int): int
  {
    if xs == [] then acc else ReduceSum(xs[1..], acc + xs[0])
  }

  /** The reference definition: the sum of quantity * value over all extras. */
  function SumOfProducts(s: seq<Extra>): int
  {
    if s == [] then 0 else s[0].quantity * s[0].value + SumOfProducts(s[1..])
  }

  /** Folding the subtotals from any start value adds their closed-form sum. */
  lemma {:induction false} ReduceSubtotals(s: seq<Extra>, acc: int)
    ensures ReduceSum(Subtotals(s), acc) == acc + SumOfProducts(s)
  {
    if s != [] {
      assert Subtotals(s)[1..] == Subtotals(s[1..]);
      ReduceSubtotals(s[1..], acc + s[0].quantity * s[0].value);
    }
  }

  /** The cart total, computed as the screen computes it; its contract is the
      closed form foodQuantity * price + the sum of quantity * value. */
  function Total(price: int, foodQuantity: int, extras: seq<Extra>): (t: int)
    ensures t == foodQuantity * price + SumOfProducts(extras)
  {
    ReduceSubtotals(extras, 0);
    foodQuantity * price + ReduceSum(Subtotals(extras), 0)
  }

  /** Extras that all have quantity 0 cost nothing. */
  lemma {:induction false} SumOfResetIsZero(s: seq<Extra>)
    ensures SumOfProducts(ResetQuantities(s)) == 0
  {
    if s != [] {
      SumOfResetIsZero(s[1..]);
      assert ResetQuantities(s)[1..] == ResetQuantities(s[1..]);
    }
  }

  /** Right after a food is loaded, the total is the food quantity times the
      price; with the initial food quantity 1, it is the price. */
  lemma {:induction false} TotalAfterLoad(price: int, foodQuantity: int, extras: seq<Extra>)
    ensures Total(price, foodQuantity, ResetQuantities(extras)) == foodQuantity * price
    ensures Total(price, 1, ResetQuantities(extras)) == price
  {
    SumOfResetIsZero(extras);
  }

  /** Lists that agree on everything but one extra's quantity, which differs
      by `delta`, differ in sum by delta * that extra's value. */
  lemma {:induction false} SumOfOneChange(s: seq<Extra>, r: seq<Extra>, k: int, delta: int)
    requires |r| == |s| && 0 <= k < |s|
    requires forall i :: 0 <= i < |s| && i != k ==> r[i] == s[i]
    requires r[k].value == s[k].value && r[k].quantity == s[k].quantity + delta
    ensures SumOfProducts(r) == SumOfProducts(s) + delta * s[k].value
  {
    if k == 0 {
      assert r[1..] == s[1..];
      assert r[0].quantity * r[0].value == s[0].quantity * s[0].value + delta * s[0].value;
    } else {
      SumOfOneChange(s[1..], r[1..], k - 1, delta);
    }
  }

  /** When extra k's identifier is unique, tapping "+" on it raises the total by
      exactly its value. */
  lemma IncExtraRaisesTotal(price: int, foodQuantity: int, s: seq<Extra>, k: int)
    requires UniqueAt(s, k)
    ensures Total(price, foodQuantity, IncExtra(s, s[k].id)) == Total(price, foodQuantity, s) + s[k].value
  {
    var r := IncExtra(s, s[k].id);
    IncExtraOnlyTarget(s, k);
    SumOfOneChange(s, r, k, 1);
  }

  /** When extra k's identifier is unique, tapping "-" on it lowers the total by
      exactly its value while its quantity is positive, and leaves it as it
      was otherwise. */
  lemma DecExtraLowersTotal(price: int, foodQuantity: int, s: seq<Extra>, k: int)
    requires UniqueAt(s, k)
    ensures s[k].quantity > 0 ==>
              Total(price, foodQuantity, DecExtra(s, s[k].id)) == Total(price, foodQuantity, s) - s[k].value
    ensures s[k].quantity <= 0 ==>
              Total(price, foodQuantity, DecExtra(s, s[k].id)) == Total(price, foodQuantity, s)
  {
    var r := DecExtra(s, s[k].id);
    DecExtraOnlyTarget(s, k);
    if s[k].quantity > 0 {
      SumOfOneChange(s, r, k, -1);
      assert SumOfProducts(r) == SumOfProducts(s) - s[k].value;
    } else {
      assert r == s;
    }
  }

  /** One more unit of food raises the total by exactly the price. */
  lemma IncFoodRaisesTotal(price: int, foodQuantity: int, extras: seq<Extra>)
    ensures Total(price, foodQuantity + 1, extras) == Total(price, foodQuantity, extras) + price
  {
  }
}
