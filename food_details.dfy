// The order draft held by the food-details screen: the loaded food, its
// extras with their selected quantities, and how many units of the food are
// ordered. The handlers of the screen are the methods of FoodDetailsState;
// the values they store come from the pure functions of Extras and Totals.
module FoodDetails {
  import opened Extras
  import opened Totals

  datatype Option<T> = None | Some(value: T)

  /** A food item as the screen receives it. `price` is in integer cents. */
  datatype Food = Food(id: int, name: string, description: string, price: int,
                       imageUrl: string, extras: seq<Extra>)

  /** The fields of the food that an order carries over; the food's own `id`
      and `extras` are replaced by the order's. */
  datatype OrderedFood = OrderedFood(name: string, description: string, price: int, imageUrl: string)

  /** The order sent when the user finishes: the food's fields (absent when no
      food has been loaded yet), the extras that were selected, and a fresh
      identifier. */
  datatype Order = Order(id: int, food: Option<OrderedFood>, extras: seq<Extra>)

  function OrderedFoodOf(f: Food): OrderedFood
  {
    OrderedFood(f.name, f.description, f.price, f.imageUrl)
  }

  /** The food quantity after tapping "-": one unit less, never below 1. */
  function DecrementedFoodQuantity(q: int): (r: int)
    ensures r >= 1
    ensures r == q - 1 || (q <= 1 && r == 1)
  {
    if q > 1 then q - 1 else 1
  }

  class FoodDetailsState {
    var food: Option<Food>
    var extras: seq<Extra>
    var foodQuantity: int

    /** The floors the handlers keep: no extra below 0, the food at least 1. */
    ghost predicate Valid()
      reads this
    {
      foodQuantity >= 1 && NonNegative(extras)
    }

    /** The screen before its food has arrived. */
    constructor ()
      ensures food == None && extras == [] && foodQuantity == 1
      ensures Valid()
    {
      food := None;
      extras := [];
      foodQuantity := 1;
    }

    /** The total shown on the screen; None while no food is loaded, when the
        price is still undefined. */
    function CartTotal(): (t: Option<int>)
      reads this
      ensures t.Some? <==> food.Some?
      ensures t.Some? ==> t.value == foodQuantity * food.value.price + SumOfProducts(extras)
    {
      if food.None? then None else Some(Total(food.value.price, foodQuantity, extras))
    }

    /** Stores a food that has arrived, with every extra's quantity reset to 0;
        the food quantity is left as it was. */
    method LoadFood(response: Food)
      requires Valid()
      modifies this`food, this`extras
      ensures food == Some(response) && extras == ResetQuantities(response.extras)
      ensures forall i :: 0 <= i < |extras| ==> extras[i].quantity == 0
      ensures Valid()
      ensures CartTotal() == Some(foodQuantity * response.price)
    {
      food := Some(response);
      extras := ResetQuantities(response.extras);
      TotalAfterLoad(response.price, foodQuantity, response.extras);
    }

    method HandleIncrementExtra(id: int)
      requires Valid()
      modifies this`extras
      ensures extras == IncExtra(old(extras), id)
      ensures Valid()
    {
      IncExtraKeepsNonNegative(extras, id);
      extras := IncExtra(extras, id);
    }

    method HandleDecrementExtra(id: int)
      requires Valid()
      modifies this`extras
      ensures extras == DecExtra(old(extras), id)
      ensures Valid()
    {
      DecExtraKeepsNonNegative(extras, id);
      extras := DecExtra(extras, id);
    }

    method HandleIncrementFood()
      requires Valid()
      modifies this`foodQuantity
      ensures foodQuantity == old(foodQuantity) + 1
      ensures Valid()
      ensures food.Some? ==> CartTotal().value == old(CartTotal()).value + food.value.price
    {
      if food.Some? {
        IncFoodRaisesTotal(food.value.price, foodQuantity, extras);
      }
      foodQuantity := foodQuantity + 1;
    }

    method HandleDecrementFood()
      requires Valid()
      modifies this`foodQuantity
      ensures foodQuantity == DecrementedFoodQuantity(old(foodQuantity))
      ensures old(foodQuantity) == 1 ==> foodQuantity == 1
      ensures Valid()
      ensures food.Some? && old(foodQuantity) > 1 ==>
                CartTotal().value == old(CartTotal()).value - food.value.price
    {
      if food.Some? && foodQuantity > 1 {
        IncFoodRaisesTotal(food.value.price, foodQuantity - 1, extras);
      }
      foodQuantity := DecrementedFoodQuantity(foodQuantity);
    }

    /** The order the screen posts: the food's fields, exactly the extras with
        a positive quantity in list order, and `orderId` (the submission time,
        supplied by the caller). */
    method HandleFinishOrder(orderId: int) returns (order: Order)
      ensures order.id == orderId
      ensures order.food == if food.Some? then Some(OrderedFoodOf(food.value)) else None
      ensures forall e :: e in order.extras <==> e in extras && e.quantity > 0
      ensures SubsequenceAt(order.extras, extras, PositiveIndices(extras))
      ensures forall k :: 0 <= k < |extras| ==>
                (k in PositiveIndices(extras) <==> extras[k].quantity > 0)
    {
      OrderedExtrasIsSubsequence(extras);
      PositiveIndicesExact(extras);
      var details := if food.Some? then Some(OrderedFoodOf(food.value)) else None;
      order := Order(orderId, details, OrderedExtras(extras));
    }
  }

  /** Price 10.00, one extra of 2.00: the total goes 10.00, 12.00, 22.00 as the
      extra and then the food are incremented; decrementing the food at 1
      keeps it at 1. */
  method ScenarioTotals()
  {
    var screen := new FoodDetailsState();
    screen.LoadFood(Food(1, "Ao molho", "Massa", 1000, "ao-molho.png", [Extra(7, "Bacon", 200, 3)]));
    assert screen.extras == [Extra(7, "Bacon", 200, 0)];
    assert screen.CartTotal() == Some(1000);
    screen.HandleIncrementExtra(7);
    assert screen.extras == [Extra(7, "Bacon", 200, 1)];
    assert screen.CartTotal() == Some(1200);
    screen.HandleIncrementFood();
    assert screen.CartTotal() == Some(2200);
    screen.HandleDecrementFood();
    screen.HandleDecrementFood();
    assert screen.foodQuantity == 1;
    screen.HandleDecrementExtra(7);
    screen.HandleDecrementExtra(7);
    assert screen.extras == [Extra(7, "Bacon", 200, 0)];
  }

  /** Food quantity 2 and two extras of which only one was selected: the order
      carries exactly that one. */
  method ScenarioOrder()
  {
    var screen := new FoodDetailsState();
    screen.LoadFood(Food(1, "Ao molho", "Massa", 1000, "ao-molho.png",
                         [Extra(7, "Bacon", 200, 0), Extra(8, "Frango", 300, 0)]));
    screen.HandleIncrementFood();
    screen.HandleIncrementExtra(8);
    assert screen.extras == [Extra(7, "Bacon", 200, 0), Extra(8, "Frango", 300, 1)];
    var order := screen.HandleFinishOrder(1600000000000);
    assert Extra(7, "Bacon", 200, 0) !in order.extras;
    assert Extra(8, "Frango", 300, 1) in order.extras;
    assert order.id == 1600000000000;
  }
}
