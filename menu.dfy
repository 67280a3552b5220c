/**
 * The static catalog of the "Sabor Caseiro" kitchen: five meals (marmitas),
 * three drinks (bebidas) and the delivery fee. Prices are integer cents, so
 * every sum is exact.
 */
module Menu {
  import opened Wrappers

  /** A catalog entry; prices in cents. */
  datatype Item = Item(id: nat, name: string, price: nat)

  const Meals: seq<Item> := [
    Item(1, "Tradicional", 1500),
    Item(2, "Frango", 1400),
    Item(3, "Vegana", 1300),
    Item(4, "Fitness", 1600),
    Item(5, "do Chefe", 1800)
  ]

  const Drinks: seq<Item> := [
    Item(6, "Refrigerante", 400),
    Item(7, "Suco Natural", 500),
    Item(8, "Água", 200)
  ]

  /** The fixed charge added once to every order. */
  const DeliveryFee: nat := 300

  /** `cart.reduce((sum, item) => sum + item.preco, 0)`: a left fold over the cart. */
  function Subtotal(cart: seq<Item>): nat
  {
    if cart == [] then 0 else Subtotal(cart[..|cart| - 1]) + cart[|cart| - 1].price
  }

  /** Reference sum, folding from the front. */
  function SumPrices(cart: seq<Item>): nat
  {
    if cart == [] then 0 else cart[0].price + SumPrices(cart[1..])
  }

  lemma {:induction false} SubtotalIsSum(cart: seq<Item>)
    ensures Subtotal(cart) == SumPrices(cart)
  {
    if cart != [] {
      var init := cart[..|cart| - 1];
      SubtotalIsSum(init);
      if init != [] {
        assert init[1..] == cart[1..][..|cart| - 2];
        SubtotalIsSum(cart[1..]);
        SubtotalIsSum(init[1..]);
      }
    }
  }

  /** Adding an item raises the subtotal by exactly its price. */
  lemma SubtotalAppend(cart: seq<Item>, x: Item)
    ensures Subtotal(cart + [x]) == Subtotal(cart) + x.price
  {
    assert (cart + [x])[..|cart|] == cart;
  }

  /** One meal of the catalog, optionally followed by one drink of the catalog. */
  predicate IsOrderCart(cart: seq<Item>)
  {
    && (|cart| == 1 || |cart| == 2)
    && cart[0] in Meals
    && (|cart| == 2 ==> cart[1] in Drinks)
  }

  /**
   * The cheapest order is the Vegana meal alone (13.00 + 3.00), the dearest the
   * do Chefe meal with a Suco Natural (18.00 + 5.00 + 3.00).
   */
  lemma OrderTotalBounds(cart: seq<Item>)
    requires IsOrderCart(cart)
    ensures 1600 <= Subtotal(cart) + DeliveryFee <= 2600
  {
    var meal := cart[0];
    assert 1300 <= meal.price <= 1800;
    assert cart[..1] == [meal];
    SubtotalAppend([], meal);
    if |cart| == 2 {
      assert 200 <= cart[1].price <= 500;
      assert cart == [meal] + [cart[1]];
      SubtotalAppend([meal], cart[1]);
    }
  }
}
