/**
 * The database writes: the inventory decrement of
 * src/dataMapers/updateInDataBase.js and the order-ledger insert of
 * src/dataMapers/createInDataBase.js, on a `Database` object holding the
 * `product` table and the `orders` table.
 */
module Store {
  import opened Wrappers
  import opened Catalog

  /** One row of the `orders` table, stored exactly as given. */
  datatype OrderRow = OrderRow(sessionId: string, productId: int, price: int, quantity: int, totalPrice: int)

  /** `UPDATE product SET inventory = $1 WHERE id = $2`. */
  function SetInventory(t: Table, productId: int, inventory: int): (r: Table)
    ensures r.Keys == t.Keys
    ensures forall k | k in t :: r[k] == if k == productId then t[k].(inventory := inventory) else t[k]
  {
    if productId in t then t[productId := t[productId].(inventory := inventory)] else t
  }

  /**
   * The table after `productStock(productId, quantity)`: the row is read,
   * `inventory - quantity` is written back without any check, and an
   * absent product leaves the table alone.
   */
  function StockDecremented(t: Table, productId: int, quantity: int): (r: Table)
    ensures r.Keys == t.Keys
    ensures productId in t ==> r[productId].inventory == t[productId].inventory - quantity
    ensures productId in t ==> r[productId] == t[productId].(inventory := r[productId].inventory)
    ensures forall k | k in t && k != productId :: r[k] == t[k]
  {
    match OneProduct(t, productId)
    case None => t
    case Some(product) => SetInventory(t, productId, product.inventory - quantity)
  }

  /** An absent product: nothing changes (and nothing is raised). */
  lemma DecrementAbsentIsNoOp(t: Table, productId: int, quantity: int)
    requires productId !in t
    ensures StockDecremented(t, productId, quantity) == t
  {
  }

  /** The decrement is unguarded: a quantity above the stock drives it negative. */
  lemma DecrementCanGoNegative(t: Table, productId: int, quantity: int)
    requires productId in t && quantity > t[productId].inventory
    ensures StockDecremented(t, productId, quantity)[productId].inventory < 0
  {
  }

  /** Two successive decrements by `a` then `b` leave `old - a - b`. */
  lemma DecrementTwice(t: Table, productId: int, a: int, b: int)
    ensures StockDecremented(StockDecremented(t, productId, a), productId, b)
         == StockDecremented(t, productId, a + b)
  {
    var once := StockDecremented(t, productId, a);
    var twice := StockDecremented(once, productId, b);
    var joint := StockDecremented(t, productId, a + b);
    assert forall k | k in twice :: twice[k] == joint[k];
  }

  /** The two tables the code writes to. */
  class Database {
    var products: Table
    var orders: seq<OrderRow>

    constructor (products: Table)
      ensures this.products == products && orders == []
    {
      this.products := products;
      orders := [];
    }

    /** `productStock`: read the row, then write `inventory - quantity` back. */
    method ProductStock(productId: int, quantity: int)
      modifies this
      ensures products == StockDecremented(old(products), productId, quantity)
      ensures orders == old(orders)
    {
      var row := OneProduct(products, productId);
      if row.Some? {
        var newProductQuantity := row.value.inventory - quantity;
        products := SetInventory(products, productId, newProductQuantity);
      }
    }

    /** `newOrder`: insert one ledger row holding the five values verbatim. */
    method NewOrder(sessionId: string, productId: int, price: int, quantity: int, totalPrice: int)
      modifies this
      ensures orders == old(orders) + [OrderRow(sessionId, productId, price, quantity, totalPrice)]
      ensures |orders| == |old(orders)| + 1 && orders[..|old(orders)|] == old(orders)
      ensures products == old(products)
    {
      orders := orders + [OrderRow(sessionId, productId, price, quantity, totalPrice)];
    }
  }
}
