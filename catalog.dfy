/**
 * The product table and the three read-only queries on it
 * (dataMapers/fetchInDataBase.js).  A query is a function of the table,
 * so none of them can change it.
 */
module Catalog {
  import opened Wrappers

  /** One row of the `product` table; prices are whole cents. */
  datatype Product = Product(id: int, name: string, price: int, image: string, inventory: int)

  /** The `product` table, keyed by its primary key `id`. */
  type Table = t: map<int, Product> | forall k | k in t :: t[k].id == k
    witness map[]

  /** `SELECT * FROM product`: the set of all rows (the query has no ORDER BY). */
  function AllProducts(t: Table): (rows: set<Product>)
    ensures forall p :: p in rows <==> p.id in t && t[p.id] == p
  {
    t.Values
  }

  /** The rows `SELECT * FROM product WHERE product.id = $1` returns. */
  ghost function RowsWithId(t: Table, productId: int): set<Product> {
    set p | p in t.Values && p.id == productId
  }

  /**
   * The rows `SELECT * FROM product WHERE product.id = $1 AND
   * product.inventory >= $2` returns.
   */
  ghost function RowsInStock(t: Table, productId: int, quantity: int): set<Product> {
    set p | p in t.Values && p.id == productId && p.inventory >= quantity
  }

  /** `oneProduct`: `rows[0]` of the query by id, `undefined` when there is none. */
  function OneProduct(t: Table, productId: int): Option<Product> {
    if productId in t then Some(t[productId]) else None
  }

  /** `verifyProductStock`: whether the stock query returned any row. */
  function VerifyProductStock(t: Table, productId: int, quantity: int): bool {
    productId in t && t[productId].inventory >= quantity
  }

  /**
   * `oneProduct` answers the query by id: its one row when there is one
   * (the id is the primary key), nothing otherwise.
   */
  lemma OneProductAnswersQuery(t: Table, productId: int)
    ensures OneProduct(t, productId).None? <==> RowsWithId(t, productId) == {}
    ensures OneProduct(t, productId).Some? ==>
      RowsWithId(t, productId) == {OneProduct(t, productId).value}
      && OneProduct(t, productId).value.id == productId
  {
    if productId in t {
      var p := t[productId];
      assert p in RowsWithId(t, productId);
      forall q | q in RowsWithId(t, productId) ensures q == p {
        var k :| k in t && t[k] == q;
      }
    } else {
      forall q | q in t.Values ensures q.id != productId {
        var k :| k in t && t[k] == q;
      }
    }
  }

  /**
   * `verifyProductStock` is true exactly when the stock query returns a
   * row: the product exists and its inventory is at least the quantity.
   */
  lemma VerifyProductStockAnswersQuery(t: Table, productId: int, quantity: int)
    ensures VerifyProductStock(t, productId, quantity) <==> |RowsInStock(t, productId, quantity)| > 0
  {
    if productId in t && t[productId].inventory >= quantity {
      assert t[productId] in RowsInStock(t, productId, quantity);
    } else {
      forall q | q in t.Values ensures !(q.id == productId && q.inventory >= quantity) {
        var k :| k in t && t[k] == q;
      }
      assert RowsInStock(t, productId, quantity) == {};
    }
  }

  /** A check that passes for some quantity passes for every smaller one. */
  lemma StockCheckMonotone(t: Table, productId: int, q: int, q': int)
    requires VerifyProductStock(t, productId, q) && q' <= q
    ensures VerifyProductStock(t, productId, q')
  {
  }

  /** An unknown id is answered with `false`, whatever the quantity. */
  lemma UnknownProductNotInStock(t: Table, productId: int, quantity: int)
    requires productId !in t
    ensures !VerifyProductStock(t, productId, quantity)
  {
  }
}
