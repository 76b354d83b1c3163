/**
 * `createOrder` (middlewares/createOrders.js): for every cart line, check
 * the stock; on success insert a ledger row and then decrement the
 * inventory, otherwise record an error. The lines are processed one after
 * the other, in cart order.
 */
module Checkout {
  import opened Wrappers
  import opened Catalog
  import opened Store
  import opened Shopping

  /** What the loop carries: both tables and the errors collected so far. */
  datatype State = State(products: Table, orders: seq<OrderRow>, errors: seq<OrderError>)

  const OrderFailed := "Erreur lors de la création de la commande"

  /** An `{ error }` object pushed by `createOrder`; `Text` is its string. */
  datatype OrderError = OutOfStock(articleName: string) {
    function Text(): string {
      "L'article " + articleName + " n'a pu être ajouté à la commande car le stock est insuffisant"
    }
  }

  /** The ledger row written for a committed line: its values, verbatim. */
  function RowOf(sessionId: string, a: Article): OrderRow {
    OrderRow(sessionId, a.id, a.price, a.quantity, a.totalPrice)
  }

  /**
   * One cart line. A passing line appends its row and only then has its
   * product decremented; a failing line only adds an error.
   */
  function Step(s: State, sessionId: string, a: Article): (r: State)
    ensures r.products.Keys == s.products.Keys
    ensures VerifyProductStock(s.products, a.id, a.quantity) ==>
      && r.orders == s.orders + [RowOf(sessionId, a)]
      && r.errors == s.errors
      && r.products[a.id] == s.products[a.id].(inventory := s.products[a.id].inventory - a.quantity)
      && r.products[a.id].inventory >= 0
      && forall k | k in s.products && k != a.id :: r.products[k] == s.products[k]
    ensures !VerifyProductStock(s.products, a.id, a.quantity) ==>
      r.orders == s.orders && r.products == s.products && r.errors == s.errors + [OutOfStock(a.name)]
  {
    if VerifyProductStock(s.products, a.id, a.quantity) then
      var logged := s.(orders := s.orders + [RowOf(sessionId, a)]);
      logged.(products := StockDecremented(logged.products, a.id, a.quantity))
    else
      s.(errors := s.errors + [OutOfStock(a.name)])
  }

  /** The state after the lines of `lines`, taken in order, starting from `s`. */
  function Run(s: State, sessionId: string, lines: seq<Article>): (r: State)
    ensures r.products.Keys == s.products.Keys
  {
    if lines == [] then s
    else Step(Run(s, sessionId, lines[..|lines| - 1]), sessionId, lines[|lines| - 1])
  }

  lemma SplitLast(lines: seq<Article>)
    requires lines != []
    ensures lines == lines[..|lines| - 1] + [lines[|lines| - 1]]
  {
  }

  lemma RunSnoc(s: State, sessionId: string, lines: seq<Article>, a: Article)
    ensures Run(s, sessionId, lines + [a]) == Step(Run(s, sessionId, lines), sessionId, a)
  {
    assert (lines + [a])[..|lines|] == lines;
  }

  /** Whether the last line of `lines` passes its check when its turn comes. */
  predicate LastPasses(s: State, sessionId: string, lines: seq<Article>)
    requires lines != []
  {
    var a := lines[|lines| - 1];
    VerifyProductStock(Run(s, sessionId, lines[..|lines| - 1]).products, a.id, a.quantity)
  }

  /** The lines that are committed, in cart order. */
  function Committed(s: State, sessionId: string, lines: seq<Article>): seq<Article>
  {
    if lines == [] then []
    else
      Committed(s, sessionId, lines[..|lines| - 1])
        + (if LastPasses(s, sessionId, lines) then [lines[|lines| - 1]] else [])
  }

  /** The lines that are rejected for lack of stock, in cart order. */
  function Rejected(s: State, sessionId: string, lines: seq<Article>): seq<Article>
  {
    if lines == [] then []
    else
      Rejected(s, sessionId, lines[..|lines| - 1])
        + (if LastPasses(s, sessionId, lines) then [] else [lines[|lines| - 1]])
  }

  function Rows(sessionId: string, lines: seq<Article>): seq<OrderRow> {
    if lines == [] then [] else Rows(sessionId, lines[..|lines| - 1]) + [RowOf(sessionId, lines[|lines| - 1])]
  }

  function Messages(lines: seq<Article>): seq<OrderError> {
    if lines == [] then [] else Messages(lines[..|lines| - 1]) + [OutOfStock(lines[|lines| - 1].name)]
  }

  lemma RowsSnoc(sessionId: string, lines: seq<Article>, a: Article)
    ensures Rows(sessionId, lines + [a]) == Rows(sessionId, lines) + [RowOf(sessionId, a)]
  {
    assert (lines + [a])[..|lines|] == lines;
  }

  lemma MessagesSnoc(lines: seq<Article>, a: Article)
    ensures Messages(lines + [a]) == Messages(lines) + [OutOfStock(a.name)]
  {
    assert (lines + [a])[..|lines|] == lines;
  }

  /** Every line is either committed or rejected. */
  lemma {:induction false} RunPartition(s: State, sessionId: string, lines: seq<Article>)
    ensures multiset(Committed(s, sessionId, lines)) + multiset(Rejected(s, sessionId, lines)) == multiset(lines)
  {
    if lines != [] {
      var init, a := lines[..|lines| - 1], lines[|lines| - 1];
      RunPartition(s, sessionId, init);
      SplitLast(lines);
      assert multiset(lines) == multiset(init) + multiset{a};
    }
  }

  /**
   * Exact ledger bookkeeping: the ledger gains one row per committed line,
   * in cart order, and nothing else.
   */
  lemma {:induction false} RunOrders(s: State, sessionId: string, lines: seq<Article>)
    ensures Run(s, sessionId, lines).orders == s.orders + Rows(sessionId, Committed(s, sessionId, lines))
  {
    if lines != [] {
      var init, a := lines[..|lines| - 1], lines[|lines| - 1];
      RunOrders(s, sessionId, init);
      var before, committed := Run(s, sessionId, init), Committed(s, sessionId, init);
      assert Run(s, sessionId, lines) == Step(before, sessionId, a);
      if LastPasses(s, sessionId, lines) {
        RowsSnoc(sessionId, committed, a);
        calc {
          Run(s, sessionId, lines).orders;
          before.orders + [RowOf(sessionId, a)];
          s.orders + Rows(sessionId, committed) + [RowOf(sessionId, a)];
          s.orders + Rows(sessionId, committed + [a]);
        }
      } else {
        assert Committed(s, sessionId, lines) == committed;
      }
    }
  }

  /** The checkout returns one error per rejected line, in cart order. */
  lemma {:induction false} RunErrors(s: State, sessionId: string, lines: seq<Article>)
    ensures Run(s, sessionId, lines).errors == s.errors + Messages(Rejected(s, sessionId, lines))
  {
    if lines != [] {
      var init, a := lines[..|lines| - 1], lines[|lines| - 1];
      RunErrors(s, sessionId, init);
      var before, rejected := Run(s, sessionId, init), Rejected(s, sessionId, init);
      assert Run(s, sessionId, lines) == Step(before, sessionId, a);
      if LastPasses(s, sessionId, lines) {
        assert Rejected(s, sessionId, lines) == rejected;
      } else {
        MessagesSnoc(rejected, a);
        calc {
          Run(s, sessionId, lines).errors;
          before.errors + [OutOfStock(a.name)];
          s.errors + Messages(rejected) + [OutOfStock(a.name)];
          s.errors + Messages(rejected + [a]);
        }
      }
    }
  }

  /** Units of product `p` recorded in ledger rows. */
  function Sold(rows: seq<OrderRow>, p: int): int {
    if rows == [] then 0
    else Sold(rows[..|rows| - 1], p) + (if rows[|rows| - 1].productId == p then rows[|rows| - 1].quantity else 0)
  }

  lemma SoldSnoc(rows: seq<OrderRow>, row: OrderRow, p: int)
    ensures Sold(rows + [row], p) == Sold(rows, p) + (if row.productId == p then row.quantity else 0)
  {
    assert (rows + [row])[..|rows|] == rows;
  }

  /** One line moves units from the inventory to the ledger, or moves nothing. */
  lemma StepConservesStock(s: State, sessionId: string, a: Article, p: int)
    requires p in s.products
    ensures Step(s, sessionId, a).products[p].inventory + Sold(Step(s, sessionId, a).orders, p)
         == s.products[p].inventory + Sold(s.orders, p)
  {
    if VerifyProductStock(s.products, a.id, a.quantity) {
      SoldSnoc(s.orders, RowOf(sessionId, a), p);
    }
  }

  /**
   * Inventory and ledger stay consistent: for every product, the inventory
   * plus the units the ledger records for it is the same before and after,
   * so each product loses exactly the quantities of its committed lines.
   */
  lemma {:induction false} RunConservesStock(s: State, sessionId: string, lines: seq<Article>, p: int)
    requires p in s.products
    ensures Run(s, sessionId, lines).products[p].inventory + Sold(Run(s, sessionId, lines).orders, p)
         == s.products[p].inventory + Sold(s.orders, p)
  {
    if lines != [] {
      var init := lines[..|lines| - 1];
      RunConservesStock(s, sessionId, init, p);
      StepConservesStock(Run(s, sessionId, init), sessionId, lines[|lines| - 1], p);
    }
  }

  /** Units of product `p` asked for by the lines of `lines`. */
  function Demand(lines: seq<Article>, p: int): int {
    if lines == [] then 0
    else Demand(lines[..|lines| - 1], p) + (if lines[|lines| - 1].id == p then lines[|lines| - 1].quantity else 0)
  }

  lemma {:induction false} SoldAppend(xs: seq<OrderRow>, ys: seq<OrderRow>, p: int)
    ensures Sold(xs + ys, p) == Sold(xs, p) + Sold(ys, p)
  {
    if ys == [] {
      assert xs + ys == xs;
    } else {
      var init, row := ys[..|ys| - 1], ys[|ys| - 1];
      SoldAppend(xs, init, p);
      assert xs + ys == (xs + init) + [row];
      SoldSnoc(xs + init, row, p);
    }
  }

  /** The rows written for some lines record exactly the units those lines ask for. */
  lemma {:induction false} SoldRows(sessionId: string, lines: seq<Article>, p: int)
    ensures Sold(Rows(sessionId, lines), p) == Demand(lines, p)
  {
    if lines != [] {
      var init := lines[..|lines| - 1];
      SoldRows(sessionId, init, p);
      SoldSnoc(Rows(sessionId, init), RowOf(sessionId, lines[|lines| - 1]), p);
    }
  }

  /**
   * After the checkout, each product's inventory is its initial inventory
   * minus the quantities of the committed lines for that product.
   */
  lemma RunStock(s: State, sessionId: string, lines: seq<Article>, p: int)
    requires p in s.products
    ensures Run(s, sessionId, lines).products[p].inventory
         == s.products[p].inventory - Demand(Committed(s, sessionId, lines), p)
  {
    var committed := Committed(s, sessionId, lines);
    RunConservesStock(s, sessionId, lines, p);
    RunOrders(s, sessionId, lines);
    SoldAppend(s.orders, Rows(sessionId, committed), p);
    SoldRows(sessionId, committed, p);
  }

  lemma {:induction false} RowsLength(sessionId: string, lines: seq<Article>)
    ensures |Rows(sessionId, lines)| == |lines|
  {
    if lines != [] {
      RowsLength(sessionId, lines[..|lines| - 1]);
    }
  }

  lemma {:induction false} MessagesLength(lines: seq<Article>)
    ensures |Messages(lines)| == |lines|
  {
    if lines != [] {
      MessagesLength(lines[..|lines| - 1]);
    }
  }

  /**
   * A failing line does not stop the others: the ledger grows by the number
   * of committed lines and there is one error per rejected line.
   */
  lemma RunCounts(s: State, sessionId: string, lines: seq<Article>)
    ensures |Run(s, sessionId, lines).orders| == |s.orders| + |Committed(s, sessionId, lines)|
    ensures |Run(s, sessionId, lines).errors| == |s.errors| + |Rejected(s, sessionId, lines)|
    ensures |Committed(s, sessionId, lines)| + |Rejected(s, sessionId, lines)| == |lines|
  {
    RunOrders(s, sessionId, lines);
    RunErrors(s, sessionId, lines);
    RowsLength(sessionId, Committed(s, sessionId, lines));
    MessagesLength(Rejected(s, sessionId, lines));
    RunPartition(s, sessionId, lines);
    assert |multiset(lines)| == |lines|;
  }

  /** Checking before decrementing keeps an inventory that starts non-negative non-negative. */
  lemma {:induction false} RunKeepsStockNonNegative(s: State, sessionId: string, lines: seq<Article>, p: int)
    requires p in s.products && s.products[p].inventory >= 0
    ensures Run(s, sessionId, lines).products[p].inventory >= 0
  {
    if lines != [] {
      RunKeepsStockNonNegative(s, sessionId, lines[..|lines| - 1], p);
    }
  }

  /** A product that no line names is left exactly as it was. */
  lemma {:induction false} RunLeavesOthers(s: State, sessionId: string, lines: seq<Article>, p: int)
    requires p in s.products
    requires forall i | 0 <= i < |lines| :: lines[i].id != p
    ensures Run(s, sessionId, lines).products[p] == s.products[p]
  {
    if lines != [] {
      RunLeavesOthers(s, sessionId, lines[..|lines| - 1], p);
    }
  }

  /** With one line per product, the last line meets the inventory as it was at the start. */
  lemma LastPassesOnInitialStock(s: State, sessionId: string, lines: seq<Article>)
    requires lines != [] && UniqueIds(lines)
    ensures LastPasses(s, sessionId, lines)
        == VerifyProductStock(s.products, lines[|lines| - 1].id, lines[|lines| - 1].quantity)
  {
    var init, a := lines[..|lines| - 1], lines[|lines| - 1];
    if a.id in s.products {
      forall i | 0 <= i < |init| ensures init[i].id != a.id {
        assert lines[i] == init[i];
      }
      RunLeavesOthers(s, sessionId, init, a.id);
    }
  }

  /**
   * With the cart invariant (one line per product), every line is checked
   * against the inventory as it was before the checkout: the committed
   * lines are exactly those `getCart` keeps, and there is one error per
   * line it drops.
   */
  lemma {:induction false} UniqueCartChecksInitialStock(s: State, sessionId: string, lines: seq<Article>)
    requires UniqueIds(lines)
    ensures Committed(s, sessionId, lines) == Revalidate(s.products, lines).shoppingCart
    ensures |Rejected(s, sessionId, lines)| == |Revalidate(s.products, lines).errors|
  {
    if lines != [] {
      var init, a := lines[..|lines| - 1], lines[|lines| - 1];
      SplitLast(lines);
      assert UniqueIds(init) by {
        forall i, j | 0 <= i < j < |init| ensures init[i].id != init[j].id {
          assert init[i] == lines[i] && init[j] == lines[j];
        }
      }
      UniqueCartChecksInitialStock(s, sessionId, init);
      LastPassesOnInitialStock(s, sessionId, lines);
      RevalidateAppend(s.products, init, [a]);
      RevalidateOne(s.products, a);
    }
  }

  /**
   * The callback `createOrder` maps over the cart: check the line's stock;
   * if it passes, insert the ledger row and then decrement the product,
   * otherwise push an error.
   */
  method ProcessLine(db: Database, sessionId: string, article: Article, errors: seq<OrderError>)
    returns (errors': seq<OrderError>)
    modifies db
    ensures State(db.products, db.orders, errors') == Step(State(old(db.products), old(db.orders), errors), sessionId, article)
  {
    var isAvailableInStock := VerifyProductStock(db.products, article.id, article.quantity);
    if isAvailableInStock {
      db.NewOrder(sessionId, article.id, article.price, article.quantity, article.totalPrice);
      db.ProductStock(article.id, article.quantity);
      errors' := errors;
    } else {
      errors' := errors + [OutOfStock(article.name)];
    }
  }

  /**
   * `createOrder`. An absent session cart makes `map` throw, which is
   * rethrown as a generic error before anything is written. Otherwise the
   * lines are processed in order and the collected errors are returned;
   * the session is never changed.
   */
  method CreateOrder(db: Database, session: Session) returns (result: Result<seq<OrderError>, string>)
    modifies db
    ensures unchanged(session)
    ensures session.shoppingCart.None? ==> result == Failure(OrderFailed) && unchanged(db)
    ensures session.shoppingCart.Some? ==>
      var r := Run(State(old(db.products), old(db.orders), []), session.sessionId, session.shoppingCart.value);
      result == Success(r.errors) && db.products == r.products && db.orders == r.orders
  {
    if session.shoppingCart.None? {
      return Failure(OrderFailed);
    }
    var shoppingCart := session.shoppingCart.value;
    var sessionId := session.sessionId;
    var errors := [];
    ghost var start := State(db.products, db.orders, []);
    var i := 0;
    while i < |shoppingCart|
      invariant 0 <= i <= |shoppingCart|
      invariant Run(start, sessionId, shoppingCart[..i]) == State(db.products, db.orders, errors)
    {
      errors := ProcessLine(db, sessionId, shoppingCart[i], errors);
      RunSnoc(start, sessionId, shoppingCart[..i], shoppingCart[i]);
      assert shoppingCart[..i + 1] == shoppingCart[..i] + [shoppingCart[i]];
      i := i + 1;
    }
    assert shoppingCart[..i] == shoppingCart;
    return Success(errors);
  }
}
