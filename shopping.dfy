/**
 * The session cart and its four operations (controllers/shopping.js).
 * The cart is an array owned by the session; the operations edit it in
 * place (`+=` on a found line, field assignment, `splice`, `push`), and
 * each edit is gated by the stock check of the catalog.
 */
module Shopping {
  import opened Wrappers
  import opened Catalog

  /** One cart line. `totalPrice` is computed once, when the line is created. */
  datatype Article = Article(id: int, name: string, price: int, image: string, quantity: int, totalPrice: int)

  /** A JSON reply: `{message}` with status 200, or `{error}` with the given status. */
  datatype Reply = Message(text: string) | Error(status: int, text: string)

  /** An `{ error }` object of a `getCart` reply; `Text` is its string. */
  datatype CartError = EmptyCart | Unavailable(articleName: string) {
    function Text(): string {
      match this
      case EmptyCart => "Le panier est vide"
      case Unavailable(name) => "L'article " + name + " n'est plus disponible dans la quantité demandée"
    }
  }

  /** The body of a `getCart` reply. */
  datatype CartView = CartView(shoppingCart: seq<Article>, errors: seq<CartError>)

  const Added := "Article ajouté au panier avec succès"
  const NotAdded := "Le produit n'est plus disponible dans la quantité choisie"
  const QuantityUpdated := "La quantité a été modifiée avec succès"
  const InsufficientStock := "La quantité en stock est insuffisante pour le moment"
  const NotInCart := "L'article n'est pas présent dans le panier"
  const Deleted := "L'article a été supprimé du panier avec succès"
  const DeleteFailed := "Erreur lors de la suppression de l'article du panier"

  /** The cart invariant: at most one line per product id. */
  predicate UniqueIds(cart: seq<Article>) {
    forall i, j | 0 <= i < j < |cart| :: cart[i].id != cart[j].id
  }

  /** `findIndex(item => item.id === id)`: the first line with that id, or -1. */
  function FirstIndex(cart: seq<Article>, id: int): (k: int)
    ensures -1 <= k < |cart|
    ensures k >= 0 ==> cart[k].id == id && forall j | 0 <= j < k :: cart[j].id != id
    ensures k == -1 <==> forall j | 0 <= j < |cart| :: cart[j].id != id
  {
    if cart == [] then -1
    else if cart[0].id == id then 0
    else
      var k := FirstIndex(cart[1..], id);
      if k == -1 then -1 else k + 1
  }

  /**
   * The `map`/`filter` of `getCart`: each line is checked for its own
   * quantity; a passing line is kept, a failing one is replaced by an error.
   * The lines are processed in cart order.
   */
  function Revalidate(products: Table, lines: seq<Article>): (view: CartView)
    ensures |view.shoppingCart| + |view.errors| == |lines|
    ensures forall i | 0 <= i < |view.shoppingCart| ::
      VerifyProductStock(products, view.shoppingCart[i].id, view.shoppingCart[i].quantity)
  {
    if lines == [] then CartView([], [])
    else
      var rest := Revalidate(products, lines[1..]);
      if VerifyProductStock(products, lines[0].id, lines[0].quantity) then
        CartView([lines[0]] + rest.shoppingCart, rest.errors)
      else
        CartView(rest.shoppingCart, [Unavailable(lines[0].name)] + rest.errors)
  }

  /**
   * `getCart` keeps exactly the lines whose check passes: each of them
   * keeps all its occurrences, and nothing else is kept.
   */
  lemma {:induction false} RevalidateKeepsAvailable(products: Table, lines: seq<Article>)
    ensures forall a ::
      multiset(Revalidate(products, lines).shoppingCart)[a]
        == if VerifyProductStock(products, a.id, a.quantity) then multiset(lines)[a] else 0
    ensures multiset(Revalidate(products, lines).shoppingCart) <= multiset(lines)
  {
    if lines != [] {
      var head, tail := lines[0], lines[1..];
      RevalidateKeepsAvailable(products, tail);
      var kept := Revalidate(products, tail).shoppingCart;
      assert multiset(lines) == multiset{head} + multiset(tail) by {
        assert lines == [head] + tail;
      }
      if VerifyProductStock(products, head.id, head.quantity) {
        assert multiset(Revalidate(products, lines).shoppingCart) == multiset{head} + multiset(kept);
      } else {
        assert multiset(Revalidate(products, lines).shoppingCart) == multiset(kept);
      }
    }
  }

  /** One line on its own is kept, or turned into exactly one error naming it. */
  lemma RevalidateOne(products: Table, a: Article)
    ensures Revalidate(products, [a]) ==
      if VerifyProductStock(products, a.id, a.quantity) then CartView([a], [])
      else CartView([], [Unavailable(a.name)])
  {
    assert [a][1..] == [];
  }

  /**
   * Revalidation works line by line: on a concatenation it is the
   * concatenation of the two halves' results, so kept lines and errors stay
   * in cart order.
   */
  lemma {:induction false} RevalidateAppend(products: Table, xs: seq<Article>, ys: seq<Article>)
    ensures Revalidate(products, xs + ys).shoppingCart
         == Revalidate(products, xs).shoppingCart + Revalidate(products, ys).shoppingCart
    ensures Revalidate(products, xs + ys).errors
         == Revalidate(products, xs).errors + Revalidate(products, ys).errors
  {
    if xs == [] {
      assert xs + ys == ys;
    } else {
      var a := xs[0];
      assert (xs + ys)[0] == a && (xs + ys)[1..] == xs[1..] + ys;
      RevalidateAppend(products, xs[1..], ys);
      var whole, left, right := Revalidate(products, xs[1..] + ys), Revalidate(products, xs[1..]), Revalidate(products, ys);
      if VerifyProductStock(products, a.id, a.quantity) {
        calc {
          Revalidate(products, xs + ys).shoppingCart;
          [a] + whole.shoppingCart;
          [a] + (left.shoppingCart + right.shoppingCart);
          ([a] + left.shoppingCart) + right.shoppingCart;
        }
      } else {
        calc {
          Revalidate(products, xs + ys).errors;
          [Unavailable(a.name)] + whole.errors;
          [Unavailable(a.name)] + (left.errors + right.errors);
          ([Unavailable(a.name)] + left.errors) + right.errors;
        }
      }
    }
  }

  /** The session: its id and its cart, which is absent until first written. */
  class Session {
    const sessionId: string
    var shoppingCart: Option<seq<Article>>

    constructor (sessionId: string)
      ensures this.sessionId == sessionId && shoppingCart == None
    {
      this.sessionId := sessionId;
      shoppingCart := None;
    }

    /**
     * `getCart`: an absent or empty cart gives an empty cart and the single
     * error "Le panier est vide"; otherwise every line is revalidated. The
     * stored cart is only read: dropped lines stay in the session.
     */
    function GetCart(products: Table): (view: CartView)
      reads this
      ensures shoppingCart.GetOr([]) == [] ==> view == CartView([], [EmptyCart])
      ensures shoppingCart.GetOr([]) != [] ==> view == Revalidate(products, shoppingCart.value)
    {
      var cart := shoppingCart.GetOr([]);
      if |cart| == 0 then CartView([], [EmptyCart])
      else Revalidate(products, cart)
    }

    /**
     * `addToCart`: the cart is created if absent, then the requested quantity
     * alone is checked. On success an existing line for the id has its
     * quantity increased (its `totalPrice` is left as it was); otherwise a new
     * line is appended.
     */
    method AddToCart(products: Table, id: int, name: string, price: int, image: string, quantity: int)
      returns (reply: Reply)
      modifies this
      ensures var before := old(shoppingCart).GetOr([]);
        !VerifyProductStock(products, id, quantity) ==>
          shoppingCart == Some(before) && reply == Message(NotAdded)
      ensures var before := old(shoppingCart).GetOr([]); var k := FirstIndex(before, id);
        VerifyProductStock(products, id, quantity) && k >= 0 ==>
          shoppingCart == Some(before[k := before[k].(quantity := before[k].quantity + quantity)])
          && reply == Message(Added)
      ensures var before := old(shoppingCart).GetOr([]);
        VerifyProductStock(products, id, quantity) && FirstIndex(before, id) == -1 ==>
          shoppingCart == Some(before + [Article(id, name, price, image, quantity, price * quantity)])
          && reply == Message(Added)
      ensures UniqueIds(old(shoppingCart).GetOr([])) ==> UniqueIds(shoppingCart.value)
    {
      var article := Article(id, name, price, image, quantity, price * quantity);
      shoppingCart := Some(shoppingCart.GetOr([]));
      var isAvailableInStock := VerifyProductStock(products, id, quantity);
      if isAvailableInStock {
        var cart := shoppingCart.value;
        var existingArticleIndex := FirstIndex(cart, id);
        if existingArticleIndex != -1 {
          var line := cart[existingArticleIndex];
          shoppingCart := Some(cart[existingArticleIndex := line.(quantity := line.quantity + quantity)]);
        } else {
          shoppingCart := Some(cart + [article]);
        }
        reply := Message(Added);
      } else {
        reply := Message(NotAdded);
      }
    }

    /**
     * `updateArticleQuantity`: the new quantity is checked as an absolute
     * value BEFORE the line is looked up, so a missing id with too little
     * stock is answered 400, not 404. An absent cart is read as `[]` and
     * stays absent.
     */
    method UpdateArticleQuantity(products: Table, id: int, quantity: int) returns (reply: Reply)
      modifies this
      ensures !VerifyProductStock(products, id, quantity) ==>
        shoppingCart == old(shoppingCart) && reply == Error(400, InsufficientStock)
      ensures VerifyProductStock(products, id, quantity) && FirstIndex(old(shoppingCart).GetOr([]), id) == -1 ==>
        shoppingCart == old(shoppingCart) && reply == Error(404, NotInCart)
      ensures var before := old(shoppingCart).GetOr([]); var k := FirstIndex(before, id);
        VerifyProductStock(products, id, quantity) && k >= 0 ==>
          shoppingCart == Some(before[k := before[k].(quantity := quantity)])
          && reply == Message(QuantityUpdated)
      ensures UniqueIds(old(shoppingCart).GetOr([])) ==> UniqueIds(shoppingCart.GetOr([]))
    {
      var cart := shoppingCart.GetOr([]);
      var isAvailableInStock := VerifyProductStock(products, id, quantity);
      if isAvailableInStock {
        var k := FirstIndex(cart, id);
        if k != -1 {
          shoppingCart := Some(cart[k := cart[k].(quantity := quantity)]);
          reply := Message(QuantityUpdated);
        } else {
          reply := Error(404, NotInCart);
        }
      } else {
        reply := Error(400, InsufficientStock);
      }
    }

    /**
     * `deleteArticle`: `splice` out the first line with the id, keeping the
     * others in order. No stock check. An absent cart makes `findIndex`
     * throw, which is answered 500.
     */
    method DeleteArticle(id: int) returns (reply: Reply)
      modifies this
      ensures old(shoppingCart).None? ==>
        shoppingCart == None && reply == Error(500, DeleteFailed)
      ensures old(shoppingCart).Some? && FirstIndex(old(shoppingCart).value, id) == -1 ==>
        shoppingCart == old(shoppingCart) && reply == Error(404, NotInCart)
      ensures var before := old(shoppingCart).GetOr([]); var k := FirstIndex(before, id);
        old(shoppingCart).Some? && k >= 0 ==>
          shoppingCart == Some(before[..k] + before[k + 1..]) && reply == Message(Deleted)
          && |shoppingCart.value| == |before| - 1
      ensures UniqueIds(old(shoppingCart).GetOr([])) ==> UniqueIds(shoppingCart.GetOr([]))
    {
      if shoppingCart.None? {
        reply := Error(500, DeleteFailed);
        return;
      }
      var cart := shoppingCart.value;
      var articleIndex := FirstIndex(cart, id);
      if articleIndex != -1 {
        shoppingCart := Some(cart[..articleIndex] + cart[articleIndex + 1..]);
        reply := Message(Deleted);
      } else {
        reply := Error(404, NotInCart);
      }
    }
  }
}
