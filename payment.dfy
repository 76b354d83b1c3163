/**
 * `payment.verify` (src/controllers/payment.js): both card checks are
 * evaluated, and only when both pass is `createOrder` called. Its errors
 * are dropped and no reply is sent.
 */
module Payment {
  import opened Wrappers
  import opened Store
  import opened Shopping
  import opened Checkout
  import opened CardNumber
  import opened CardExpiration

  /**
   * `verify`. The ghost result records whether the checkout ran; the
   * method itself returns nothing.
   */
  method Verify(db: Database, session: Session, cardNumber: string, expYear: int, expMonth: int,
                currentYear: int, currentMonth: int)
    returns (ghost orderCreated: bool)
    modifies db
    ensures orderCreated
      == (CheckCardNumber(cardNumber) && CheckCardExpirationDate(expYear, expMonth, currentYear, currentMonth))
    ensures unchanged(session)
    ensures !orderCreated || session.shoppingCart.None? ==> unchanged(db)
    ensures orderCreated && session.shoppingCart.Some? ==>
      var r := Run(State(old(db.products), old(db.orders), []), session.sessionId, session.shoppingCart.value);
      db.products == r.products && db.orders == r.orders
  {
    var isValidCreditCardNumber := CheckCardNumber(cardNumber);
    var isValidCreditCardExpirationDate := CheckCardExpirationDate(expYear, expMonth, currentYear, currentMonth);
    orderCreated := isValidCreditCardNumber && isValidCreditCardExpirationDate;
    if isValidCreditCardNumber && isValidCreditCardExpirationDate {
      var _ := CreateOrder(db, session);
    }
  }
}
