/**
 * `checkCardExpirationDate` (src/middlewares/checkCardExpirationDate.js).
 * The input string `"A/B"` is split on `/` and its FIRST number is used as
 * the year, its second as the month, although the documented format is
 * `MM/YY`. The current year and month are passed in.
 */
module CardExpiration {

  /** `checkCardExpirationDate`, with `expYear = A` and `expMonth = B` from `"A/B"`. */
  function CheckCardExpirationDate(expYear: int, expMonth: int, currentYear: int, currentMonth: int): (valid: bool)
    ensures valid <==> currentYear < expYear || (expYear == currentYear && currentMonth <= expMonth)
  {
    if expYear < currentYear || (expYear == currentYear && expMonth < currentMonth) then false
    else true
  }

  /** A card expiring this very month is still accepted. */
  lemma CurrentMonthAccepted(currentYear: int, currentMonth: int)
    ensures CheckCardExpirationDate(currentYear, currentMonth, currentYear, currentMonth)
  {
  }

  /** A later year is accepted whatever the month, with no range check on it. */
  lemma LaterYearAnyMonth(expYear: int, expMonth: int, currentYear: int, currentMonth: int)
    requires expYear > currentYear
    ensures CheckCardExpirationDate(expYear, expMonth, currentYear, currentMonth)
  {
  }

  /** Acceptance is monotone in the (year, month) order. */
  lemma AcceptanceMonotone(y: int, m: int, y': int, m': int, currentYear: int, currentMonth: int)
    requires CheckCardExpirationDate(y, m, currentYear, currentMonth)
    requires y < y' || (y == y' && m <= m')
    ensures CheckCardExpirationDate(y', m', currentYear, currentMonth)
  {
  }

  /**
   * The documented example `'12/23'` is read as year 12, month 23, and so is
   * rejected in any year after 12.
   */
  lemma DocumentedExampleRejected(currentYear: int, currentMonth: int)
    requires currentYear > 12
    ensures !CheckCardExpirationDate(12, 23, currentYear, currentMonth)
  {
  }
}
