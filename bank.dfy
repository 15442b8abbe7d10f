/**
 * What the bank collaborator delivers: statement entries, decimal amounts,
 * and the statement fetch with its empty-result check.
 */
module Bank {
  import opened Wrappers
  import opened Clock
  import opened Errors

  /** The entry type code of a debit; every other code is treated as a credit. */
  const Debit := "DB"

  /**
   * One statement line. `date == None` is Go's zero `time.Time`, which the
   * bank uses for a pending entry. `amount` is an exact decimal magnitude.
   */
  datatype Entry = Entry(
    date: Option<Instant>,
    description: string,
    payee: string,
    amount: real,
    kind: string)

  /** `decimal.IntPart`: the integer part, truncating toward zero. */
  function IntPart(x: real): (r: int)
    ensures 0.0 <= x ==> r as real <= x < r as real + 1.0
    ensures x < 0.0 ==> r as real - 1.0 < x <= r as real
  {
    if 0.0 <= x then x.Floor else -((-x).Floor)
  }

  /**
   * `getBCATransactions` after the fetch (main.go:232-245): a fetch error is
   * wrapped, and an empty statement is an error carrying the window.
   */
  function GetStatement(now: Instant, fetched: Result<seq<Entry>, Error>): (r: Result<seq<Entry>, Error>)
    ensures r.Success? <==> fetched.Success? && |fetched.value| > 0
    ensures r.Success? ==> r.value == fetched.value
    ensures fetched.Failure? ==> r == Failure(Wrapped("failed to get bca transactions. try -r", fetched.error))
    ensures fetched.Success? && fetched.value == [] ==>
              r == Failure(NoTransactions(Window(Instant(now.day - 27, now.clock), now)))
  {
    match fetched
    case Failure(e) => Failure(Wrapped("failed to get bca transactions. try -r", e))
    case Success(trxs) =>
      if |trxs| == 0 then Failure(NoTransactions(StatementWindow(now))) else Success(trxs)
  }
}
