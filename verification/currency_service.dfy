/** The report service's client of the currency service. The network call,
    its timer and the reactive plumbing are replaced by the reply the call
    ends with; what remains is how that reply becomes the result. */
module CurrencyService {
  import opened Wrappers
  import opened Ascii
  import opened CurrencyController

  /** The request is abandoned after this many milliseconds (five seconds). */
  const TimeoutMillis: nat := 5000

  /** The parameters sent to `/api/currency/convert/view`. */
  datatype ConversionQuery = ConversionQuery(amount: real, from: string, to: string)

  /** How the call to the currency service ended. */
  datatype Reply =
    | Delivered(body: Option<MoneyDto>, elapsedMillis: nat)  // a success status; `None` for an empty body
    | Failed                                                 // transport error, error status, undecodable body

  predicate TimedOut(reply: Reply) {
    reply.Delivered? && reply.elapsedMillis > TimeoutMillis
  }

  /** `convertCurrency(amount, from, to)`: the body on a timely success, and
      on any error or timeout the input amount labelled with `to` exactly as
      given. The caller never sees an error; an empty body in time is the one
      outcome that yields no value. */
  function ConvertCurrency(amount: real, from: string, to: string, reply: Reply): (r: Option<MoneyDto>)
    ensures r.None? <==> reply.Delivered? && !TimedOut(reply) && reply.body.None?
    ensures r.Some? ==> r.value == MoneyDto(amount, to) || (reply.Delivered? && reply.body == r)
    ensures reply.Failed? || TimedOut(reply) ==> r == Some(MoneyDto(amount, to))
    ensures reply.Delivered? && !TimedOut(reply) ==> r == reply.body
  {
    match reply
    case Delivered(body, elapsed) => if elapsed > TimeoutMillis then Some(MoneyDto(amount, to)) else body
    case Failed => Some(MoneyDto(amount, to))
  }

  /** A late answer is handled exactly like a failed call. */
  lemma {:induction false} TimeoutIsAnError(amount: real, from: string, to: string, body: Option<MoneyDto>, elapsed: nat)
    requires elapsed > TimeoutMillis
    ensures ConvertCurrency(amount, from, to, Delivered(body, elapsed)) == ConvertCurrency(amount, from, to, Failed)
  {
  }

  /** The reply of the currency service itself to the query, after `elapsed` ms. */
  function ServedReply(q: ConversionQuery, elapsed: nat): Reply {
    Delivered(Some(ViewInCurrency(q.amount, q.from, q.to)), elapsed)
  }

  /** Against the real currency service answering in time, the client returns
      the demo-rate conversion with the upper-cased target. */
  lemma {:induction false} ConvertCurrencyAgainstService(amount: real, from: string, to: string, elapsed: nat)
    requires elapsed <= TimeoutMillis
    ensures ConvertCurrency(amount, from, to, ServedReply(ConversionQuery(amount, from, to), elapsed))
            == Some(MoneyDto(amount * DemoRate(from, to), Upper(to)))
  {
    UpperCharacterization(to, ViewInCurrency(amount, from, to).currency);
  }

  /** The fallback keeps the caller's spelling of the target: for "eur" the
      service would answer "EUR", the fallback says "eur". */
  lemma {:induction false} FallbackKeepsTargetSpelling()
    ensures ConvertCurrency(100.0, "USD", "eur", Failed) == Some(MoneyDto(100.0, "eur"))
    ensures Upper("eur") == "EUR"
  {
    assert Upper("eur")[0] == 'E';
    assert Upper("eur")[1] == 'U';
    assert Upper("eur")[2] == 'R';
  }
}
