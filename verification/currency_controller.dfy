/** The currency service: a fixed demo rate table and the endpoints that
    apply it (`/api/currency/convert/view`, `/api/currency/convert`,
    `/api/currency/select`). Amounts are exact reals. */
module CurrencyController {
  import opened Ascii

  /** An amount paired with a currency code; the JSON body of a conversion. */
  datatype MoneyDto = MoneyDto(amount: real, currency: string)

  /** The four pairs with a rate of their own, keyed by upper-cased codes. */
  const DemoRates: map<(string, string), real> :=
    map[("USD", "EUR") := 0.9,
        ("EUR", "USD") := 1.1,
        ("USD", "RUB") := 90.0,
        ("RUB", "USD") := 0.011]

  /** The multiplier from `from` to `to`: 1 for the same code in any letter
      case, the fixed rate for the four known pairs, and 1 for anything else. */
  function DemoRate(from: string, to: string): (rate: real)
    ensures rate > 0.0
    ensures EqualsIgnoreCase(from, to) ==> rate == 1.0
    ensures rate in {0.9, 1.1, 90.0, 0.011, 1.0}
  {
    if EqualsIgnoreCase(from, to) then 1.0
    else
      var f, t := Upper(from), Upper(to);
      if f == "USD" && t == "EUR" then 0.9
      else if f == "EUR" && t == "USD" then 1.1
      else if f == "USD" && t == "RUB" then 90.0
      else if f == "RUB" && t == "USD" then 0.011
      else 1.0
  }

  /** The rate is the table entry of the upper-cased pair, or 1 when the
      pair is not in the table; the same-code shortcut never disagrees. */
  lemma {:induction false} DemoRateIsTableLookup(from: string, to: string)
    ensures DemoRate(from, to) ==
            (var key := (Upper(from), Upper(to));
             if key in DemoRates then DemoRates[key] else 1.0)
  {
    EqualsIgnoreCaseIffSameUpper(from, to);
    var key := (Upper(from), Upper(to));
    if EqualsIgnoreCase(from, to) {
      assert key.0 == key.1;
      assert key !in DemoRates;
    } else {
      TableAsChain(key.0, key.1);
    }
  }

  /** The table read as the chain of comparisons the rate function makes. */
  lemma {:induction false} TableAsChain(f: string, t: string)
    ensures (if (f, t) in DemoRates then DemoRates[(f, t)] else 1.0) ==
            if f == "USD" && t == "EUR" then 0.9
            else if f == "EUR" && t == "USD" then 1.1
            else if f == "USD" && t == "RUB" then 90.0
            else if f == "RUB" && t == "USD" then 0.011
            else 1.0
  {
  }

  /** A rate other than 1 comes only from a listed pair of distinct codes;
      unknown pairs are not an error, they convert one to one. */
  lemma {:induction false} DemoRateIsOneUnlessListed(from: string, to: string)
    ensures DemoRate(from, to) != 1.0 <==> (Upper(from), Upper(to)) in DemoRates
  {
    DemoRateIsTableLookup(from, to);
  }

  /** The four listed rates, whatever the letter case on either side. */
  lemma {:induction false} DemoRateKnownPairs(from: string, to: string)
    ensures Upper(from) == "USD" && Upper(to) == "EUR" ==> DemoRate(from, to) == 0.9
    ensures Upper(from) == "EUR" && Upper(to) == "USD" ==> DemoRate(from, to) == 1.1
    ensures Upper(from) == "USD" && Upper(to) == "RUB" ==> DemoRate(from, to) == 90.0
    ensures Upper(from) == "RUB" && Upper(to) == "USD" ==> DemoRate(from, to) == 0.011
  {
    DemoRateIsTableLookup(from, to);
  }

  /** `/api/currency/convert/view` */
  function ViewInCurrency(amount: real, from: string, to: string): (r: MoneyDto)
    ensures IsUpper(r.currency) && EqualsIgnoreCase(r.currency, to)
    ensures EqualsIgnoreCase(from, to) ==> r.amount == amount
    ensures r.amount == amount * DemoRate(from, to)
  {
    assert EqualsIgnoreCase(from, to) ==> DemoRate(from, to) == 1.0;
    MoneyDto(amount * DemoRate(from, to), Upper(to))
  }

  /** `/api/currency/convert`: the same computation as the view endpoint. */
  function Convert(amount: real, from: string, to: string): (r: MoneyDto)
    ensures IsUpper(r.currency) && EqualsIgnoreCase(r.currency, to)
    ensures EqualsIgnoreCase(from, to) ==> r.amount == amount
    ensures r.amount == amount * DemoRate(from, to)
  {
    assert EqualsIgnoreCase(from, to) ==> DemoRate(from, to) == 1.0;
    MoneyDto(amount * DemoRate(from, to), Upper(to))
  }

  /** Both conversion endpoints give the same answer to the same request,
      and the currency they report is `to.uppercase()` on every branch. */
  lemma {:induction false} ConvertAgreesWithView(amount: real, from: string, to: string)
    ensures Convert(amount, from, to) == ViewInCurrency(amount, from, to)
    ensures Convert(amount, from, to).currency == Upper(to)
  {
    UpperCharacterization(to, Convert(amount, from, to).currency);
  }

  const SelectedCurrencyKey := "selectedCurrency"

  /** `/api/currency/select`: a one-entry map holding the upper-cased choice. */
  function SelectCurrency(desired: string): (r: map<string, string>)
    ensures r.Keys == {SelectedCurrencyKey}
    ensures IsUpper(r[SelectedCurrencyKey])
    ensures EqualsIgnoreCase(r[SelectedCurrencyKey], desired)
  {
    map[SelectedCurrencyKey := Upper(desired)]
  }

  /** Selecting an already selected currency changes nothing. */
  lemma {:induction false} SelectCurrencyIdempotent(desired: string)
    ensures SelectCurrency(SelectCurrency(desired)[SelectedCurrencyKey]) == SelectCurrency(desired)
  {
    UpperIdempotent(desired);
  }
}
