/**
 * The country record of types.ts, reduced to the fields the core reads:
 * `name.common`, `capital` and `currencies`. Both of the latter may be absent
 * in the fetched JSON, which JavaScript distinguishes from an empty value, so
 * both are optional here.
 */
module Countries {
  import opened Wrappers

  datatype CurrencyInfo = CurrencyInfo(name: string, symbol: string)

  /**
   * `commonName` is `name.common`; `capital` is the list of capitals; and
   * `currencies` lists the entries of the code-to-currency object in the order
   * `Object.values` returns them.
   */
  datatype Country = Country(
    commonName: string,
    capital: Option<seq<string>>,
    currencies: Option<seq<(string, CurrencyInfo)>>)

  /** `c.capital?.[0]`: `None` when the list is absent or empty. */
  function FirstCapital(c: Country): Option<string> {
    match c.capital
    case Some(cs) => if |cs| > 0 then Some(cs[0]) else None
    case None => None
  }

  /** `Object.values(c.currencies)[0]` for a country whose `currencies` object is present. */
  function FirstCurrency(c: Country): Option<CurrencyInfo>
    requires c.currencies.Some?
  {
    if |c.currencies.value| > 0 then Some(c.currencies.value[0].1) else None
  }
}
