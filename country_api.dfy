/**
 * services/api.ts: the list handed to the whole app. The GET request and the
 * JSON decoding are not modelled; their outcome arrives as `response`, where
 * `None` stands for a response that was not ok or for any thrown error.
 */
module CountryApi {
  import opened Wrappers
  import opened Seqs
  import opened Countries

  /** The essential-data test: `c.capital && c.capital.length > 0 && c.currencies`. */
  predicate HasEssentialData(c: Country) {
    c.capital.Some? && |c.capital.value| > 0 && c.currencies.Some?
  }

  function FetchCountries(response: Option<seq<Country>>): (r: seq<Country>)
    ensures response.None? ==> r == []
    ensures forall i :: 0 <= i < |r| ==>
      r[i].capital.Some? && |r[i].capital.value| > 0 && r[i].currencies.Some?
    ensures response.Some? ==> IsSubsequence(r, response.value)
    ensures response.Some? ==> forall i :: 0 <= i < |response.value| && HasEssentialData(response.value[i]) ==>
      response.value[i] in r
    ensures response.Some? ==> forall i :: 0 <= i < |response.value| ==>
      (multiset(r)[response.value[i]] == if HasEssentialData(response.value[i]) then multiset(response.value)[response.value[i]] else 0)
  {
    match response
    case None => []
    case Some(data) =>
      FilterCount(data, HasEssentialData);
      Filter(data, HasEssentialData)
  }

  /**
   * The filter only asks whether `currencies` is present: a record whose currency object
   * is present but empty (`{}`) is kept as long as it has a capital.
   */
  lemma EmptyCurrenciesKept(data: seq<Country>, i: nat)
    requires i < |data|
    requires data[i].capital.Some? && |data[i].capital.value| > 0
    requires data[i].currencies == Some([])
    ensures data[i] in FetchCountries(Some(data))
  {
    assert HasEssentialData(data[i]);
  }
}
