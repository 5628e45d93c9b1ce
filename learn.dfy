/**
 * components/LearnMode.tsx: the searchable country list and the detail modal.
 * `toLowerCase` is modelled on ASCII letters only: `A`..`Z` map to `a`..`z`
 * and every other character is left as it is.
 */
module Learn {
  import opened Wrappers
  import opened Seqs
  import opened Countries

  function LowerChar(ch: char): char {
    if 'A' <= ch <= 'Z' then (ch as int + 32) as char else ch
  }

  function UpperChar(ch: char): char {
    if 'a' <= ch <= 'z' then (ch as int - 32) as char else ch
  }

  function Lower(s: string): string {
    seq(|s|, i requires 0 <= i < |s| => LowerChar(s[i]))
  }

  function Upper(s: string): string {
    seq(|s|, i requires 0 <= i < |s| => UpperChar(s[i]))
  }

  /** `needle` occurs in `hay` starting at position `k`. */
  predicate OccursAt(hay: string, needle: string, k: nat) {
    k + |needle| <= |hay| && hay[k..k + |needle|] == needle
  }

  /** `hay.includes(needle)`: `needle` occurs in `hay` as a contiguous block. */
  predicate Includes(hay: string, needle: string) {
    exists k: nat | k <= |hay| :: OccursAt(hay, needle, k)
  }

  /**
   * The search test: the lower-cased common name or the lower-cased first
   * capital includes the lower-cased term. A country without a first capital
   * yields `undefined` on the right, which is falsy.
   */
  predicate Matches(c: Country, term: string) {
    Includes(Lower(c.commonName), Lower(term))
    || (FirstCapital(c).Some? && Includes(Lower(FirstCapital(c).value), Lower(term)))
  }

  /** `filteredCountries`: exactly the matching countries, in list order. */
  function FilteredCountries(countries: seq<Country>, term: string): (r: seq<Country>)
    ensures forall i :: 0 <= i < |r| ==> r[i] in countries && Matches(r[i], term)
    ensures forall i :: 0 <= i < |countries| && Matches(countries[i], term) ==> countries[i] in r
    ensures IsSubsequence(r, countries)
    ensures forall i :: 0 <= i < |countries| ==>
      multiset(r)[countries[i]] == if Matches(countries[i], term) then multiset(countries)[countries[i]] else 0
  {
    var matching := c => Matches(c, term);
    FilterCount(countries, matching);
    Filter(countries, matching)
  }

  lemma IncludesEmpty(hay: string)
    ensures Includes(hay, "")
  {
    assert OccursAt(hay, "", 0);
  }

  /** An empty search box shows every country. */
  lemma EmptyTermShowsAll(countries: seq<Country>)
    ensures FilteredCountries(countries, "") == countries
  {
    forall i | 0 <= i < |countries| ensures Matches(countries[i], "") {
      IncludesEmpty(Lower(countries[i].commonName));
      assert Lower("") == "";
    }
  }

  /** Terms that lower-case alike give the same list. */
  lemma CaseOfTermIrrelevant(countries: seq<Country>, s: string, t: string)
    requires Lower(s) == Lower(t)
    ensures FilteredCountries(countries, s) == FilteredCountries(countries, t)
  {
    FilterCongruent(countries, c => Matches(c, s), c => Matches(c, t));
  }

  lemma LowerOfUpper(t: string)
    ensures Lower(Upper(t)) == Lower(t)
  {
  }

  lemma LowerIdempotent(t: string)
    ensures Lower(Lower(t)) == Lower(t)
  {
  }

  /** Typing the term in capitals, or in lower case, changes nothing. */
  lemma SearchIsCaseInsensitive(countries: seq<Country>, t: string)
    ensures FilteredCountries(countries, Upper(t)) == FilteredCountries(countries, t)
    ensures FilteredCountries(countries, Lower(t)) == FilteredCountries(countries, t)
  {
    LowerOfUpper(t);
    LowerIdempotent(t);
    CaseOfTermIrrelevant(countries, Upper(t), t);
    CaseOfTermIrrelevant(countries, Lower(t), t);
  }

  /** A country without a first capital can only match by its name. */
  lemma NoCapitalMatchesByName(c: Country, term: string)
    requires c.capital.None? || c.capital == Some([])
    ensures Matches(c, term) <==> Includes(Lower(c.commonName), Lower(term))
  {
  }

  lemma LowerSlice(s: string, i: nat, j: nat)
    requires i <= j <= |s|
    ensures Lower(s)[i..j] == Lower(s[i..j])
  {
  }

  lemma IncludesLower(t: string, s: string)
    requires Includes(t, s)
    ensures Includes(Lower(t), Lower(s))
  {
    var k: nat :| k <= |t| && OccursAt(t, s, k);
    assert k + |s| <= |t| && t[k..k + |s|] == s;
    LowerSlice(t, k, k + |s|);
    assert OccursAt(Lower(t), Lower(s), k);
  }

  lemma IncludesTransitive(a: string, b: string, c: string)
    requires Includes(a, b) && Includes(b, c)
    ensures Includes(a, c)
  {
    var k: nat :| k <= |a| && OccursAt(a, b, k);
    var m: nat :| m <= |b| && OccursAt(b, c, m);
    assert k + |b| <= |a| && a[k..k + |b|] == b;
    assert m + |c| <= |b| && b[m..m + |c|] == c;
    forall j | 0 <= j < |c| ensures a[k + m..k + m + |c|][j] == c[j] {
      assert c[j] == b[m + j] == a[k + m + j];
    }
    assert a[k + m..k + m + |c|] == c;
    assert OccursAt(a, c, k + m);
  }

  /**
   * Refining the term (typing more characters, or any term that contains the
   * old one) can only remove countries from the list, never add or reorder.
   */
  lemma NarrowerTermNarrowsList(countries: seq<Country>, s: string, t: string)
    requires Includes(t, s)
    ensures IsSubsequence(FilteredCountries(countries, t), FilteredCountries(countries, s))
  {
    IncludesLower(t, s);
    forall i | 0 <= i < |countries| && Matches(countries[i], t) ensures Matches(countries[i], s) {
      var c := countries[i];
      if Includes(Lower(c.commonName), Lower(t)) {
        IncludesTransitive(Lower(c.commonName), Lower(t), Lower(s));
      } else {
        IncludesTransitive(Lower(FirstCapital(c).value), Lower(t), Lower(s));
      }
    }
    FilterMonotone(countries, c => Matches(c, t), c => Matches(c, s));
  }

  class LearnMode {
    const countries: seq<Country>
    var searchTerm: string
    var selectedCountry: Option<Country>
    var fact: Option<string>
    var loadingFact: bool

    constructor (countries: seq<Country>)
      ensures this.countries == countries
      ensures searchTerm == "" && selectedCountry.None? && fact.None? && !loadingFact
    {
      this.countries := countries;
      searchTerm := "";
      selectedCountry := None;
      fact := None;
      loadingFact := false;
    }

    /** The list the grid renders. */
    function Visible(): seq<Country>
      reads this
    {
      FilteredCountries(countries, searchTerm)
    }

    /** The search box's `onChange`. */
    method SetSearchTerm(term: string)
      modifies this`searchTerm
      ensures searchTerm == term
      ensures Visible() == FilteredCountries(countries, term)
    {
      searchTerm := term;
    }

    /**
     * `handleCountryClick` up to its `await`: the modal opens on `country` with
     * the fact cleared and the loading indicator on.
     */
    method HandleCountryClick(country: Country)
      modifies this`selectedCountry, this`fact, this`loadingFact
      ensures selectedCountry == Some(country) && fact.None? && loadingFact
      ensures searchTerm == old(searchTerm)
    {
      selectedCountry := Some(country);
      fact := None;
      loadingFact := true;
    }

    /** The rest of `handleCountryClick`, once the fact provider has answered. */
    method ReceiveFact(newFact: string)
      modifies this`fact, this`loadingFact
      ensures fact == Some(newFact) && !loadingFact
      ensures selectedCountry == old(selectedCountry)
    {
      fact := Some(newFact);
      loadingFact := false;
    }

    /** The backdrop and the close button: only the selection is cleared. */
    method CloseDetails()
      modifies this`selectedCountry
      ensures selectedCountry.None?
      ensures fact == old(fact) && loadingFact == old(loadingFact)
    {
      selectedCountry := None;
    }
  }
}
