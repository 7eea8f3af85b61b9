/** The country choice of the user service (internal/service/user.go): when a
    user is created, the country-prediction API answers a list of countries
    with probabilities and `countryWithMaxProbability` reduces it to one
    country. Probabilities are `float64` in the source and reals here. */
module Service {

  /** One candidate country with the probability the API gives it. */
  datatype CountryProbability = CountryProbability(country: string, probability: real)

  // ------------------------------------------------------------ as written

  /** The index the source's scan holds after it has looked at the first `n`
      entries: the last of them whose probability exceeds the FIRST entry's
      probability, or 0. The source compares with `maxP`, which is set from
      the first entry and never updated. */
  function ScanIndex(cs: seq<CountryProbability>, n: nat): (k: nat)
    requires 0 < |cs| && n <= |cs|
    ensures k < |cs| && (k == 0 || k < n)
    ensures k == 0 || cs[k].probability > cs[0].probability
    ensures forall j :: k < j < n ==> cs[j].probability <= cs[0].probability
  {
    if n == 0 then 0
    else if cs[n - 1].probability > cs[0].probability then n - 1
    else ScanIndex(cs, n - 1)
  }

  /** Entry `k` is the last entry above the first one, or the first entry
      when none is above it. */
  predicate LastAboveFirst(cs: seq<CountryProbability>, k: nat)
    requires k < |cs|
  {
    (k == 0 || cs[k].probability > cs[0].probability) &&
    forall j :: k < j < |cs| ==> cs[j].probability <= cs[0].probability
  }

  /** The country the source returns: "" for an empty list, otherwise the
      country at the scan's final index. */
  function ChosenCountry(cs: seq<CountryProbability>): string {
    if |cs| == 0 then "" else cs[ScanIndex(cs, |cs|)].country
  }

  method CountryWithMaxProbability(countries: seq<CountryProbability>) returns (country: string)
    ensures country == ChosenCountry(countries)
    ensures |countries| == 0 ==> country == ""
    ensures |countries| > 0 ==>
      exists k :: 0 <= k < |countries| && country == countries[k].country && LastAboveFirst(countries, k)
  {
    if |countries| == 0 {
      return "";
    }
    var maxP := countries[0].probability;
    var index := 0;
    for i := 0 to |countries|
      invariant index == ScanIndex(countries, i)
    {
      if countries[i].probability > maxP {
        index := i;
      }
    }
    return countries[index].country;
  }

  /** The scan's index is the only one with its two properties: it is 0 or
      above the first entry, and no later entry is above the first entry. */
  lemma {:induction false} ScanIndexUnique(cs: seq<CountryProbability>, n: nat, k: nat)
    requires 0 < |cs| && n <= |cs| && k < |cs| && (k == 0 || k < n)
    requires k == 0 || cs[k].probability > cs[0].probability
    requires forall j :: k < j < n ==> cs[j].probability <= cs[0].probability
    ensures k == ScanIndex(cs, n)
  {
    if n > 0 && k != n - 1 {
      ScanIndexUnique(cs, n - 1, k);
    }
  }

  /** The chosen country never has a lower probability than the first one. */
  lemma ChosenAtLeastFirst(cs: seq<CountryProbability>)
    requires |cs| > 0
    ensures exists k :: 0 <= k < |cs| && cs[k].country == ChosenCountry(cs) && cs[k].probability >= cs[0].probability
  {
    var k := ScanIndex(cs, |cs|);
    assert cs[k].country == ChosenCountry(cs);
  }

  lemma ChosenOfNone()
    ensures ChosenCountry([]) == ""
  {
  }

  /** A single candidate is chosen whatever its probability. */
  lemma ChosenOfOne(c: CountryProbability)
    ensures ChosenCountry([c]) == c.country
  {
  }

  /** The source does not return the most probable country: with
      probabilities 0.1, 0.9, 0.5 it returns the third country, because 0.5
      exceeds the first probability; the second is the most probable. */
  lemma ChosenIsNotMostProbable()
    ensures var cs := [CountryProbability("AA", 0.1), CountryProbability("BB", 0.9), CountryProbability("CC", 0.5)];
      ChosenCountry(cs) == "CC" && cs[1].probability > cs[2].probability
  {
    var cs := [CountryProbability("AA", 0.1), CountryProbability("BB", 0.9), CountryProbability("CC", 0.5)];
    assert ScanIndex(cs, 3) == 2;
  }

  // ------------------------------------------------------------- corrected

  /** The index of the first entry among the first `n` whose probability is
      the largest of them. */
  function MaxIndex(cs: seq<CountryProbability>, n: nat): (k: nat)
    requires 0 < n <= |cs|
    ensures k < n
    ensures forall j :: 0 <= j < n ==> cs[j].probability <= cs[k].probability
    ensures forall j :: 0 <= j < k ==> cs[j].probability < cs[k].probability
  {
    if n == 1 then 0
    else
      var k := MaxIndex(cs, n - 1);
      if cs[n - 1].probability > cs[k].probability then n - 1 else k
  }

  /** No entry is more probable than entry `k`. */
  predicate MostProbable(cs: seq<CountryProbability>, k: nat)
    requires k < |cs|
  {
    forall j :: 0 <= j < |cs| ==> cs[j].probability <= cs[k].probability
  }

  /** The most probable country, the first one on a tie; "" for none. */
  function MostProbableCountry(cs: seq<CountryProbability>): string {
    if |cs| == 0 then "" else cs[MaxIndex(cs, |cs|)].country
  }

  /** The reduction as its name promises: the running maximum is updated
      together with the index. */
  method BestCountry(countries: seq<CountryProbability>) returns (country: string)
    ensures country == MostProbableCountry(countries)
    ensures |countries| == 0 ==> country == ""
    ensures |countries| > 0 ==>
      exists k :: 0 <= k < |countries| && country == countries[k].country && MostProbable(countries, k)
  {
    if |countries| == 0 {
      return "";
    }
    var maxP := countries[0].probability;
    var index := 0;
    for i := 1 to |countries|
      invariant index == MaxIndex(countries, i)
      invariant maxP == countries[index].probability
    {
      if countries[i].probability > maxP {
        maxP := countries[i].probability;
        index := i;
      }
    }
    return countries[index].country;
  }

  /** On the list that exposes the source's behaviour the corrected
      reduction picks the most probable country. */
  lemma MostProbableOfExample()
    ensures MostProbableCountry([CountryProbability("AA", 0.1), CountryProbability("BB", 0.9),
                                 CountryProbability("CC", 0.5)]) == "BB"
  {
    var cs := [CountryProbability("AA", 0.1), CountryProbability("BB", 0.9), CountryProbability("CC", 0.5)];
    assert MaxIndex(cs, 2) == 1;
  }

  /** With at most two candidates the source's choice is the most probable
      country, so the difference shows only from three on. */
  lemma ChosenIsMostProbableUpToTwo(cs: seq<CountryProbability>)
    requires |cs| <= 2
    ensures ChosenCountry(cs) == MostProbableCountry(cs)
  {
    if |cs| == 2 {
      assert MaxIndex(cs, 1) == 0;
    }
  }
}
