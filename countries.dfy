/**
 * The country code sent with a sale request: the shipping country's name is
 * compared, case-insensitively, with every entry of the country table; the
 * last entry that matches wins, and "RU" is used when none does.
 */
module Countries {
  import opened Php

  /** One entry of the country table: ISO code and English name. */
  datatype Country = Country(iso: string, name: string)

  /** The code used when no entry matches. */
  const DefaultCountry := "RU"

  /** `isset($country_name) && mb_strtolower($country_name) == mb_strtolower($country[1])` */
  predicate Matches(c: Country, countryName: Option<string>, lower: string -> string) {
    countryName.Some? && lower(countryName.value) == lower(c.name)
  }

  /** The code of the last matching entry, or null. */
  function LastMatch(countries: seq<Country>, countryName: Option<string>, lower: string -> string): Option<string> {
    if countries == [] then None
    else if Matches(countries[|countries| - 1], countryName, lower) then Some(countries[|countries| - 1].iso)
    else LastMatch(countries[..|countries| - 1], countryName, lower)
  }

  /** `$country_iso ?? 'RU'` */
  function CountryIso(countries: seq<Country>, countryName: Option<string>, lower: string -> string): string {
    LastMatch(countries, countryName, lower).GetOr(DefaultCountry)
  }

  /** The loop in `getPayUrl` that overwrites `$country_iso` on every match. */
  method FindCountryIso(countries: seq<Country>, countryName: Option<string>, lower: string -> string)
    returns (iso: string)
    ensures iso == CountryIso(countries, countryName, lower)
  {
    var found: Option<string> := None;
    var i := 0;
    while i < |countries|
      invariant 0 <= i <= |countries|
      invariant found == LastMatch(countries[..i], countryName, lower)
    {
      assert countries[..i + 1][..i] == countries[..i];
      if Matches(countries[i], countryName, lower) {
        found := Some(countries[i].iso);
      }
      i := i + 1;
    }
    assert countries[..i] == countries;
    iso := found.GetOr(DefaultCountry);
  }

  /**
   * What `LastMatch` finds: the code of a matching entry after which no entry
   * matches; and nothing exactly when no entry matches.
   */
  lemma {:induction false} LastMatchIsLast(countries: seq<Country>, countryName: Option<string>, lower: string -> string)
    ensures LastMatch(countries, countryName, lower).None?
        <==> forall j :: 0 <= j < |countries| ==> !Matches(countries[j], countryName, lower)
    ensures LastMatch(countries, countryName, lower).Some? ==>
        exists j :: 0 <= j < |countries| && Matches(countries[j], countryName, lower)
          && countries[j].iso == LastMatch(countries, countryName, lower).value
          && forall k :: j < k < |countries| ==> !Matches(countries[k], countryName, lower)
  {
    if countries != [] {
      var n := |countries| - 1;
      var init := countries[..n];
      if !Matches(countries[n], countryName, lower) {
        LastMatchIsLast(init, countryName, lower);
        assert forall j :: 0 <= j < n ==> countries[j] == init[j];
        if LastMatch(init, countryName, lower).Some? {
          var j :| 0 <= j < |init| && Matches(init[j], countryName, lower)
            && init[j].iso == LastMatch(init, countryName, lower).value
            && forall k :: j < k < |init| ==> !Matches(init[k], countryName, lower);
          assert countries[j] == init[j];
        }
      }
    }
  }

  /** Without a shipping country name, or with one matching nothing, the code is "RU". */
  lemma NoMatchGivesDefault(countries: seq<Country>, countryName: Option<string>, lower: string -> string)
    requires forall j :: 0 <= j < |countries| ==> !Matches(countries[j], countryName, lower)
    ensures CountryIso(countries, countryName, lower) == "RU"
  {
    LastMatchIsLast(countries, countryName, lower);
  }
}
