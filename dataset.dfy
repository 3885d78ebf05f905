/** The dataset accessor: the country selector's options and the row lookup
    behind the selected country. The CSV read itself is not modelled; the
    dataset is the sequence of its rows. */
module Dataset {
  import opened ChatTypes

  /** The distinct `Country` values, as the selector offers them
      (`df["Country"].unique()`). */
  function UniqueCountries(rows: seq<CountryRecord>): (u: seq<string>)
    ensures forall k :: k in u <==> exists i :: 0 <= i < |rows| && rows[i].country == k
    ensures forall i, j :: 0 <= i < j < |u| ==> u[i] != u[j]
    decreases |rows|
  {
    if rows == [] then []
    else
      var init := rows[..|rows| - 1];
      var u := UniqueCountries(init);
      var c := rows[|rows| - 1].country;
      assert forall i :: 0 <= i < |init| ==> init[i] == rows[i];
      if c in u then u else u + [c]
  }

  /** `df[df["Country"] == key].iloc[0]`: the first row whose country is
      `key`, or `None` where pandas would raise on an empty selection. */
  function Lookup(rows: seq<CountryRecord>, key: string): (r: Option<CountryRecord>)
    ensures r.None? <==> forall i :: 0 <= i < |rows| ==> rows[i].country != key
    ensures r.Some? ==> exists i :: 0 <= i < |rows| && rows[i] == r.value && rows[i].country == key
                                && forall j :: 0 <= j < i ==> rows[j].country != key
    decreases |rows|
  {
    if rows == [] then None
    else if rows[0].country == key then Some(rows[0])
    else
      var r := Lookup(rows[1..], key);
      assert forall i :: 0 <= i < |rows| - 1 ==> rows[1..][i] == rows[i + 1];
      r
  }

  /** Every option the selector offers resolves to a row of that country. */
  lemma LookupTotal(rows: seq<CountryRecord>, key: string)
    requires key in UniqueCountries(rows)
    ensures Lookup(rows, key).Some? && Lookup(rows, key).value.country == key
  {
  }

  /** With unique keys, the row found is the only row for that country. */
  lemma LookupUnique(rows: seq<CountryRecord>, key: string, i: int)
    requires 0 <= i < |rows| && rows[i].country == key
    requires forall a, b :: 0 <= a < b < |rows| ==> rows[a].country != rows[b].country
    ensures Lookup(rows, key) == Some(rows[i])
  {
  }
}
