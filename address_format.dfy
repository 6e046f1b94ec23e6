/**
 * The label the screen shows for a geocoder result: `formatAddress` joins the
 * locality, the administrative area and the country name with ", ", reads a
 * missing component as "", and trims commas and spaces from both ends of the
 * result (Kotlin's `String.trim(',', ' ')`). Empty components in the middle
 * are NOT dropped: a missing administrative area between a city and a country
 * leaves ", , " in the label.
 */
module AddressFormat {
  import opened Wrappers
  import opened Geo

  /** The parts of a geocoder `Address` that the screen reads. */
  datatype Address = Address(
    locality: Option<string>,
    adminArea: Option<string>,
    countryName: Option<string>,
    latitude: real,
    longitude: real)
  {
    /** The coordinate the screen builds from the address. */
    function Position(): LatLng {
      LatLng(latitude, longitude)
    }
  }

  /** The characters `formatAddress` trims. */
  predicate IsTrimChar(c: char) {
    c == ',' || c == ' '
  }

  /** `s[i..j]` is what is left of `s` once every trim character at either end is removed. */
  predicate IsTrimSlice(s: string, i: int, j: int) {
    0 <= i <= j <= |s|
    && (forall k :: 0 <= k < i ==> IsTrimChar(s[k]))
    && (forall k :: j <= k < |s| ==> IsTrimChar(s[k]))
    && (i < j ==> !IsTrimChar(s[i]) && !IsTrimChar(s[j - 1]))
  }

  /** The first index at or after `i` that holds a kept character (`|s|` if there is none). */
  function StartIndex(s: string, i: nat): (r: nat)
    requires i <= |s|
    ensures i <= r <= |s|
    ensures forall k :: i <= k < r ==> IsTrimChar(s[k])
    ensures r < |s| ==> !IsTrimChar(s[r])
    decreases |s| - i
  {
    if i < |s| && IsTrimChar(s[i]) then StartIndex(s, i + 1) else i
  }

  /** Scanning back from `j`, no further than `lo`: the end of the kept characters. */
  function EndIndex(s: string, j: nat, lo: nat): (r: nat)
    requires lo <= j <= |s|
    ensures lo <= r <= j
    ensures forall k :: r <= k < j ==> IsTrimChar(s[k])
    ensures lo < r ==> !IsTrimChar(s[r - 1])
  {
    if lo < j && IsTrimChar(s[j - 1]) then EndIndex(s, j - 1, lo) else j
  }

  /** `trim(',', ' ')`: drop the commas and spaces at both ends of `s`. */
  function Trim(s: string): string {
    var i := StartIndex(s, 0);
    s[i..EndIndex(s, |s|, i)]
  }

  /** Trim keeps a contiguous piece of `s` with no comma or space at either end. */
  lemma TrimIsTrimSlice(s: string)
    ensures exists i, j :: IsTrimSlice(s, i, j) && Trim(s) == s[i..j]
    ensures Trim(s) == [] || (!IsTrimChar(Trim(s)[0]) && !IsTrimChar(Trim(s)[|Trim(s)| - 1]))
  {
    var i := StartIndex(s, 0);
    var j := EndIndex(s, |s|, i);
    assert IsTrimSlice(s, i, j);
  }

  /** Trim has exactly one possible outcome: any way of stripping both ends yields Trim(s). */
  lemma TrimUnique(s: string, i: int, j: int)
    requires IsTrimSlice(s, i, j)
    ensures Trim(s) == s[i..j]
  {
    var i0 := StartIndex(s, 0);
    var j0 := EndIndex(s, |s|, i0);
    if i < j {
      assert i0 == i;
      assert j0 == j;
    } else {
      assert i0 == |s|;
    }
  }

  /** Trimming twice is trimming once. */
  lemma TrimIdempotent(s: string)
    ensures Trim(Trim(s)) == Trim(s)
  {
    var r := Trim(s);
    TrimIsTrimSlice(s);
    assert IsTrimSlice(r, 0, |r|);
    TrimUnique(r, 0, |r|);
    assert r[0..|r|] == r;
  }

  /** The string template `"$city, $state, $country"`, a missing component read as "". */
  function Template(a: Address): string {
    a.locality.GetOr("") + ", " + a.adminArea.GetOr("") + ", " + a.countryName.GetOr("")
  }

  /** `formatAddress`: the trimmed template. */
  function FormatAddress(a: Address): string {
    Trim(Template(a))
  }

  /**
   * The label is a contiguous piece of the template, neither begins nor ends
   * with a comma or a space, and trimming it again changes nothing.
   */
  lemma FormatAddressTrimmed(a: Address)
    ensures exists i, j :: 0 <= i <= j <= |Template(a)| && FormatAddress(a) == Template(a)[i..j]
    ensures var r := FormatAddress(a); r == [] || (!IsTrimChar(r[0]) && !IsTrimChar(r[|r| - 1]))
    ensures Trim(FormatAddress(a)) == FormatAddress(a)
  {
    TrimIsTrimSlice(Template(a));
    TrimIdempotent(Template(a));
  }

  /** A missing component formats exactly like an empty one. */
  lemma FormatAddressNullIsEmpty(a: Address)
    ensures FormatAddress(a) == FormatAddress(a.(locality := Some(a.locality.GetOr("")),
                                                 adminArea := Some(a.adminArea.GetOr("")),
                                                 countryName := Some(a.countryName.GetOr(""))))
  {
  }

  /**
   * When the city and the country begin and end with kept characters, nothing is
   * trimmed: the whole template is the label, whatever the middle component is
   * (an empty one included).
   */
  lemma FormatAddressKeepsMiddle(a: Address, city: string, country: string)
    requires a.locality == Some(city) && a.countryName == Some(country)
    requires city != [] && !IsTrimChar(city[0])
    requires country != [] && !IsTrimChar(country[|country| - 1])
    ensures FormatAddress(a) == city + ", " + a.adminArea.GetOr("") + ", " + country
  {
    var t := Template(a);
    assert t[0] == city[0];
    assert t[|t| - 1] == country[|country| - 1];
    TrimUnique(t, 0, |t|);
    assert t[0..|t|] == t;
  }

  /** The label of a city and a country with no administrative area keeps the empty middle. */
  lemma FormatAddressEmptyMiddle(a: Address)
    requires a.locality == Some("A") && a.adminArea == None && a.countryName == Some("B")
    ensures FormatAddress(a) == "A, , B"
  {
    var city, country := "A", "B";
    assert !IsTrimChar(city[0]) && !IsTrimChar(country[|country| - 1]);
    FormatAddressKeepsMiddle(a, city, country);
    assert city + ", " + "" + ", " + country == "A, , B";
  }

  /** With every component missing the label is empty. */
  lemma FormatAddressAllMissing(a: Address)
    requires a.locality == None && a.adminArea == None && a.countryName == None
    ensures FormatAddress(a) == ""
  {
    var t := Template(a);
    assert t == ", , ";
    assert IsTrimSlice(t, |t|, |t|);
    TrimUnique(t, |t|, |t|);
  }

  /** Missing leading components are absorbed by the trim: only the country is left. */
  lemma FormatAddressCountryOnly(a: Address, country: string)
    requires a.locality == None && a.adminArea == None && a.countryName == Some(country)
    requires country != [] && !IsTrimChar(country[0]) && !IsTrimChar(country[|country| - 1])
    ensures FormatAddress(a) == country
  {
    var t := Template(a);
    assert t == ", , " + country;
    assert t[4] == country[0];
    TrimUnique(t, 4, |t|);
    assert t[4..|t|] == country;
  }
}
