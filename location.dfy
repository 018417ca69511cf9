/** `Location`: one `meteodata:meteoLocation` knowledge object. */
module LocationModel {
  import opened Numbers
  import opened Text

  /** An immutable location; the JSON members are "name", "latitude" and "longitude". */
  datatype Location = Location(name: string, latitude: Double, longitude: Double)

  /** The JSON member names bound by the constructor, in parameter order. */
  const JsonMembers: seq<string> := ["name", "latitude", "longitude"]

  /** The characters of `s` before the first `c` (all of `s` when there is none). */
  function TakeUntil(s: string, c: char): (r: string)
    ensures |r| <= |s| && r == s[..|r|] && c !in r
  {
    if s == [] || s[0] == c then [] else [s[0]] + TakeUntil(s[1..], c)
  }

  lemma {:induction false} TakeUntilPrefix(p: string, c: char, rest: string)
    requires c !in p
    ensures TakeUntil(p + [c] + rest, c) == p
  {
    if p != [] {
      assert (p + [c] + rest)[1..] == p[1..] + [c] + rest;
      TakeUntilPrefix(p[1..], c, rest);
    }
  }

  /** `Location.toString()`, with `Double.toString` supplied as `showDouble`. */
  function ToString(l: Location, showDouble: Double -> string): (s: string)
    ensures |s| >= 24 && s[..24] == "KnowledgeLocation{name='"
  {
    "KnowledgeLocation{name='" + l.name + "', latitude=" + showDouble(l.latitude)
      + ", longitude=" + showDouble(l.longitude) + "}"
  }

  /** The name as read back from a rendering: everything between the opening quote and the next one. */
  function NameInText(s: string): string {
    if |s| < 24 then "" else TakeUntil(s[24..], '\'')
  }

  /** The rendering shows the name unaltered: a name without a quote character can be read back. */
  lemma {:induction false} NameReadBack(l: Location, showDouble: Double -> string)
    requires '\'' !in l.name
    ensures NameInText(ToString(l, showDouble)) == l.name
  {
    var s := ToString(l, showDouble);
    var rest := "', latitude=" + showDouble(l.latitude) + ", longitude=" + showDouble(l.longitude) + "}";
    assert s[24..] == l.name + ['\''] + rest[1..];
    TakeUntilPrefix(l.name, '\'', rest[1..]);
  }

  /** `List.toString()` of a list of locations. */
  function ListText(ls: seq<Location>, showDouble: Double -> string): string {
    Text.ListText(ls, l => ToString(l, showDouble))
  }
}
