/**
 * String helpers shared by the Java and Go sources: ASCII case mapping,
 * `Collectors.joining`, Java's notion of a blank string, and the decimal
 * rendering of integers (`Integer.toString`, `Long.toString`, Go's `fmt.Sprint`).
 */
module Text {
  import opened Wrappers

  // ---------------------------------------------------------------------------
  // Case mapping (ASCII; locale-sensitive and non-ASCII mappings are not modelled)
  // ---------------------------------------------------------------------------

  function LowerChar(c: char): char {
    if 'A' <= c <= 'Z' then (c as int + 32) as char else c
  }

  function UpperChar(c: char): char {
    if 'a' <= c <= 'z' then (c as int - 32) as char else c
  }

  /** `String.toLowerCase()` restricted to ASCII letters. */
  function ToLower(s: string): string {
    if s == [] then [] else [LowerChar(s[0])] + ToLower(s[1..])
  }

  /** `String.toUpperCase()` restricted to ASCII letters. */
  function ToUpper(s: string): string {
    if s == [] then [] else [UpperChar(s[0])] + ToUpper(s[1..])
  }

  /** Lowercasing maps character by character. */
  lemma {:induction false} ToLowerAt(s: string, i: nat)
    requires i < |s|
    ensures |ToLower(s)| == |s| && ToLower(s)[i] == LowerChar(s[i])
  {
    if i > 0 { ToLowerAt(s[1..], i - 1); } else { ToLowerLength(s[1..]); }
  }

  lemma {:induction false} ToLowerLength(s: string)
    ensures |ToLower(s)| == |s|
  {
    if s != [] { ToLowerLength(s[1..]); }
  }

  /** Lowercasing forgets the original ASCII casing: an uppercased name lowercases the same way. */
  lemma {:induction false} ToLowerOfToUpper(s: string)
    ensures ToLower(ToUpper(s)) == ToLower(s)
  {
    if s != [] { ToLowerOfToUpper(s[1..]); }
  }

  /** Uppercasing forgets the original ASCII casing. */
  lemma {:induction false} ToUpperOfToLower(s: string)
    ensures ToUpper(ToLower(s)) == ToUpper(s)
  {
    if s != [] { ToUpperOfToLower(s[1..]); }
  }

  /** Lowercasing twice is lowercasing once. */
  lemma {:induction false} ToLowerIdempotent(s: string)
    ensures ToLower(ToLower(s)) == ToLower(s)
  {
    if s != [] { ToLowerIdempotent(s[1..]); }
  }

  // ---------------------------------------------------------------------------
  // Collectors.joining(sep) and its inverse
  // ---------------------------------------------------------------------------

  /** `parts.stream().collect(Collectors.joining(sep))`. */
  function Join(parts: seq<string>, sep: string): string {
    if parts == [] then ""
    else if |parts| == 1 then parts[0]
    else parts[0] + sep + Join(parts[1..], sep)
  }

  /** Splits at every occurrence of `c` (every piece is kept, empty ones too). */
  function Split(s: string, c: char): (pieces: seq<string>)
    ensures |pieces| >= 1
    decreases |s|
  {
    if s == [] then [""]
    else
      var rest := Split(s[1..], c);
      if s[0] == c then [""] + rest else [[s[0]] + rest[0]] + rest[1..]
  }

  /** Splitting a piece free of the separator, glued in front of more text. */
  lemma {:induction false} SplitPrefix(p: string, c: char, tail: string)
    requires c !in p
    ensures Split(p + tail, c) == [p + Split(tail, c)[0]] + Split(tail, c)[1..]
    decreases |p|
  {
    if p == [] {
      var pieces := Split(tail, c);
      assert p + tail == tail;
      assert p + pieces[0] == pieces[0];
      assert pieces == [pieces[0]] + pieces[1..];
    } else {
      assert (p + tail)[1..] == p[1..] + tail;
      SplitPrefix(p[1..], c, tail);
      assert [p[0]] + (p[1..] + Split(tail, c)[0]) == p + Split(tail, c)[0];
    }
  }

  /**
   * Joining with a one-character separator that occurs in no part can be
   * undone by splitting: position i of the joined string list is part i.
   */
  lemma {:induction false} SplitJoin(parts: seq<string>, c: char)
    requires |parts| >= 1
    requires forall i :: 0 <= i < |parts| ==> c !in parts[i]
    ensures Split(Join(parts, [c]), c) == parts
  {
    if |parts| == 1 {
      SplitPrefix(parts[0], c, "");
      assert parts[0] + "" == parts[0];
    } else {
      var rest := Join(parts[1..], [c]);
      SplitJoin(parts[1..], c);
      assert Join(parts, [c]) == parts[0] + ([c] + rest);
      SplitPrefix(parts[0], c, [c] + rest);
      assert ([c] + rest)[1..] == rest;
      assert Split([c] + rest, c) == [""] + parts[1..];
      assert parts[0] + "" == parts[0];
      assert parts == [parts[0]] + parts[1..];
    }
  }

  /** Joining two non-empty runs of parts in one go joins the two joined runs with one more separator. */
  lemma {:induction false} JoinAppend(a: seq<string>, b: seq<string>, sep: string)
    requires a != [] && b != []
    ensures Join(a + b, sep) == Join(a, sep) + sep + Join(b, sep)
    decreases |a|
  {
    if |a| == 1 {
      assert (a + b)[1..] == b;
    } else {
      assert (a + b)[1..] == a[1..] + b;
      JoinAppend(a[1..], b, sep);
    }
  }

  /** The joined string has |parts| - 1 separators and nothing else added. */
  lemma {:induction false} JoinLength(parts: seq<string>, sep: string)
    requires |parts| >= 1
    ensures |Join(parts, sep)| == SumLengths(parts) + (|parts| - 1) * |sep|
  {
    if |parts| > 1 { JoinLength(parts[1..], sep); }
  }

  function SumLengths(parts: seq<string>): nat {
    if parts == [] then 0 else |parts[0]| + SumLengths(parts[1..])
  }

  /** Where part i starts in the joined string: after every earlier part and one separator each. */
  function PartOffset(parts: seq<string>, sep: string, i: nat): nat
    requires i <= |parts|
  {
    SumLengths(parts[..i]) + i * |sep|
  }

  /** A slice of the text after a prefix is the same slice shifted by the prefix's length. */
  lemma SliceAfter(a: string, b: string, x: nat, y: nat)
    requires x <= y <= |b|
    ensures (a + b)[|a| + x..|a| + y] == b[x..y]
  {
    assert (a + b)[|a|..] == b;
  }

  /** The lengths of the first i + 1 parts: the first part, then the first i of the rest. */
  lemma SumLengthsPrefix(parts: seq<string>, i: nat)
    requires 0 < i <= |parts|
    ensures SumLengths(parts[..i]) == |parts[0]| + SumLengths(parts[1..][..i - 1])
  {
    assert parts[..i][0] == parts[0];
    assert parts[..i][1..] == parts[1..][..i - 1];
  }

  /** Part i of a joined string sits at its offset, and a separator follows it unless it is the last. */
  lemma {:induction false} JoinAt(parts: seq<string>, sep: string, i: nat)
    requires i < |parts|
    ensures PartOffset(parts, sep, i) + |parts[i]| <= |Join(parts, sep)|
    ensures Join(parts, sep)[PartOffset(parts, sep, i)..PartOffset(parts, sep, i) + |parts[i]|] == parts[i]
    ensures i + 1 < |parts| ==>
      PartOffset(parts, sep, i) + |parts[i]| + |sep| <= |Join(parts, sep)|
      && Join(parts, sep)[PartOffset(parts, sep, i) + |parts[i]|..PartOffset(parts, sep, i) + |parts[i]| + |sep|] == sep
    decreases i
  {
    if i == 0 {
      assert parts[..0] == [];
      assert PartOffset(parts, sep, 0) == 0;
      if |parts| > 1 {
        assert Join(parts, sep) == parts[0] + sep + Join(parts[1..], sep);
      }
    } else {
      var rest := parts[1..];
      var head := parts[0] + sep;
      var o := PartOffset(rest, sep, i - 1);
      var m := |parts[i]|;
      JoinAt(rest, sep, i - 1);
      SumLengthsPrefix(parts, i);
      assert PartOffset(parts, sep, i) == |head| + o;
      assert rest[i - 1] == parts[i];
      assert Join(parts, sep) == head + Join(rest, sep);
      SliceAfter(head, Join(rest, sep), o, o + m);
      if i + 1 < |parts| {
        SliceAfter(head, Join(rest, sep), o + m, o + m + |sep|);
      }
    }
  }

  /** `List.toString()` of elements already rendered: bracketed and joined with ", ". */
  function ListToString(items: seq<string>): (s: string)
    ensures |s| >= 2 && s[0] == '[' && s[|s| - 1] == ']'
    ensures items == [] ==> s == "[]"
    ensures items != [] ==> |s| == SumLengths(items) + 2 * |items|
    ensures items != [] ==> s[1..1 + |items[0]|] == items[0]
  {
    if items == [] then "[]"
    else
      JoinLength(items, ", ");
      JoinAt(items, ", ", 0);
      "[" + Join(items, ", ") + "]"
  }

  /** Where item i starts in `List.toString()`: after the bracket, every earlier item and a ", " each. */
  function ItemOffset(items: seq<string>, i: nat): nat
    requires i <= |items|
  {
    1 + SumLengths(items[..i]) + 2 * i
  }

  /** Every item appears in order in the rendered list, each but the last followed by ", ". */
  lemma ListItemAt(items: seq<string>, i: nat)
    requires i < |items|
    ensures ItemOffset(items, i) + |items[i]| < |ListToString(items)|
    ensures ListToString(items)[ItemOffset(items, i)..ItemOffset(items, i) + |items[i]|] == items[i]
    ensures i + 1 < |items| ==>
      ItemOffset(items, i) + |items[i]| + 2 < |ListToString(items)|
      && ListToString(items)[ItemOffset(items, i) + |items[i]|..ItemOffset(items, i) + |items[i]| + 2] == ", "
  {
    var j := Join(items, ", ");
    JoinAt(items, ", ", i);
    assert ListToString(items) == "[" + j + "]";
    assert ListToString(items)[1..|ListToString(items)| - 1] == j;
  }

  /** The elements of a list, each rendered with `toString()`. */
  function Rendered<T>(xs: seq<T>, render: T -> string): (r: seq<string>)
    ensures |r| == |xs| && forall i :: 0 <= i < |xs| ==> r[i] == render(xs[i])
  {
    seq(|xs|, i requires 0 <= i < |xs| => render(xs[i]))
  }

  /** `List.toString()` of a list whose elements render with `render`. */
  function ListText<T>(xs: seq<T>, render: T -> string): (s: string)
    ensures |s| >= 2 && s[0] == '[' && s[|s| - 1] == ']'
    ensures xs == [] ==> s == "[]"
    ensures xs != [] ==> |s| == SumLengths(Rendered(xs, render)) + 2 * |xs|
    ensures xs != [] ==> s[1..1 + |render(xs[0])|] == render(xs[0])
  {
    ListToString(Rendered(xs, render))
  }

  /** Element i of the list appears rendered at its offset, each but the last followed by ", ". */
  lemma ListTextAt<T>(xs: seq<T>, render: T -> string, i: nat)
    requires i < |xs|
    ensures var o := ItemOffset(Rendered(xs, render), i);
      o + |render(xs[i])| < |ListText(xs, render)|
      && ListText(xs, render)[o..o + |render(xs[i])|] == render(xs[i])
      && (i + 1 < |xs| ==>
            o + |render(xs[i])| + 2 < |ListText(xs, render)|
            && ListText(xs, render)[o + |render(xs[i])|..o + |render(xs[i])| + 2] == ", ")
  {
    ListItemAt(Rendered(xs, render), i);
  }

  /** `String.valueOf` of a reference that may be null. */
  function NullableToString(s: Option<string>): string {
    if s.Some? then s.value else "null"
  }

  // ---------------------------------------------------------------------------
  // String.isBlank()
  // ---------------------------------------------------------------------------

  /** `Character.isWhitespace`: the Unicode space separators except the no-break ones, plus the ASCII controls it lists. */
  predicate IsJavaWhitespace(c: char) {
    var n := c as int;
    || (0x09 <= n <= 0x0D) || (0x1C <= n <= 0x20)
    || n == 0x1680 || (0x2000 <= n <= 0x2006) || (0x2008 <= n <= 0x200A)
    || n == 0x2028 || n == 0x2029 || n == 0x205F || n == 0x3000
  }

  /** `String.isBlank()`: empty or whitespace only. */
  predicate IsBlank(s: string) {
    forall i :: 0 <= i < |s| ==> IsJavaWhitespace(s[i])
  }

  // ---------------------------------------------------------------------------
  // Decimal rendering and parsing of integers
  // ---------------------------------------------------------------------------

  predicate IsDigit(c: char) { '0' <= c <= '9' }

  function DigitChar(d: nat): (c: char)
    requires d < 10
    ensures IsDigit(c)
  {
    ('0' as int + d) as char
  }

  function DigitValue(c: char): (d: nat)
    requires IsDigit(c)
    ensures d < 10
  {
    c as int - '0' as int
  }

  /** Decimal digits of a natural number, without leading zeros. */
  function NatToString(n: nat): string
    decreases n
  {
    if n < 10 then [DigitChar(n)] else NatToString(n / 10) + [DigitChar(n % 10)]
  }

  /** `Integer.toString`, `Long.toString` and Go's `fmt.Sprint` of an integer. */
  function IntToString(i: int): string {
    if i < 0 then "-" + NatToString(-i) else NatToString(i)
  }

  predicate AllDigits(s: string) {
    forall i :: 0 <= i < |s| ==> IsDigit(s[i])
  }

  /** The value of a string of decimal digits (the empty string reads as 0). */
  function DigitsValue(s: string): nat
    requires AllDigits(s)
  {
    if s == [] then 0 else DigitsValue(s[..|s| - 1]) * 10 + DigitValue(s[|s| - 1])
  }

  /** Reads back what `IntToString` writes: an optional '-' and at least one digit. */
  function ParseInt(s: string): Option<int> {
    if |s| >= 2 && s[0] == '-' && AllDigits(s[1..]) then Some(-(DigitsValue(s[1..]) as int))
    else if |s| >= 1 && AllDigits(s) then Some(DigitsValue(s))
    else None
  }

  lemma {:induction false} NatToStringDigits(n: nat)
    ensures |NatToString(n)| >= 1 && AllDigits(NatToString(n)) && DigitsValue(NatToString(n)) == n
    decreases n
  {
    if n >= 10 {
      NatToStringDigits(n / 10);
      var s := NatToString(n);
      assert s[..|s| - 1] == NatToString(n / 10);
    }
  }

  /** The decimal rendering is read back to the same integer. */
  lemma IntToStringRoundTrip(i: int)
    ensures ParseInt(IntToString(i)) == Some(i)
  {
    if i < 0 {
      NatToStringDigits(-i);
      var s := IntToString(i);
      assert s[1..] == NatToString(-i);
    } else {
      NatToStringDigits(i);
    }
  }
}
