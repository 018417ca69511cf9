/**
 * Header propagation: the allow-list filter that copies selected inbound
 * cron-trigger headers onto outbound knowledge-store requests and exporter
 * builders, and the three identity headers the ingestion endpoint needs.
 */
module Headers {
  import opened Wrappers
  import opened Text

  /** One inbound header name with all its values, as `HttpHeaders.forEach` presents it. */
  datatype Header = Header(name: string, values: seq<string>)

  /** The inbound header multimap, in iteration order. */
  type Headers = seq<Header>

  /**
   * One header handed to an outbound request or exporter builder
   * (`add(name, value)` / `addHeader(name, value)`); a Java null value is `None`.
   */
  datatype OutHeader = OutHeader(name: string, value: Option<string>)

  /** The names, in lower case, of the headers that are propagated. */
  const PropagatedNames: seq<string> := [
    "appd-cpty", "appd-cpid", "layer-type", "layer-id", "traceparent",
    "x-b3-parentspanid", "x-b3-spanid", "x-b3-traceid", "x-request-id"
  ]

  /** `PROPAGATED_HEADERS.contains(headerName.toLowerCase())`. */
  predicate IsPropagated(name: string) {
    ToLower(name) in PropagatedNames
  }

  /** The inbound headers that survive the allow-list, as a multimap. */
  function Filter(h: Headers): (r: Headers)
    ensures |r| <= |h|
    ensures forall x :: x in r ==> x in h && IsPropagated(x.name)
    ensures forall x :: x in h && IsPropagated(x.name) ==> x in r
  {
    if h == [] then []
    else if IsPropagated(h[0].name) then [h[0]] + Filter(h[1..])
    else Filter(h[1..])
  }

  /** The `add(name, value)` calls of one inbound header that passes the filter: every value, in order. */
  function ValuesOf(name: string, values: seq<string>): seq<OutHeader> {
    if values == [] then [] else [OutHeader(name, Some(values[0]))] + ValuesOf(name, values[1..])
  }

  /** The `add(name, value)` calls the propagation loop makes, in order. */
  function Propagated(h: Headers): seq<OutHeader> {
    if h == [] then []
    else (if IsPropagated(h[0].name) then ValuesOf(h[0].name, h[0].values) else []) + Propagated(h[1..])
  }

  lemma {:induction false} PropagatedAppend(a: Headers, b: Headers)
    ensures Propagated(a + b) == Propagated(a) + Propagated(b)
  {
    if a == [] {
      assert a + b == b;
    } else {
      var first := if IsPropagated(a[0].name) then ValuesOf(a[0].name, a[0].values) else [];
      assert (a + b)[0] == a[0];
      assert (a + b)[1..] == a[1..] + b;
      PropagatedAppend(a[1..], b);
      assert Propagated(a + b) == first + (Propagated(a[1..]) + Propagated(b));
    }
  }

  /** One more inbound header adds its own calls after those of the headers before it. */
  lemma PropagatedStep(h: Headers, i: nat)
    requires i < |h|
    ensures Propagated(h[..i + 1]) == Propagated(h[..i]) + (if IsPropagated(h[i].name) then ValuesOf(h[i].name, h[i].values) else [])
  {
    PropagatedAppend(h[..i], [h[i]]);
    assert h[..i + 1] == h[..i] + [h[i]];
    assert [h[i]][1..] == [];
  }

  lemma {:induction false} ValuesOfAppend(name: string, a: seq<string>, b: seq<string>)
    ensures ValuesOf(name, a + b) == ValuesOf(name, a) + ValuesOf(name, b)
  {
    if a == [] {
      assert a + b == b;
    } else {
      assert (a + b)[1..] == a[1..] + b;
      ValuesOfAppend(name, a[1..], b);
    }
  }

  lemma {:induction false} ValuesOfMember(name: string, values: seq<string>, o: OutHeader)
    ensures o in ValuesOf(name, values) <==> o.name == name && o.value.Some? && o.value.value in values
  {
    if values != [] {
      ValuesOfMember(name, values[1..], o);
      assert values == [values[0]] + values[1..];
    }
  }

  /**
   * A header is copied iff its lowercased name is on the allow-list, and
   * then every one of its values is copied under the original name casing.
   */
  lemma {:induction false} PropagatedMember(h: Headers, n: string, v: string)
    ensures OutHeader(n, Some(v)) in Propagated(h)
      <==> exists i :: 0 <= i < |h| && h[i].name == n && v in h[i].values && IsPropagated(n)
  {
    if h != [] {
      PropagatedMember(h[1..], n, v);
      ValuesOfMember(h[0].name, h[0].values, OutHeader(n, Some(v)));
      if exists i :: 0 <= i < |h| && h[i].name == n && v in h[i].values && IsPropagated(n) {
        var i :| 0 <= i < |h| && h[i].name == n && v in h[i].values && IsPropagated(n);
        if i > 0 { assert h[1..][i - 1] == h[i]; }
      }
      if exists i :: 0 <= i < |h[1..]| && h[1..][i].name == n && v in h[1..][i].values && IsPropagated(n) {
        var i :| 0 <= i < |h[1..]| && h[1..][i].name == n && v in h[1..][i].values && IsPropagated(n);
        assert h[i + 1] == h[1..][i];
      }
    }
  }

  /** Every propagated header carries a value: none is null. */
  lemma {:induction false} PropagatedNonNull(h: Headers, k: nat)
    requires k < |Propagated(h)|
    ensures Propagated(h)[k].value.Some? && IsPropagated(Propagated(h)[k].name)
  {
    var o := Propagated(h)[k];
    assert o in Propagated(h);
    if h != [] {
      var first := if IsPropagated(h[0].name) then ValuesOf(h[0].name, h[0].values) else [];
      if k < |first| {
        assert o in first;
        ValuesOfMember(h[0].name, h[0].values, o);
      } else {
        assert Propagated(h)[k] == Propagated(h[1..])[k - |first|];
        PropagatedNonNull(h[1..], k - |first|);
      }
    }
  }

  /** Filtering what is already filtered changes nothing. */
  lemma {:induction false} FilterIdempotent(h: Headers)
    ensures Filter(Filter(h)) == Filter(h)
  {
    if h != [] {
      FilterIdempotent(h[1..]);
    }
  }

  /** Propagating from the filtered multimap hands over exactly the same headers. */
  lemma {:induction false} PropagatedOfFilter(h: Headers)
    ensures Propagated(Filter(h)) == Propagated(h)
  {
    if h != [] {
      PropagatedOfFilter(h[1..]);
      if IsPropagated(h[0].name) {
        assert ([h[0]] + Filter(h[1..]))[1..] == Filter(h[1..]);
      }
    }
  }

  /** The match ignores the casing of the header name. */
  lemma UpperCaseNamesPropagate(name: string)
    ensures IsPropagated(ToUpper(name)) <==> IsPropagated(name)
  {
    ToLowerOfToUpper(name);
  }

  /** Headers whose names differ only in ASCII case are treated alike. */
  lemma SameLowerSamePropagation(a: string, b: string)
    requires ToLower(a) == ToLower(b)
    ensures IsPropagated(a) <==> IsPropagated(b)
  {
  }

  /**
   * Every value, in order, of every inbound header whose name matches `name`
   * ignoring case; `name` is written in lower case, as every name looked up is.
   */
  function AllValues(h: Headers, name: string): seq<string> {
    if h == [] then []
    else (if ToLower(h[0].name) == name then h[0].values else []) + AllValues(h[1..], name)
  }

  /** `HttpHeaders.get(name)`: the first value under a case-insensitive name, or null. */
  function FirstValue(h: Headers, name: string): (r: Option<string>)
    ensures r.Some? <==> AllValues(h, name) != []
    ensures r.Some? ==> r.value == AllValues(h, name)[0]
  {
    var all := AllValues(h, name);
    if all == [] then None else Some(all[0])
  }

  /** The lookup ignores case: a header sent under an upper-case name is found under the lower-case one. */
  lemma FirstValueAnyCase(n: string, v: string, more: seq<string>, h: Headers)
    ensures FirstValue([Header(ToUpper(n), [v] + more)] + h, ToLower(n)) == Some(v)
  {
    ToLowerOfToUpper(n);
    var h' := [Header(ToUpper(n), [v] + more)] + h;
    assert h'[1..] == h;
  }

  /** The identity headers added after the propagated ones: principal id, principal type, tenant id. */
  function IdentityHeaders(h: Headers): seq<OutHeader> {
    [ OutHeader("appd-pid", FirstValue(h, "appd-cpid")),
      OutHeader("appd-pty", FirstValue(h, "appd-cpty")),
      OutHeader("appd-tid", FirstValue(h, "layer-id")) ]
  }

  /** The `addHeader` calls made on an exporter builder: the propagated headers, then the identity headers. */
  function ExporterHeaders(h: Headers): seq<OutHeader> {
    Propagated(h) + IdentityHeaders(h)
  }

  /** Exporter headers: all propagated ones first, and the identity values taken from the matching inbound names. */
  lemma ExporterHeadersShape(h: Headers)
    ensures |ExporterHeaders(h)| == |Propagated(h)| + 3
    ensures ExporterHeaders(h)[..|Propagated(h)|] == Propagated(h)
    ensures ExporterHeaders(h)[|Propagated(h)|] == OutHeader("appd-pid", FirstValue(h, "appd-cpid"))
    ensures ExporterHeaders(h)[|Propagated(h)| + 1] == OutHeader("appd-pty", FirstValue(h, "appd-cpty"))
    ensures ExporterHeaders(h)[|Propagated(h)| + 2] == OutHeader("appd-tid", FirstValue(h, "layer-id"))
  {
  }

  /**
   * The receiver of `add(name, value)` calls: the header entries of an outbound
   * request (`MutableHttpHeaders`) or the header list of an exporter builder.
   */
  class HeaderSink {
    var entries: seq<OutHeader>

    constructor ()
      ensures entries == []
    {
      entries := [];
    }

    method Add(name: string, value: Option<string>)
      modifies this
      ensures entries == old(entries) + [OutHeader(name, value)]
    {
      entries := entries + [OutHeader(name, value)];
    }
  }

  /** The inner `forEach` of `addPropagatedHeaders`: one `add` per value of a header that passes. */
  method AddValues(sink: HeaderSink, name: string, values: seq<string>)
    modifies sink
    ensures sink.entries == old(sink.entries) + ValuesOf(name, values)
  {
    var j := 0;
    while j < |values|
      invariant 0 <= j <= |values|
      invariant sink.entries == old(sink.entries) + ValuesOf(name, values[..j])
    {
      sink.Add(name, Some(values[j]));
      ValuesOfAppend(name, values[..j], [values[j]]);
      assert values[..j + 1] == values[..j] + [values[j]];
      j := j + 1;
    }
    assert values[..j] == values;
  }

  /** `addPropagatedHeaders`: the `forEach` over inbound headers, and over the values of each one that passes. */
  method AddPropagatedHeaders(sink: HeaderSink, h: Headers)
    modifies sink
    ensures sink.entries == old(sink.entries) + Propagated(h)
  {
    var i := 0;
    while i < |h|
      invariant 0 <= i <= |h|
      invariant sink.entries == old(sink.entries) + Propagated(h[..i])
    {
      var name, values := h[i].name, h[i].values;
      if IsPropagated(name) {
        AddValues(sink, name, values);
      }
      PropagatedStep(h, i);
      i := i + 1;
    }
    assert h[..i] == h;
  }

  /** The three `addHeader` calls for the identity headers. */
  method AddIdentityHeaders(sink: HeaderSink, h: Headers)
    modifies sink
    ensures sink.entries == old(sink.entries) + IdentityHeaders(h)
  {
    sink.Add("appd-pid", FirstValue(h, "appd-cpid"));
    sink.Add("appd-pty", FirstValue(h, "appd-cpty"));
    sink.Add("appd-tid", FirstValue(h, "layer-id"));
  }
}
