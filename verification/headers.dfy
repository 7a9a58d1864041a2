/**
 * Record headers: an ordered list of key/value pairs in which a key may repeat. A lookup by key
 * scans from the back and yields the value of the last header with that key, or a null value
 * (no data, size 0) when the key is absent.
 */
module Headers {
  import opened Types

  datatype Header = Header(key: string, value: Bytes)

  /** The value a lookup yields: `None` is the null value, distinct from a present empty value. */
  type HeaderValue = Option<Bytes>

  /** Size of a header value as the library reports it: zero for the null value. */
  function ValueSize(v: HeaderValue): (n: nat)
    ensures v.None? ==> n == 0
    ensures v.Some? ==> n == |v.value|
  {
    if v.None? then 0 else |v.value|
  }

  /** Whether some header carries `key`. */
  predicate HasKey(headers: seq<Header>, key: string) {
    exists i :: 0 <= i < |headers| && headers[i].key == key
  }

  /** Specification of the lookup: the last header with `key`, by recursion on the list's end. */
  function LastValue(headers: seq<Header>, key: string): (r: HeaderValue)
    ensures r.None? <==> !HasKey(headers, key)
    ensures r.Some? ==> exists i :: 0 <= i < |headers| && headers[i].key == key && headers[i].value == r.value
                                    && forall j :: i < j < |headers| ==> headers[j].key != key
    decreases |headers|
  {
    if headers == [] then None
    else if headers[|headers| - 1].key == key then Some(headers[|headers| - 1].value)
    else
      var init := headers[..|headers| - 1];
      var r := LastValue(init, key);
      assert forall i :: 0 <= i < |init| ==> init[i] == headers[i];
      r
  }

  /** `lastHeaderValue`: the backwards scan over the headers, stopping at the first match. */
  method LastHeaderValue(headers: seq<Header>, key: string) returns (r: HeaderValue)
    ensures r == LastValue(headers, key)
  {
    var i := |headers|;
    assert headers[..i] == headers;
    while i > 0
      invariant 0 <= i <= |headers|
      invariant LastValue(headers, key) == LastValue(headers[..i], key)
    {
      LastValueOfPrefix(headers, key, i);
      i := i - 1;
      if headers[i].key == key {
        return Some(headers[i].value);
      }
    }
    assert headers[..0] == [];
    return None;
  }

  /** The lookup in the first `i` headers looks at header `i - 1` first. */
  lemma LastValueOfPrefix(headers: seq<Header>, key: string, i: nat)
    requires 0 < i <= |headers|
    ensures LastValue(headers[..i], key)
            == if headers[i - 1].key == key then Some(headers[i - 1].value) else LastValue(headers[..i - 1], key)
  {
    assert headers[..i][..i - 1] == headers[..i - 1];
  }

  /** A header appended with `key` hides every earlier value for it. */
  lemma {:induction false} AppendSameKey(headers: seq<Header>, key: string, value: Bytes)
    ensures LastValue(headers + [Header(key, value)], key) == Some(value)
  {
  }

  /** A header with another key does not change the lookup. */
  lemma {:induction false} AppendOtherKey(headers: seq<Header>, h: Header, key: string)
    requires h.key != key
    ensures LastValue(headers + [h], key) == LastValue(headers, key)
  {
    assert (headers + [h])[..|headers|] == headers;
  }

  /** The lookup depends only on the headers with that key: the last one of them wins. */
  lemma {:induction false} LastValueOfFiltered(headers: seq<Header>, key: string)
    ensures LastValue(headers, key) == LastValue(WithKey(headers, key), key)
    decreases |headers|
  {
    if headers != [] {
      var init := headers[..|headers| - 1];
      var last := headers[|headers| - 1];
      assert headers == init + [last];
      LastValueOfFiltered(init, key);
      WithKeyAppend(init, last, key);
      if last.key == key {
        AppendSameKey(WithKey(init, key), key, last.value);
      } else {
        assert WithKey(headers, key) == WithKey(init, key);
      }
    }
  }

  /** The headers that carry `key`, in order. */
  function WithKey(headers: seq<Header>, key: string): (r: seq<Header>)
    ensures forall h :: h in r ==> h.key == key
    ensures |r| <= |headers|
  {
    if headers == [] then []
    else (if headers[0].key == key then [headers[0]] else []) + WithKey(headers[1..], key)
  }

  lemma {:induction false} WithKeyAppend(headers: seq<Header>, h: Header, key: string)
    ensures WithKey(headers + [h], key) == WithKey(headers, key) + (if h.key == key then [h] else [])
    decreases |headers|
  {
    var tail := if h.key == key then [h] else [];
    if headers == [] {
      assert headers + [h] == [h] && [h][1..] == [];
    } else {
      var all := headers + [h];
      var first := if headers[0].key == key then [headers[0]] else [];
      assert all[0] == headers[0] && all[1..] == headers[1..] + [h];
      WithKeyAppend(headers[1..], h, key);
      calc {
        WithKey(all, key);
        first + WithKey(headers[1..] + [h], key);
        first + (WithKey(headers[1..], key) + tail);
        (first + WithKey(headers[1..], key)) + tail;
        WithKey(headers, key) + tail;
      }
    }
  }

  // ---------------------------------------------------------------------------------------------
  // Header values written from a C `int`: its four bytes, least significant first.

  function Int32Bytes(v: int): (b: Bytes)
    requires 0 <= v < 0x1_0000_0000
    ensures |b| == 4
  {
    var q0 := v / 256;
    var q1 := q0 / 256;
    var q2 := q1 / 256;
    [(v % 256) as byte, (q0 % 256) as byte, (q1 % 256) as byte, q2 as byte]
  }

  /** Reading the four bytes back as an `int`, as the dereference of the value's data does. */
  function Int32Value(b: Bytes): int
    requires |b| == 4
  {
    b[0] as int + 256 * b[1] as int + 0x1_0000 * b[2] as int + 0x100_0000 * b[3] as int
  }

  lemma Int32RoundTrip(v: int)
    requires 0 <= v < 0x1_0000_0000
    ensures Int32Value(Int32Bytes(v)) == v
  {
    var q0 := v / 256;
    var q1 := q0 / 256;
    var q2 := q1 / 256;
    assert v == v % 256 + 256 * q0;
    assert q0 == q0 % 256 + 256 * q1;
    assert q1 == q1 % 256 + 256 * q2;
  }

  /** The bytes of a string of 8-bit characters. */
  function StringBytes(s: string): (b: Bytes)
    requires forall i :: 0 <= i < |s| ==> s[i] as int < 256
    ensures |b| == |s| && forall i :: 0 <= i < |s| ==> b[i] as int == s[i] as int
  {
    seq(|s|, i requires 0 <= i < |s| => s[i] as int as byte)
  }

  /** The headers of the PollWithHeaders test: "k1" appears twice, first with "v1" and last with the bytes of the `int` 134. */
  const DuplicateKeyHeaders := [Header("k1", StringBytes("v1")), Header("k2", StringBytes("k2")), Header("k1", Int32Bytes(134))]

  /** The last "k1" wins, and "nonexist" is absent. */
  lemma DuplicateKeyHeadersLookup()
    ensures LastValue(DuplicateKeyHeaders, "k1") == Some(Int32Bytes(134))
    ensures LastValue(DuplicateKeyHeaders, "nonexist") == None
  {
    var headers := DuplicateKeyHeaders;
    assert headers[..2] + [headers[2]] == headers;
    AppendSameKey(headers[..2], "k1", Int32Bytes(134));
    assert !HasKey(headers, "nonexist") by {
      assert forall i :: 0 <= i < |headers| ==> headers[i].key[0] != 'n';
    }
  }

  /** The lookups of the PollWithHeaders test, on the headers as they were produced. */
  method DuplicateKeyLookup() returns (k1: HeaderValue, nonexist: HeaderValue)
    ensures ValueSize(k1) == 4 && k1.Some? && Int32Value(k1.value) == 134
    ensures nonexist.None? && ValueSize(nonexist) == 0
  {
    k1 := LastHeaderValue(DuplicateKeyHeaders, "k1");
    nonexist := LastHeaderValue(DuplicateKeyHeaders, "nonexist");
    DuplicateKeyHeadersLookup();
    Int32RoundTrip(134);
  }
}
