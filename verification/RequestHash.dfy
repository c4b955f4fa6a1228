/** The canonical request and the byte stream that is fed to SHA-256. */
module RequestHash {
  import opened Model
  import opened Text

  // ----- Canonical headers

  datatype HeaderError = InvalidHeader | DuplicateHeader

  type Headers = map<Bytes, Bytes>

  /** ()<>@,;:\"/[]?={} space and tab. */
  const SEPARATORS: set<Byte> :=
    {40, 41, 60, 62, 64, 44, 59, 58, 92, 34, 47, 91, 93, 63, 61, 123, 125, 32, 9}

  predicate NameByte(b: Byte) {
    33 <= b <= 126 && b !in SEPARATORS
  }

  predicate ValidName(name: Bytes) {
    name != [] && forall i :: 0 <= i < |name| ==> NameByte(name[i])
  }

  predicate ValueByte(b: Byte) {
    b != 13 && b != 10 && b != 127 && (b >= 32 || b == 9)
  }

  predicate ValidValue(value: Bytes) {
    forall i :: 0 <= i < |value| ==> ValueByte(value[i])
  }

  /** `token` of section 5.6.2 of RFC 9110: letters, digits and !#$%&'*+-.^_`|~ */
  predicate TokenByte(b: Byte) {
    || 48 <= b <= 57
    || 65 <= b <= 90
    || 97 <= b <= 122
    || b in {33, 35, 36, 37, 38, 39, 42, 43, 45, 46, 94, 95, 96, 124, 126}
  }

  lemma NamesAreTokens(b: Byte)
    ensures NameByte(b) <==> TokenByte(b)
  {
  }

  function CanonName(raw: Bytes): Bytes {
    ToLower(Trim(raw, WHITESPACE))
  }

  function CanonValue(raw: Bytes): Bytes {
    Trim(raw, OPTIONAL_WHITESPACE)
  }

  predicate AllValid(input: Headers) {
    forall raw | raw in input :: ValidName(CanonName(raw)) && ValidValue(input[raw])
  }

  predicate NamesDistinct(input: Headers) {
    forall a, b | a in input && b in input && CanonName(a) == CanonName(b) :: a == b
  }

  /** `output` is the canonical form of the headers named in `names`. */
  predicate CanonOf(output: Headers, input: Headers, names: set<Bytes>)
    requires names <= input.Keys
  {
    && output.Keys == (set raw | raw in names :: CanonName(raw))
    && forall raw | raw in names :: output[CanonName(raw)] == CanonValue(input[raw])
  }

  /** The loop over the Go map, which visits the entries in any order.  Success and the resulting
      map do not depend on that order; each error is only given for a defect that is there. */
  method CanonicalCallerHeaders(input: Headers) returns (result: Result<Headers, HeaderError>)
    ensures result.Ok? <==> AllValid(input) && NamesDistinct(input)
    ensures result.Ok? ==> CanonOf(result.value, input, input.Keys)
    ensures result == Err(InvalidHeader) ==> !AllValid(input)
    ensures result == Err(DuplicateHeader) ==> !NamesDistinct(input)
  {
    var headers: Headers := map[];
    var rest := input.Keys;
    ghost var done: set<Bytes> := {};
    while rest != {}
      invariant done + rest == input.Keys && done !! rest
      invariant CanonOf(headers, input, done)
      invariant forall raw | raw in done :: ValidName(CanonName(raw)) && ValidValue(input[raw])
      invariant forall a, b | a in done && b in done && CanonName(a) == CanonName(b) :: a == b
      decreases rest
    {
      var raw :| raw in rest;
      var name := CanonName(raw);
      if !ValidName(name) || !ValidValue(input[raw]) {
        return Err(InvalidHeader);
      }
      if name in headers {
        return Err(DuplicateHeader);
      }
      headers := headers[name := CanonValue(input[raw])];
      rest := rest - {raw};
      done := done + {raw};
    }
    return Ok(headers);
  }

  lemma CanonUnique(a: Headers, b: Headers, input: Headers)
    requires CanonOf(a, input, input.Keys) && CanonOf(b, input, input.Keys)
    ensures a == b
  {
  }

  // ----- Canonicalisation is idempotent

  lemma CanonNameFixed(raw: Bytes)
    ensures CanonName(CanonName(raw)) == CanonName(raw)
  {
    TrimTrims(raw, WHITESPACE);
    TrimmedStays(CanonName(raw), WHITESPACE);
    assert ToLower(CanonName(raw)) == CanonName(raw);
  }

  lemma CanonValueFixed(raw: Bytes)
    ensures CanonValue(CanonValue(raw)) == CanonValue(raw)
  {
    TrimTrims(raw, OPTIONAL_WHITESPACE);
    TrimmedStays(CanonValue(raw), OPTIONAL_WHITESPACE);
  }

  lemma {:induction false} TrimLeftPart(s: Bytes, cut: set<Byte>)
    ensures exists n | 0 <= n <= |s| :: TrimLeft(s, cut) == s[n..]
  {
    if s != [] && s[0] in cut {
      TrimLeftPart(s[1..], cut);
      var n :| 0 <= n <= |s[1..]| && TrimLeft(s[1..], cut) == s[1..][n..];
      assert s[1..][n..] == s[n + 1..];
    } else {
      assert s == s[0..];
    }
  }

  lemma CanonValueValid(raw: Bytes)
    requires ValidValue(raw)
    ensures ValidValue(CanonValue(raw))
  {
    TrimLeftPart(raw, OPTIONAL_WHITESPACE);
    TrimRightTrims(TrimLeft(raw, OPTIONAL_WHITESPACE), OPTIONAL_WHITESPACE);
  }

  /** The canonical form is accepted and is its own canonical form. */
  lemma CanonIdempotent(input: Headers, output: Headers)
    requires AllValid(input) && CanonOf(output, input, input.Keys)
    ensures AllValid(output) && NamesDistinct(output) && CanonOf(output, output, output.Keys)
  {
    forall name | name in output
      ensures CanonName(name) == name && CanonValue(output[name]) == output[name]
      ensures ValidName(name) && ValidValue(output[name])
    {
      var raw :| raw in input && CanonName(raw) == name;
      CanonNameFixed(raw);
      CanonValueFixed(input[raw]);
      CanonValueValid(input[raw]);
    }
  }

  // ----- Names in byte order

  predicate Less(a: Bytes, b: Bytes) {
    b != [] && (a == [] || a[0] < b[0] || (a[0] == b[0] && Less(a[1..], b[1..])))
  }

  lemma {:induction false} LessTotal(a: Bytes, b: Bytes)
    ensures a == b || Less(a, b) || Less(b, a)
    ensures !(Less(a, b) && Less(b, a))
    ensures !Less(a, a)
  {
    if a == [] {
    } else {
      LessTotal(a[1..], a[1..]);
    }
    if a != [] && b != [] && a[0] == b[0] {
      LessTotal(a[1..], b[1..]);
      assert a == [a[0]] + a[1..] && b == [b[0]] + b[1..];
    }
  }

  lemma {:induction false} LessTransitive(a: Bytes, b: Bytes, c: Bytes)
    requires Less(a, b) && Less(b, c)
    ensures Less(a, c)
  {
    if a != [] && a[0] == b[0] && b[0] == c[0] {
      LessTransitive(a[1..], b[1..], c[1..]);
    }
  }

  predicate Sorted(names: seq<Bytes>) {
    forall i, j :: 0 <= i < j < |names| ==> Less(names[i], names[j])
  }

  /** `names` lists `keys` once each, in byte order. */
  predicate Lists(names: seq<Bytes>, keys: set<Bytes>) {
    Sorted(names) && (set n | n in names) == keys
  }

  function Insert(name: Bytes, names: seq<Bytes>): seq<Bytes> {
    if names == [] || Less(name, names[0]) then [name] + names
    else [names[0]] + Insert(name, names[1..])
  }

  lemma {:induction false} InsertLists(name: Bytes, names: seq<Bytes>)
    requires Sorted(names) && name !in names
    ensures Sorted(Insert(name, names))
    ensures forall n :: n in Insert(name, names) <==> n == name || n in names
  {
    if names == [] {
    } else if Less(name, names[0]) {
      forall j | 0 < j < |names| ensures Less(name, names[j]) {
        LessTransitive(name, names[0], names[j]);
      }
    } else {
      InsertLists(name, names[1..]);
      LessTotal(name, names[0]);
      var tail := Insert(name, names[1..]);
      forall j | 0 <= j < |tail| ensures Less(names[0], tail[j]) {
        assert tail[j] in tail;
        if tail[j] != name {
          var k :| 0 <= k < |names[1..]| && names[1..][k] == tail[j];
          assert names[1 + k] == tail[j];
        }
      }
      assert names == [names[0]] + names[1..];
    }
  }

  lemma NoneListed(a: seq<Bytes>, b: seq<Bytes>)
    requires forall n | n in b :: n in a
    ensures a == [] ==> b == []
  {
    if b != [] {
      assert b[0] in a;
    }
  }

  /** Only one sequence lists a set of names. */
  lemma {:induction false} ListsUnique(a: seq<Bytes>, b: seq<Bytes>)
    requires Sorted(a) && Sorted(b)
    requires forall n :: n in a <==> n in b
    ensures a == b
  {
    NoneListed(a, b);
    if a == [] {
    } else {
      assert a[0] in b;
      assert b != [] && b[0] in a;
      var i :| 0 <= i < |b| && b[i] == a[0];
      var j :| 0 <= j < |a| && a[j] == b[0];
      LessTotal(a[0], b[0]);
      assert a[0] == b[0];
      forall n ensures n in a[1..] <==> n in b[1..] {
        LessTotal(a[0], n);
        assert n in a <==> n == a[0] || n in a[1..];
        assert n in b <==> n == b[0] || n in b[1..];
        if n in a[1..] {
          var k :| 0 <= k < |a[1..]| && a[1..][k] == n;
          assert Less(a[0], a[1 + k]);
        }
        if n in b[1..] {
          var k :| 0 <= k < |b[1..]| && b[1..][k] == n;
          assert Less(b[0], b[1 + k]);
        }
      }
      ListsUnique(a[1..], b[1..]);
      assert a == [a[0]] + a[1..] && b == [b[0]] + b[1..];
    }
  }

  /** Collecting the names of a map in any order and sorting them. */
  method SortedNames(headers: Headers) returns (names: seq<Bytes>)
    ensures Lists(names, headers.Keys)
  {
    names := [];
    var rest := headers.Keys;
    while rest != {}
      invariant rest <= headers.Keys
      invariant Lists(names, headers.Keys - rest)
      decreases rest
    {
      var name :| name in rest;
      assert name !in names;
      InsertLists(name, names);
      ghost var before := set n | n in names;
      names := Insert(name, names);
      assert (set n | n in names) == before + {name};
      rest := rest - {name};
    }
  }

  // ----- The length-delimited stream

  /** The k low-order bytes of n, most significant first. */
  function BigEndian(n: nat, k: nat): Bytes
    ensures |BigEndian(n, k)| == k
  {
    if k == 0 then [] else BigEndian(n / 256, k - 1) + [n % 256]
  }

  function Pow256(k: nat): nat {
    if k == 0 then 1 else 256 * Pow256(k - 1)
  }

  lemma {:induction false} BigEndianInjective(m: nat, n: nat, k: nat)
    requires m < Pow256(k) && n < Pow256(k) && BigEndian(m, k) == BigEndian(n, k)
    ensures m == n
  {
    if k == 0 {
    } else {
      var a, b := BigEndian(m, k), BigEndian(n, k);
      assert a[k - 1] == m % 256 && b[k - 1] == n % 256;
      assert a[..k - 1] == BigEndian(m / 256, k - 1) && b[..k - 1] == BigEndian(n / 256, k - 1);
      BigEndianInjective(m / 256, n / 256, k - 1);
    }
  }

  /** writeHashField: the length in eight bytes, then the field. */
  function Field(value: Bytes): Bytes {
    BigEndian(|value|, 8) + value
  }

  function Stream(fields: seq<Bytes>): Bytes {
    if fields == [] then [] else Field(fields[0]) + Stream(fields[1..])
  }

  /** Lengths fit the eight-byte counter, as those of Go strings and slices do. */
  predicate Sized(fields: seq<Bytes>) {
    forall i :: 0 <= i < |fields| ==> |fields[i]| < Pow256(8)
  }

  lemma FirstField(a: Bytes, rest: Bytes, b: Bytes, rest': Bytes)
    requires |a| < Pow256(8) && |b| < Pow256(8)
    requires Field(a) + rest == Field(b) + rest'
    ensures a == b && rest == rest'
  {
    var x, y := Field(a) + rest, Field(b) + rest';
    assert x[..8] == BigEndian(|a|, 8) && y[..8] == BigEndian(|b|, 8);
    BigEndianInjective(|a|, |b|, 8);
    assert x[8..8 + |a|] == a && y[8..8 + |b|] == b;
    assert x[8 + |a|..] == rest && y[8 + |b|..] == rest';
  }

  lemma {:induction false} StreamInjective(a: seq<Bytes>, b: seq<Bytes>)
    requires Sized(a) && Sized(b) && Stream(a) == Stream(b)
    ensures a == b
  {
    if a == [] || b == [] {
      assert |Stream(a)| == |Stream(b)|;
    } else {
      FirstField(a[0], Stream(a[1..]), b[0], Stream(b[1..]));
      StreamInjective(a[1..], b[1..]);
      assert a == [a[0]] + a[1..] && b == [b[0]] + b[1..];
    }
  }

  lemma {:induction false} StreamAppend(a: seq<Bytes>, b: seq<Bytes>)
    ensures Stream(a + b) == Stream(a) + Stream(b)
  {
    if a == [] {
      assert a + b == b;
    } else {
      StreamAppend(a[1..], b);
      assert (a + b)[0] == a[0] && (a + b)[1..] == a[1..] + b;
    }
  }

  // ----- The request

  datatype HashInput = HashInput(
    destinationId: Bytes,
    destinationVersion: int,
    method_: Bytes,
    callerHeaders: Headers,
    body: Bytes)

  predicate Int64(v: int) {
    -MAX_INT64 - 1 <= v <= MAX_INT64
  }

  /** Names and values in turn. */
  function Pairs(headers: Headers, names: seq<Bytes>): seq<Bytes>
    requires forall n | n in names :: n in headers
  {
    if names == [] then []
    else
      assert names[0] in names;
      assert forall n | n in names[1..] :: n in names;
      [names[0], headers[names[0]]] + Pairs(headers, names[1..])
  }

  /** Every field that is written, in order. */
  function Fields(input: HashInput, headers: Headers, names: seq<Bytes>): seq<Bytes>
    requires forall n | n in names :: n in headers
  {
    [input.destinationId, FormatInt(input.destinationVersion), ToUpper(input.method_)]
    + Pairs(headers, names) + [input.body]
  }

  /** `stream` is what is hashed for `input`, whose canonical headers are `headers`. */
  ghost predicate Preimage(input: HashInput, headers: Headers, stream: Bytes) {
    && CanonOf(headers, input.callerHeaders, input.callerHeaders.Keys)
    && exists names :: Lists(names, headers.Keys) && stream == Stream(Fields(input, headers, names))
  }

  lemma PairsOneMore(headers: Headers, names: seq<Bytes>, i: nat)
    requires i < |names| && forall n | n in names :: n in headers
    ensures Pairs(headers, names[..i + 1]) == Pairs(headers, names[..i]) + [names[i], headers[names[i]]]
  {
    if i == 0 {
      assert names[..1] == [names[0]] && names[..0] == [];
      assert names[..1][1..] == [];
    } else {
      PairsOneMore(headers, names[1..], i - 1);
      assert names[..i + 1][1..] == names[1..][..i] && names[..i][1..] == names[1..][..i - 1];
    }
  }

  /** writeHashField on a digest that has taken `fields` so far. */
  method Write(stream: Bytes, value: Bytes, ghost fields: seq<Bytes>) returns (stream': Bytes)
    requires stream == Stream(fields)
    ensures stream' == Stream(fields + [value])
  {
    StreamAppend(fields, [value]);
    assert [value][1..] == [];
    stream' := stream + BigEndian(|value|, 8);
    stream' := stream' + value;
  }

  method WriteHeaders(stream: Bytes, headers: Headers, names: seq<Bytes>, ghost fields: seq<Bytes>)
    returns (stream': Bytes)
    requires stream == Stream(fields)
    requires forall n | n in names :: n in headers
    ensures stream' == Stream(fields + Pairs(headers, names))
  {
    stream' := stream;
    ghost var written := fields;
    for i := 0 to |names|
      invariant stream' == Stream(written)
      invariant written == fields + Pairs(headers, names[..i])
    {
      PairsOneMore(headers, names, i);
      stream' := Write(stream', names[i], written);
      written := written + [names[i]];
      stream' := Write(stream', headers[names[i]], written);
      written := written + [headers[names[i]]];
    }
    assert names[..|names|] == names;
  }

  /** RequestHash up to the digest: the bytes written to it. */
  method RequestStream(input: HashInput) returns (result: Result<Bytes, HeaderError>, ghost headers: Headers)
    ensures result.Ok? <==> AllValid(input.callerHeaders) && NamesDistinct(input.callerHeaders)
    ensures result.Ok? ==> Preimage(input, headers, result.value)
  {
    headers := map[];
    var canonical := CanonicalCallerHeaders(input.callerHeaders);
    if canonical.Err? {
      return Err(canonical.error), headers;
    }
    headers := canonical.value;
    var names := SortedNames(canonical.value);
    var stream := Write([], input.destinationId, []);
    stream := Write(stream, FormatInt(input.destinationVersion), [input.destinationId]);
    stream := Write(stream, ToUpper(input.method_), [input.destinationId, FormatInt(input.destinationVersion)]);
    ghost var first := [input.destinationId, FormatInt(input.destinationVersion), ToUpper(input.method_)];
    assert first == [input.destinationId, FormatInt(input.destinationVersion)] + [ToUpper(input.method_)];
    stream := WriteHeaders(stream, canonical.value, names, first);
    stream := Write(stream, input.body, first + Pairs(headers, names));
    return Ok(stream), headers;
  }

  // ----- The stream identifies the request

  lemma {:induction false} PairsLength(headers: Headers, names: seq<Bytes>)
    requires forall n | n in names :: n in headers
    ensures |Pairs(headers, names)| == 2 * |names|
  {
    if names == [] {
    } else {
      PairsLength(headers, names[1..]);
    }
  }

  lemma {:induction false} PairsDetermine(a: Headers, b: Headers, xs: seq<Bytes>, ys: seq<Bytes>)
    requires forall n | n in xs :: n in a
    requires forall n | n in ys :: n in b
    requires Pairs(a, xs) == Pairs(b, ys)
    ensures xs == ys && forall n | n in xs :: a[n] == b[n]
  {
    PairsLength(a, xs);
    PairsLength(b, ys);
    if xs == [] {
    } else {
      var p, q := Pairs(a, xs), Pairs(b, ys);
      assert p[2..] == Pairs(a, xs[1..]) && q[2..] == Pairs(b, ys[1..]);
      assert p[0] == xs[0] && q[0] == ys[0] && p[1] == a[xs[0]] && q[1] == b[ys[0]];
      PairsDetermine(a, b, xs[1..], ys[1..]);
      assert xs == [xs[0]] + xs[1..] && ys == [ys[0]] + ys[1..];
    }
  }

  /** Everything the hash is meant to cover. */
  predicate SameContent(a: HashInput, headers: Headers, b: HashInput, headers': Headers) {
    && a.destinationId == b.destinationId
    && a.destinationVersion == b.destinationVersion
    && ToUpper(a.method_) == ToUpper(b.method_)
    && headers == headers'
    && a.body == b.body
  }

  /** All fields are short enough for the eight-byte length. */
  ghost predicate SizedInput(input: HashInput, headers: Headers) {
    && Int64(input.destinationVersion)
    && forall names | Lists(names, headers.Keys) :: Sized(Fields(input, headers, names))
  }

  lemma FieldsDetermine(a: HashInput, headers: Headers, xs: seq<Bytes>, b: HashInput, headers': Headers, ys: seq<Bytes>)
    requires Lists(xs, headers.Keys) && Lists(ys, headers'.Keys)
    requires Int64(a.destinationVersion) && Int64(b.destinationVersion)
    requires Fields(a, headers, xs) == Fields(b, headers', ys)
    ensures SameContent(a, headers, b, headers')
  {
    var f, g := Fields(a, headers, xs), Fields(b, headers', ys);
    var n := |f|;
    assert f[0] == a.destinationId && f[1] == FormatInt(a.destinationVersion) && f[2] == ToUpper(a.method_);
    assert g[0] == b.destinationId && g[1] == FormatInt(b.destinationVersion) && g[2] == ToUpper(b.method_);
    FormatRoundTrip(a.destinationVersion);
    FormatRoundTrip(b.destinationVersion);
    assert f[3..n - 1] == Pairs(headers, xs) && g[3..n - 1] == Pairs(headers', ys);
    assert f[n - 1] == a.body && g[n - 1] == b.body;
    PairsDetermine(headers, headers', xs, ys);
    assert headers.Keys == headers'.Keys;
    assert forall k | k in headers :: headers[k] == headers'[k];
  }

  /** Two requests are hashed from the same bytes exactly when they have the same destination,
      version, upper-case method, canonical headers and body. */
  lemma StreamIdentifiesRequest(a: HashInput, headers: Headers, s: Bytes, b: HashInput, headers': Headers, s': Bytes)
    requires Preimage(a, headers, s) && Preimage(b, headers', s')
    requires SizedInput(a, headers) && SizedInput(b, headers')
    ensures s == s' <==> SameContent(a, headers, b, headers')
  {
    var xs :| Lists(xs, headers.Keys) && s == Stream(Fields(a, headers, xs));
    var ys :| Lists(ys, headers'.Keys) && s' == Stream(Fields(b, headers', ys));
    if s == s' {
      StreamInjective(Fields(a, headers, xs), Fields(b, headers', ys));
      FieldsDetermine(a, headers, xs, b, headers', ys);
    }
    if SameContent(a, headers, b, headers') {
      assert forall n :: n in xs <==> n in headers.Keys;
      assert forall n :: n in ys <==> n in headers'.Keys;
      ListsUnique(xs, ys);
    }
  }

  /** With a digest that does not collide on the two streams, equal digests mean equal content: the
      stored hash decides between "the same request again" and a conflict. */
  lemma DigestIdentifiesRequest(digest: Bytes -> Bytes,
                                a: HashInput, headers: Headers, s: Bytes, b: HashInput, headers': Headers, s': Bytes)
    requires Preimage(a, headers, s) && Preimage(b, headers', s')
    requires SizedInput(a, headers) && SizedInput(b, headers')
    requires digest(s) == digest(s') ==> s == s'
    ensures digest(s) == digest(s') <==> SameContent(a, headers, b, headers')
  {
    StreamIdentifiesRequest(a, headers, s, b, headers', s');
  }
}
