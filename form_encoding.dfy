/**
 * The form body of the sign-in request: Go's url.Values.Encode over the two
 * fields client_id and client_secret, with url.QueryEscape escaping each key
 * and value byte by byte. The decoder (url.QueryUnescape and url.ParseQuery,
 * as the receiving server applies them) is the reference the encoder is
 * proved against.
 */
module FormEncoding {
  import opened Wrappers

  type byte = b: int | 0 <= b < 256

  const Space: byte := 32
  const Percent: byte := 37
  const Ampersand: byte := 38
  const Plus: byte := 43
  const Equals: byte := 61

  /** The bytes of an ASCII string. */
  function Ascii(s: string): seq<byte>
    requires forall i | 0 <= i < |s| :: s[i] as int < 128
  {
    seq(|s|, i requires 0 <= i < |s| => s[i] as int)
  }

  const ClientIdKey: seq<byte> := Ascii("client_id")
  const ClientSecretKey: seq<byte> := Ascii("client_secret")

  /** Bytes url.QueryEscape leaves as they are: letters, digits and - _ . ~ */
  predicate Unreserved(c: byte) {
    || ('A' as int <= c <= 'Z' as int)
    || ('a' as int <= c <= 'z' as int)
    || ('0' as int <= c <= '9' as int)
    || c == '-' as int || c == '_' as int || c == '.' as int || c == '~' as int
  }

  /** Upper-case hexadecimal digit, as url.QueryEscape writes it. */
  function HexDigit(n: int): byte
    requires 0 <= n < 16
  {
    if n < 10 then '0' as int + n else 'A' as int + (n - 10)
  }

  /** The value of a hexadecimal digit of either case, as url.QueryUnescape reads it. */
  function HexValue(c: byte): Option<int> {
    if '0' as int <= c <= '9' as int then Some(c - '0' as int)
    else if 'A' as int <= c <= 'F' as int then Some(c - 'A' as int + 10)
    else if 'a' as int <= c <= 'f' as int then Some(c - 'a' as int + 10)
    else None
  }

  /** One byte of url.QueryEscape: kept, space as '+', anything else as %XY. */
  function EscapeByte(c: byte): seq<byte> {
    if Unreserved(c) then [c]
    else if c == Space then [Plus]
    else [Percent, HexDigit(c / 16), HexDigit(c % 16)]
  }

  /** url.QueryEscape */
  function QueryEscape(s: seq<byte>): (r: seq<byte>)
    ensures Ampersand !in r && Equals !in r
    ensures |s| <= |r| <= 3 * |s|
  {
    if s == [] then [] else EscapeByte(s[0]) + QueryEscape(s[1..])
  }

  /** url.QueryUnescape: '+' is a space, %XY a byte; a malformed escape is an error. */
  function QueryUnescape(s: seq<byte>): Option<seq<byte>>
    decreases |s|
  {
    if s == [] then Some([])
    else if s[0] == Percent then
      if |s| < 3 then None
      else
        var hi, lo, rest := HexValue(s[1]), HexValue(s[2]), QueryUnescape(s[3..]);
        if hi.Some? && lo.Some? && rest.Some? then Some([hi.value * 16 + lo.value] + rest.value) else None
    else match QueryUnescape(s[1..])
      case None => None
      case Some(rest) => Some([if s[0] == Plus then Space else s[0]] + rest)
  }

  lemma HexRoundTrip(n: int)
    requires 0 <= n < 16
    ensures HexValue(HexDigit(n)) == Some(n)
  {
  }

  /** Unescaping an escaped byte string gives the byte string back. */
  lemma {:induction false} UnescapeEscape(s: seq<byte>)
    ensures QueryUnescape(QueryEscape(s)) == Some(s)
  {
    if s != [] {
      var c, rest := s[0], QueryEscape(s[1..]);
      UnescapeEscape(s[1..]);
      assert QueryEscape(s) == EscapeByte(c) + rest;
      if Unreserved(c) {
        assert ([c] + rest)[1..] == rest;
      } else if c == Space {
        assert ([Plus] + rest)[1..] == rest;
      } else {
        HexRoundTrip(c / 16);
        HexRoundTrip(c % 16);
        assert ([Percent, HexDigit(c / 16), HexDigit(c % 16)] + rest)[3..] == rest;
      }
      assert s == [s[0]] + s[1..];
    }
  }

  /** One key=value field of url.Values.Encode. */
  function Field(key: seq<byte>, value: seq<byte>): seq<byte> {
    QueryEscape(key) + [Equals] + QueryEscape(value)
  }

  /**
   * url.Values.Encode of {client_id: clientID, client_secret: clientSecret}:
   * fields in sorted key order ("client_id" sorts first), joined by '&'.
   */
  function EncodeSigninForm(clientID: seq<byte>, clientSecret: seq<byte>): seq<byte> {
    Field(ClientIdKey, clientID) + [Ampersand] + Field(ClientSecretKey, clientSecret)
  }

  /** strings.Split on a single separator byte. */
  function Split(s: seq<byte>, sep: byte): (parts: seq<seq<byte>>)
    ensures |parts| >= 1
  {
    if s == [] then [[]]
    else if s[0] == sep then [[]] + Split(s[1..], sep)
    else var r := Split(s[1..], sep); [[s[0]] + r[0]] + r[1..]
  }

  /** strings.Cut on a single separator byte: before and after its first occurrence. */
  function Cut(s: seq<byte>, sep: byte): (seq<byte>, seq<byte>) {
    if s == [] then ([], [])
    else if s[0] == sep then ([], s[1..])
    else var (before, after) := Cut(s[1..], sep); ([s[0]] + before, after)
  }

  /** One field of url.ParseQuery: the unescaped key and value around the first '='. */
  function ParseField(part: seq<byte>): Option<(seq<byte>, seq<byte>)> {
    var (k, v) := Cut(part, Equals);
    var key, value := QueryUnescape(k), QueryUnescape(v);
    if key.Some? && value.Some? then Some((key.value, value.value)) else None
  }

  /** The fields of url.ParseQuery in order, skipping empty parts. */
  function ParseFields(parts: seq<seq<byte>>): Option<seq<(seq<byte>, seq<byte>)>> {
    if parts == [] then Some([])
    else if parts[0] == [] then ParseFields(parts[1..])
    else
      var field, rest := ParseField(parts[0]), ParseFields(parts[1..]);
      if field.Some? && rest.Some? then Some([field.value] + rest.value) else None
  }

  /** url.ParseQuery, keeping the fields as an ordered list. */
  function ParseQuery(body: seq<byte>): Option<seq<(seq<byte>, seq<byte>)>> {
    ParseFields(Split(body, Ampersand))
  }

  lemma {:induction false} SplitNoSeparator(a: seq<byte>, sep: byte)
    requires sep !in a
    ensures Split(a, sep) == [a]
  {
    if a != [] {
      SplitNoSeparator(a[1..], sep);
      assert [a[0]] + a[1..] == a;
    }
  }

  lemma {:induction false} SplitAtFirst(a: seq<byte>, b: seq<byte>, sep: byte)
    requires sep !in a
    ensures Split(a + [sep] + b, sep) == [a] + Split(b, sep)
  {
    if a == [] {
      assert (a + [sep] + b)[1..] == b;
    } else {
      SplitAtFirst(a[1..], b, sep);
      assert (a + [sep] + b)[1..] == a[1..] + [sep] + b;
      assert [a[0]] + a[1..] == a;
    }
  }

  lemma {:induction false} CutAtFirst(a: seq<byte>, b: seq<byte>, sep: byte)
    requires sep !in a
    ensures Cut(a + [sep] + b, sep) == (a, b)
  {
    if a == [] {
      assert (a + [sep] + b)[1..] == b;
    } else {
      CutAtFirst(a[1..], b, sep);
      assert (a + [sep] + b)[1..] == a[1..] + [sep] + b;
      assert [a[0]] + a[1..] == a;
    }
  }

  /** A field decodes back to its key and value. */
  lemma FieldRoundTrip(key: seq<byte>, value: seq<byte>)
    ensures ParseField(Field(key, value)) == Some((key, value))
  {
    CutAtFirst(QueryEscape(key), QueryEscape(value), Equals);
    UnescapeEscape(key);
    UnescapeEscape(value);
  }

  lemma ParseTwoFields(first: seq<byte>, second: seq<byte>)
    requires first != [] && second != []
    requires ParseField(first).Some? && ParseField(second).Some?
    ensures ParseFields([first, second]) == Some([ParseField(first).value, ParseField(second).value])
  {
    var tail := [second];
    assert tail[0] == second && tail[0] != [];
    assert tail[1..] == [];
    assert ParseFields(tail[1..]) == Some([]);
    assert ParseField(tail[0]) == ParseField(second);
    assert ParseFields(tail) == Some([ParseField(tail[0]).value] + ParseFields(tail[1..]).value);
    var kv := ParseField(second).value;
    assert [kv] + ParseFields(tail[1..]).value == [kv];
    assert ParseFields(tail) == Some([kv]);
    var both := [first, second];
    assert both[0] == first && both[0] != [];
    assert both[1..] == tail;
    var kv0 := ParseField(first).value;
    assert ParseFields(both) == Some([ParseField(both[0]).value] + ParseFields(both[1..]).value);
    assert [kv0] + [kv] == [kv0, kv];
  }

  /**
   * The sign-in form decodes to exactly the two fields, client_id then
   * client_secret, carrying the two credentials unchanged.
   */
  lemma SigninFormRoundTrip(clientID: seq<byte>, clientSecret: seq<byte>)
    ensures ParseQuery(EncodeSigninForm(clientID, clientSecret))
         == Some([(ClientIdKey, clientID), (ClientSecretKey, clientSecret)])
  {
    var first, second := Field(ClientIdKey, clientID), Field(ClientSecretKey, clientSecret);
    SplitAtFirst(first, second, Ampersand);
    SplitNoSeparator(second, Ampersand);
    assert Split(EncodeSigninForm(clientID, clientSecret), Ampersand) == [first, second];
    FieldRoundTrip(ClientIdKey, clientID);
    FieldRoundTrip(ClientSecretKey, clientSecret);
    ParseTwoFields(first, second);
  }
}
