/** The OAuth install entry point (src/app/api/auth/route.ts): the store
    domain is normalised and the browser is sent to the store's
    authorization page with the app's key, the requested scopes, the
    callback address and a random state. */
module Auth {
  import opened Results
  import opened Text

  const StoreSuffix: string := ".myshopify.com"

  /** The scopes the app asks for (src/lib/shopify-app.ts). */
  const DefaultScopes: seq<string> := ["read_products", "write_products", "read_customers", "read_orders"]

  /** A shop name as given, or with the store suffix added when it does not
      contain it already. */
  function ShopDomain(shop: string): (r: string)
    ensures Contains(r, StoreSuffix)
    ensures r == shop <==> Contains(shop, StoreSuffix)
    ensures !Contains(shop, StoreSuffix) ==> r == shop + StoreSuffix
  {
    if Contains(shop, StoreSuffix) then shop
    else
      ContainsConcat(shop, StoreSuffix, StoreSuffix);
      shop + StoreSuffix
  }

  /** Normalising twice is normalising once. */
  lemma ShopDomainIdempotent(shop: string)
    ensures ShopDomain(ShopDomain(shop)) == ShopDomain(shop)
  {
  }

  /** `items.join(sep)`. */
  function Join(items: seq<string>, sep: char): (r: string)
    ensures |items| == 1 ==> r == items[0]
    ensures |items| >= 2 ==> StartsWith(r, items[0] + [sep])
  {
    if items == [] then "" else if |items| == 1 then items[0] else items[0] + [sep] + Join(items[1..], sep)
  }

  /** Joining pieces that do not contain the separator and splitting the
      result again gives the pieces back. */
  lemma {:induction false} JoinSplitRoundTrip(items: seq<string>, sep: char)
    requires |items| > 0
    requires forall k :: 0 <= k < |items| ==> sep !in items[k]
    ensures SplitOn(Join(items, sep), sep) == items
    decreases |items|
  {
    if |items| == 1 {
      SplitOnNone(items[0], sep);
    } else {
      SplitOnAppend(items[0], sep, Join(items[1..], sep));
      JoinSplitRoundTrip(items[1..], sep);
    }
  }

  // ---------------------------------------------------------------------
  // `encodeURIComponent`.

  /** The characters `encodeURIComponent` leaves as they are: the unreserved
      characters of RFC 3986 (letters, digits, `-`, `.`, `_`, `~`) and also
      `!`, `'`, `(`, `)` and `*`. */
  predicate Unescaped(c: char) {
    ('A' <= c <= 'Z') || ('a' <= c <= 'z') || ('0' <= c <= '9') ||
    c == '-' || c == '_' || c == '.' || c == '!' || c == '~' || c == '*' || c == '\'' || c == '(' || c == ')'
  }

  /** Upper-case hexadecimal digits, as percent-encoding writes them. */
  predicate IsHexUpper(c: char) {
    ('0' <= c <= '9') || ('A' <= c <= 'F')
  }

  function HexDigit(d: nat): (c: char)
    requires d < 16
    ensures IsHexUpper(c)
  {
    if d < 10 then ('0' as int + d) as char else ('A' as int + d - 10) as char
  }

  /** The UTF-8 encoding of one character. */
  function Utf8(c: char): (bytes: seq<nat>)
    ensures 1 <= |bytes| <= 4 && forall k :: 0 <= k < |bytes| ==> bytes[k] < 256
  {
    var n := c as int;
    if n < 0x80 then [n]
    else if n < 0x800 then [0xC0 + n / 64, 0x80 + n % 64]
    else if n < 0x10000 then [0xE0 + n / 64 / 64, 0x80 + n / 64 % 64, 0x80 + n % 64]
    else [0xF0 + n / 64 / 64 / 64, 0x80 + n / 64 / 64 % 64, 0x80 + n / 64 % 64, 0x80 + n % 64]
  }

  /** `%XY` for each byte. */
  function PercentBytes(bytes: seq<nat>): (r: string)
    requires forall k :: 0 <= k < |bytes| ==> bytes[k] < 256
    ensures |r| == 3 * |bytes|
    ensures forall k :: 0 <= k < |r| ==> r[k] == '%' || IsHexUpper(r[k])
    ensures bytes != [] ==> r[0] == '%'
  {
    if bytes == [] then ""
    else ['%', HexDigit(bytes[0] / 16), HexDigit(bytes[0] % 16)] + PercentBytes(bytes[1..])
  }

  /** One character as `encodeURIComponent` writes it. */
  function EncodeChar(c: char): (r: string)
    ensures Unescaped(c) ==> r == [c]
    ensures !Unescaped(c) ==> 3 <= |r| && r[0] == '%'
    ensures forall k :: 0 <= k < |r| ==> Unescaped(r[k]) || r[k] == '%'
  {
    if Unescaped(c) then [c] else PercentBytes(Utf8(c))
  }

  /** `encodeURIComponent(s)`. Its output consists of unescaped characters
      and `%` only, so it never contains the `&`, `=`, `?` or `#` that
      delimit a URL's query. */
  function EncodeURIComponent(s: string): (r: string)
    ensures |r| >= |s|
    ensures forall k :: 0 <= k < |r| ==> Unescaped(r[k]) || r[k] == '%'
    ensures '&' !in r && '=' !in r && '?' !in r && '#' !in r
  {
    if s == [] then ""
    else
      var head, tail := EncodeChar(s[0]), EncodeURIComponent(s[1..]);
      assert forall k :: 0 <= k < |head + tail| ==>
        (head + tail)[k] == (if k < |head| then head[k] else tail[k - |head|]);
      head + tail
  }

  /** Encoding works character by character: encoding a concatenation is
      concatenating the encodings. */
  lemma {:induction false} EncodeConcat(a: string, b: string)
    ensures EncodeURIComponent(a + b) == EncodeURIComponent(a) + EncodeURIComponent(b)
    decreases |a|
  {
    if a == [] {
      assert a + b == b;
    } else {
      assert (a + b)[1..] == a[1..] + b;
      EncodeConcat(a[1..], b);
    }
  }

  /** A string is left unchanged by encoding exactly when all its characters
      are unescaped ones. */
  lemma {:induction false} EncodeIdentityIff(s: string)
    ensures EncodeURIComponent(s) == s <==> forall k :: 0 <= k < |s| ==> Unescaped(s[k])
    decreases |s|
  {
    if s != [] {
      EncodeIdentityIff(s[1..]);
      var head, tail := EncodeChar(s[0]), EncodeURIComponent(s[1..]);
      if Unescaped(s[0]) {
        assert EncodeURIComponent(s) == [s[0]] + tail;
        assert s == [s[0]] + s[1..];
        assert (forall k :: 0 <= k < |s| ==> Unescaped(s[k])) <==>
               (forall k :: 0 <= k < |s[1..]| ==> Unescaped(s[1..][k])) by {
          assert forall k :: 1 <= k < |s| ==> s[k] == s[1..][k - 1];
        }
      } else {
        assert |EncodeURIComponent(s)| >= 3 + |s| - 1;
      }
    }
  }

  // ---------------------------------------------------------------------
  // Reading an encoding back: percent-decoding and UTF-8 decoding, as
  // `decodeURIComponent` does for upper-case escapes.

  function HexValue(c: char): (d: nat)
    requires IsHexUpper(c)
    ensures d < 16
  {
    if '0' <= c <= '9' then c as int - '0' as int else c as int - 'A' as int + 10
  }

  /** The byte written as `%XY` at the start of `r`, if there is one. */
  function LeadByte(r: string): Option<nat> {
    if 3 <= |r| && r[0] == '%' && IsHexUpper(r[1]) && IsHexUpper(r[2])
    then Some(16 * HexValue(r[1]) + HexValue(r[2])) else None
  }

  /** The bytes of a run of `%XY` escapes. */
  function PercentDecode(r: string): Option<seq<nat>>
    decreases |r|
  {
    if r == [] then Some([])
    else
      var b :- LeadByte(r);
      var rest :- PercentDecode(r[3..]);
      Some([b] + rest)
  }

  /** How many bytes the UTF-8 sequence that starts with byte `b` has. */
  function SequenceLength(b: nat): nat {
    if b < 0x80 then 1 else if b < 0xE0 then 2 else if b < 0xF0 then 3 else 4
  }

  /** The character a UTF-8 sequence of one to four bytes stands for, when
      it stands for one. */
  function Utf8Char(bytes: seq<nat>): Option<char>
    requires 1 <= |bytes| <= 4
  {
    var b: seq<int> := bytes;
    var v :=
      if |b| == 1 then b[0]
      else if |b| == 2 then (b[0] - 0xC0) * 64 + (b[1] - 0x80)
      else if |b| == 3 then ((b[0] - 0xE0) * 64 + (b[1] - 0x80)) * 64 + (b[2] - 0x80)
      else (((b[0] - 0xF0) * 64 + (b[1] - 0x80)) * 64 + (b[2] - 0x80)) * 64 + (b[3] - 0x80);
    if 0 <= v < 0xD800 || 0xE000 <= v < 0x11_0000 then Some(v as char) else None
  }

  /** `decodeURIComponent(r)` for upper-case escapes: plain characters stay,
      and each run of escapes is read as one UTF-8 sequence. */
  function DecodeURIComponent(r: string): Option<string>
    decreases |r|
  {
    if r == [] then Some([])
    else if r[0] != '%' then
      var rest :- DecodeURIComponent(r[1..]);
      Some([r[0]] + rest)
    else
      var b :- LeadByte(r);
      var n := 3 * SequenceLength(b);
      if |r| < n then None
      else
        var bytes :- PercentDecode(r[..n]);
        if !(1 <= |bytes| <= 4) then None
        else
          var c :- Utf8Char(bytes);
          var rest :- DecodeURIComponent(r[n..]);
          Some([c] + rest)
  }

  lemma HexRoundTrip(d: nat)
    requires d < 16
    ensures HexValue(HexDigit(d)) == d
  {
  }

  /** The escapes of a byte sequence read back as that sequence. */
  lemma {:induction false} PercentBytesRoundTrip(bytes: seq<nat>)
    requires forall k :: 0 <= k < |bytes| ==> bytes[k] < 256
    ensures PercentDecode(PercentBytes(bytes)) == Some(bytes)
    decreases |bytes|
  {
    if bytes != [] {
      var r := PercentBytes(bytes);
      HexRoundTrip(bytes[0] / 16);
      HexRoundTrip(bytes[0] % 16);
      assert LeadByte(r) == Some(bytes[0]);
      assert r[3..] == PercentBytes(bytes[1..]);
      PercentBytesRoundTrip(bytes[1..]);
      assert [bytes[0]] + bytes[1..] == bytes;
    }
  }

  /** A character's UTF-8 bytes announce their own number in the first byte
      and decode back to the character. */
  lemma Utf8RoundTrip(c: char)
    ensures SequenceLength(Utf8(c)[0]) == |Utf8(c)|
    ensures Utf8Char(Utf8(c)) == Some(c)
  {
    var n := c as int;
    if n < 0x80 {
    } else if n < 0x800 {
      assert n / 64 * 64 + n % 64 == n;
    } else if n < 0x10000 {
      assert n / 64 / 64 * 64 + n / 64 % 64 == n / 64;
      assert n / 64 * 64 + n % 64 == n;
    } else {
      assert n / 64 / 64 / 64 * 64 + n / 64 / 64 % 64 == n / 64 / 64;
      assert n / 64 / 64 * 64 + n / 64 % 64 == n / 64;
      assert n / 64 * 64 + n % 64 == n;
    }
  }

  /** Decoding reads one encoded character off the front of any text. */
  lemma DecodeEncodeChar(c: char, rest: string)
    ensures DecodeURIComponent(EncodeChar(c) + rest) ==
      if DecodeURIComponent(rest).Some? then Some([c] + DecodeURIComponent(rest).value) else None
  {
    var r := EncodeChar(c) + rest;
    if Unescaped(c) {
      assert r[0] == c && r[1..] == rest;
    } else {
      var u := Utf8(c);
      var n := 3 * |u|;
      Utf8RoundTrip(c);
      HexRoundTrip(u[0] / 16);
      HexRoundTrip(u[0] % 16);
      assert r[..3] == PercentBytes(u)[..3];
      assert LeadByte(r) == Some(u[0]);
      assert r[..n] == PercentBytes(u) && r[n..] == rest;
      PercentBytesRoundTrip(u);
    }
  }

  /** Decoding an encoding gives the string back. */
  lemma {:induction false} DecodeEncodeRoundTrip(s: string)
    ensures DecodeURIComponent(EncodeURIComponent(s)) == Some(s)
    decreases |s|
  {
    if s != [] {
      DecodeEncodeRoundTrip(s[1..]);
      DecodeEncodeChar(s[0], EncodeURIComponent(s[1..]));
      assert [s[0]] + s[1..] == s;
    }
  }

  /** Different strings have different encodings. */
  lemma EncodeInjective(a: string, b: string)
    ensures EncodeURIComponent(a) == EncodeURIComponent(b) ==> a == b
  {
    DecodeEncodeRoundTrip(a);
    DecodeEncodeRoundTrip(b);
  }

  // ---------------------------------------------------------------------
  // The authorization redirect.

  /** What the endpoint answers: a JSON error with a status, or a redirect. */
  datatype AuthResponse = ErrorReply(status: int, error: string) | Redirect(location: string)

  /** `Math.random().toString(36).substring(7)`, from the random number's
      base-36 text. */
  function StateOf(random36: string): (state: string)
    ensures |state| == if |random36| <= 7 then 0 else |random36| - 7
    ensures forall k :: 0 <= k < |state| ==> state[k] == random36[k + 7]
    ensures IsBase36Text(random36) ==> IsBase36Text(state)
  {
    if |random36| <= 7 then "" else random36[7..]
  }

  /** The text `Number.prototype.toString(36)` writes: base-36 digits and a point. */
  predicate IsBase36Text(t: string) {
    forall k :: 0 <= k < |t| ==> ('0' <= t[k] <= '9') || ('a' <= t[k] <= 'z') || t[k] == '.'
  }

  /** The start of every authorize URL for a store. */
  function AuthorizeBase(shopDomain: string): string {
    "https://" + shopDomain + "/admin/oauth/authorize?"
  }

  /** The query parameters of the authorize URL, in order. */
  function AuthorizeParams(apiKey: string, scopes: seq<string>, appUrl: string, state: string): seq<string> {
    ["client_id=" + apiKey,
     "scope=" + EncodeURIComponent(Join(scopes, ',')),
     "redirect_uri=" + EncodeURIComponent(appUrl + "/api/auth/callback"),
     "state=" + state]
  }

  /** The authorize URL: the store's authorize page, then the app key, the
      encoded comma-joined scopes, the encoded callback address and the state. */
  function AuthorizeUrl(shopDomain: string, apiKey: string, appUrl: string, scopes: seq<string>,
                        state: string): (url: string)
    ensures StartsWith(url, AuthorizeBase(shopDomain))
  {
    var base := AuthorizeBase(shopDomain);
    var ps := AuthorizeParams(apiKey, scopes, appUrl, state);
    var query := ps[0] + "&" + ps[1] + "&" + ps[2] + "&" + ps[3];
    assert (base + query)[..|base|] == base;
    base + query
  }

  /** `GET /api/auth?shop=...`: a missing or empty `shop` is a 400 error;
      otherwise the authorize URL of the normalised store, with the state
      taken from the random number's text. Building the redirect parses that
      URL (`parsesAsUrl` is the URL parser's verdict); a URL it rejects, such
      as one whose host holds a space, makes the handler answer 500. */
  function Begin(shop: Option<string>, apiKey: string, appUrl: string, scopes: seq<string>,
                 random36: string, parsesAsUrl: string -> bool): (r: AuthResponse)
    ensures r == ErrorReply(400, "Missing shop parameter") <==> shop.None? || shop.value == ""
    ensures r == ErrorReply(500, "Authentication failed") <==>
      shop.Some? && shop.value != "" &&
      !parsesAsUrl(AuthorizeUrl(ShopDomain(shop.value), apiKey, appUrl, scopes, StateOf(random36)))
    ensures r.Redirect? ==>
      r.location == AuthorizeUrl(ShopDomain(shop.value), apiKey, appUrl, scopes, StateOf(random36)) &&
      StartsWith(r.location, AuthorizeBase(ShopDomain(shop.value))) && parsesAsUrl(r.location)
  {
    if shop.None? || shop.value == "" then ErrorReply(400, "Missing shop parameter")
    else
      var url := AuthorizeUrl(ShopDomain(shop.value), apiKey, appUrl, scopes, StateOf(random36));
      if parsesAsUrl(url) then Redirect(url) else ErrorReply(500, "Authentication failed")
  }

  /** Four `&`-free pieces joined by `&` split back into those pieces. */
  lemma SplitFour(p0: string, p1: string, p2: string, p3: string)
    requires '&' !in p0 && '&' !in p1 && '&' !in p2 && '&' !in p3
    ensures SplitOn(p0 + ['&'] + (p1 + ['&'] + (p2 + ['&'] + p3)), '&') == [p0, p1, p2, p3]
  {
    var t2 := p2 + ['&'] + p3;
    var t1 := p1 + ['&'] + t2;
    SplitOnNone(p3, '&');
    SplitOnAppend(p2, '&', p3);
    SplitOnAppend(p1, '&', t2);
    SplitOnAppend(p0, '&', t1);
  }

  /** The base-36 state has no `&`. */
  lemma StateHasNoAmpersand(random36: string)
    requires IsBase36Text(random36)
    ensures '&' !in StateOf(random36)
  {
    var state := StateOf(random36);
    assert forall k :: 0 <= k < |state| ==> state[k] == random36[k + 7];
  }

  /** The authorize URL carries exactly four query parameters, in the order
      client_id, scope, redirect_uri, state, with the app key, the encoded
      comma-joined scopes, the encoded callback address and the state as
      values. This needs only that the key has no `&`: the encoded values
      cannot contain one, and neither can the base-36 state. */
  lemma AuthorizeQueryParams(shop: string, apiKey: string, appUrl: string,
                             scopes: seq<string>, random36: string)
    requires '&' !in apiKey && IsBase36Text(random36)
    ensures var url := AuthorizeUrl(ShopDomain(shop), apiKey, appUrl, scopes, StateOf(random36));
      var base := AuthorizeBase(ShopDomain(shop));
      StartsWith(url, base) &&
      SplitOn(url[|base|..], '&') == AuthorizeParams(apiKey, scopes, appUrl, StateOf(random36))
  {
    var domain := ShopDomain(shop);
    var base := AuthorizeBase(domain);
    var state := StateOf(random36);
    StateHasNoAmpersand(random36);
    var ps := AuthorizeParams(apiKey, scopes, appUrl, state);
    var url := AuthorizeUrl(domain, apiKey, appUrl, scopes, state);
    var query := ps[0] + "&" + ps[1] + "&" + ps[2] + "&" + ps[3];
    assert url[|base|..] == query;
    assert query == ps[0] + ['&'] + (ps[1] + ['&'] + (ps[2] + ['&'] + ps[3])) by {
      var amp := ['&'];
      assert "&" == amp;
    }
    SplitFour(ps[0], ps[1], ps[2], ps[3]);
  }

  /** The app's own scopes contain no comma, so the scope list is recovered
      from its comma-joined form. */
  lemma DefaultScopesRecovered()
    ensures SplitOn(Join(DefaultScopes, ','), ',') == DefaultScopes
  {
    assert forall k :: 0 <= k < |DefaultScopes| ==> ',' !in DefaultScopes[k];
    JoinSplitRoundTrip(DefaultScopes, ',');
  }
}
