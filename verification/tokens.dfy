/**
 * `TokenService`: a bearer-token slot under the `accessToken` storage key,
 * usable only when real storage is available, and the claims it reads from
 * the token's payload segment: `exp` (section 4.1.4 of RFC 7519), `sub`
 * (section 4.1.2) and an API role.
 *
 * Reading a claim is `JSON.parse(atob(token.split('.')[1]))`. The split is
 * modelled as written; `atob` is modelled by the validity check of the
 * forgiving-base64 decoder, which accepts only the standard alphabet of
 * section 4 of RFC 4648 (not the URL-safe one of section 5); the byte
 * decoding and `JSON.parse` together are the parameter `parse`.
 */
module Tokens {
  import opened Wrappers
  import opened Auth
  import Text

  /** The claims read from a decoded payload; an absent claim, or a payload that is not an object, is `None`. */
  datatype Payload = Payload(exp: Option<int>, role: Option<string>, sub: Option<string>)

  /** The token slot, and whether a real `localStorage` is present. */
  datatype TokenStore = TokenStore(available: bool, slot: Option<string>)

  /** `mapApiRoleToUi`. */
  function MapApiRoleToUi(role: Option<string>): (r: Option<Role>)
    ensures r == Some(Admin) <==> role == Some("ROLE_ADMIN")
    ensures r == Some(Customer) <==> role == Some("ROLE_CUSTOMER")
  {
    if role == Some("ROLE_ADMIN") then Some(Admin)
    else if role == Some("ROLE_CUSTOMER") then Some(Customer)
    else None
  }

  function Save(st: TokenStore, token: string): (r: TokenStore)
    ensures r.available == st.available
    ensures !st.available ==> r == st
  {
    if st.available then st.(slot := Some(token)) else st
  }

  function Get(st: TokenStore): (r: Option<string>)
    ensures !st.available ==> r.None?
  {
    if st.available then st.slot else None
  }

  function Clear(st: TokenStore): (r: TokenStore)
    ensures r.available == st.available
    ensures !st.available ==> r == st
  {
    if st.available then st.(slot := None) else st
  }

  /** With storage, what `save` wrote `get` reads back, and after `clear` there is nothing. */
  lemma SaveGetRoundTrip(st: TokenStore, token: string)
    requires st.available
    ensures Get(Save(st, token)) == Some(token)
    ensures Get(Clear(st)) == None
    ensures Get(Clear(Save(st, token))) == None
  {
  }

  /** `token` has a value JavaScript treats as true: present and non-empty. */
  predicate Truthy(token: Option<string>) {
    token.Some? && token.value != ""
  }

  /**
   * `token.split('.')[1]`: the text after the first dot, up to the next dot
   * or the end, or `undefined` without a dot.
   */
  function SecondSegment(token: string): (r: Option<string>)
    ensures r.None? <==> '.' !in token
    ensures r.Some? ==> '.' !in r.value
    ensures r.Some? ==> var i, j := Text.IndexOf(token, '.'), Text.IndexOf(token, '.') + 1 + |r.value|;
      && i < |token| && j <= |token| && token[i + 1..j] == r.value
      && (j == |token| || token[j] == '.')
  {
    var i := Text.IndexOf(token, '.');
    if i == |token| then None
    else
      var rest := token[i + 1..];
      var n := Text.IndexOf(rest, '.');
      assert n < |rest| ==> token[i + 1 + n] == rest[n];
      Some(rest[..n])
  }

  /** Dot-free text between the first dot and the next dot, or the end, is the second segment. */
  lemma SecondSegmentOfParts(head: string, segment: string, tail: string)
    requires '.' !in head && '.' !in segment
    ensures SecondSegment(head + "." + segment) == Some(segment)
    ensures SecondSegment(head + "." + segment + "." + tail) == Some(segment)
  {
    NoDot(segment);
    assert segment[..|segment|] == segment;
    var t := head + "." + segment;
    assert t == head + ("." + segment);
    DotAfter(head, "." + segment);
    assert t[|head| + 1..] == segment;
    var u := head + "." + segment + "." + tail;
    assert u == head + ("." + segment + "." + tail);
    DotAfter(head, "." + segment + "." + tail);
    assert u[|head| + 1..] == segment + "." + tail;
    assert segment + "." + tail == segment + ("." + tail);
    DotAfter(segment, "." + tail);
    assert (segment + "." + tail)[..|segment|] == segment;
  }

  /** Behind dot-free text, the first dot is the one the rest starts with. */
  lemma {:induction false} DotAfter(head: string, rest: string)
    requires '.' !in head && |rest| > 0 && rest[0] == '.'
    ensures Text.IndexOf(head + rest, '.') == |head|
    decreases |head|
  {
    if |head| > 0 {
      assert (head + rest)[1..] == head[1..] + rest;
      assert head[0] in head;
      DotAfter(head[1..], rest);
    }
  }

  /** Dot-free text has no dot to find. */
  lemma NoDot(s: string)
    requires '.' !in s
    ensures Text.IndexOf(s, '.') == |s|
  {
  }

  /** The ASCII white space the forgiving-base64 decoder strips: TAB, LF, FF, CR and space. */
  predicate IsAsciiWhitespace(c: char) {
    c == '\t' || c == '\n' || c == '\U{000C}' || c == '\r' || c == ' '
  }

  function RemoveAsciiWhitespace(s: string): (r: string)
    ensures forall k :: 0 <= k < |r| ==> !IsAsciiWhitespace(r[k])
    ensures forall c :: c in r <==> c in s && !IsAsciiWhitespace(c)
  {
    if |s| == 0 then ""
    else if IsAsciiWhitespace(s[0]) then RemoveAsciiWhitespace(s[1..])
    else [s[0]] + RemoveAsciiWhitespace(s[1..])
  }

  lemma NoWhitespaceKept(s: string)
    requires forall k :: 0 <= k < |s| ==> !IsAsciiWhitespace(s[k])
    ensures RemoveAsciiWhitespace(s) == s
  {
  }

  /** The standard Base64 alphabet: letters, digits, `+` and `/`. */
  predicate IsBase64Char(c: char) {
    ('A' <= c <= 'Z') || ('a' <= c <= 'z') || ('0' <= c <= '9') || c == '+' || c == '/'
  }

  /**
   * When the length is a multiple of four, one or two final `=` are dropped:
   * both when the text ends in `==`, the last one when it ends in a single
   * `=`; otherwise nothing is.
   */
  function StripPadding(d: string): (r: string)
    ensures r <= d && |d| - 2 <= |r|
    ensures forall k :: |r| <= k < |d| ==> d[k] == '='
    ensures |d| % 4 != 0 ==> r == d
    ensures |d| % 4 == 0 && |d| >= 2 && d[|d| - 2] == '=' && d[|d| - 1] == '=' ==> |r| == |d| - 2
    ensures |d| % 4 == 0 && |d| >= 1 && d[|d| - 1] == '=' ==> |r| < |d|
  {
    if |d| % 4 == 0 && |d| >= 2 && d[|d| - 2..] == "==" then
      assert d[|d| - 2] == d[|d| - 2..][0] && d[|d| - 1] == d[|d| - 2..][1];
      d[..|d| - 2]
    else if |d| % 4 == 0 && |d| >= 1 && d[|d| - 1] == '=' then d[..|d| - 1]
    else d
  }

  /**
   * The failure checks of `atob` (the forgiving-base64 decode): after removing
   * white space and padding, the length must not leave remainder 1 and every
   * character must be in the standard alphabet.
   */
  predicate AtobAccepts(data: string) {
    var unpadded := StripPadding(RemoveAsciiWhitespace(data));
    |unpadded| % 4 != 1 && forall k :: 0 <= k < |unpadded| ==> IsBase64Char(unpadded[k])
  }

  /** Text without white space whose length leaves remainder 1 is rejected: no padding is stripped. */
  lemma RemainderOneRejected(s: string)
    requires forall k :: 0 <= k < |s| ==> !IsAsciiWhitespace(s[k])
    requires |s| % 4 == 1
    ensures !AtobAccepts(s)
  {
    NoWhitespaceKept(s);
  }

  /** `atob(undefined)` decodes the nine characters "undefined", which leave remainder 1. */
  lemma AtobRejectsUndefined()
    ensures !AtobAccepts("undefined")
  {
    RemainderOneRejected("undefined");
  }

  /**
   * The payload of `token`, or `None` where the source's `try` block throws:
   * `atob` rejects the segment (a missing segment reaches `atob` as the text
   * "undefined") or `parse` rejects the decoded text.
   */
  function Decode(token: string, parse: string -> Option<Payload>): (r: Option<Payload>)
    ensures r.Some? ==> SecondSegment(token).Some? && AtobAccepts(SecondSegment(token).value)
    ensures SecondSegment(token).Some? && AtobAccepts(SecondSegment(token).value) ==> r == parse(SecondSegment(token).value)
  {
    var segment := SecondSegment(token).GetOr("undefined");
    AtobRejectsUndefined();
    if AtobAccepts(segment) then parse(segment) else None
  }

  /**
   * `isExpired` at time `nowMs` (milliseconds): fails closed when there is no
   * token or it does not decode, is false when `exp` is absent or zero, and
   * otherwise compares the clock with `exp` seconds.
   */
  function IsExpired(st: TokenStore, nowMs: int, parse: string -> Option<Payload>): (r: bool)
    ensures !Truthy(Get(st)) ==> r
    ensures Truthy(Get(st)) && Decode(Get(st).value, parse).None? ==> r
  {
    var token := Get(st);
    if !Truthy(token) then true
    else
      match Decode(token.value, parse)
      case None => true
      case Some(payload) =>
        if payload.exp.None? || payload.exp.value == 0 then false
        else nowMs >= payload.exp.value * 1000
  }

  /** The cases of `isExpired` that a decoded payload decides. */
  lemma IsExpiredOnPayload(st: TokenStore, nowMs: int, parse: string -> Option<Payload>, p: Payload)
    requires Truthy(Get(st)) && Decode(Get(st).value, parse) == Some(p)
    ensures p.exp.None? ==> !IsExpired(st, nowMs, parse)
    ensures p.exp == Some(0) ==> !IsExpired(st, nowMs, parse)
    ensures p.exp.Some? && p.exp.value != 0 ==> (IsExpired(st, nowMs, parse) <==> nowMs >= p.exp.value * 1000)
  {
  }

  /** `getRole`: the mapped role claim, or `None` with no token or on a decode failure. */
  function GetRole(st: TokenStore, parse: string -> Option<Payload>): (r: Option<Role>)
    ensures !Truthy(Get(st)) ==> r.None?
    ensures r.Some? ==> Decode(Get(st).value, parse).Some?
    ensures r.Some? ==> MapApiRoleToUi(Decode(Get(st).value, parse).value.role) == r
    ensures Truthy(Get(st)) && Decode(Get(st).value, parse).Some? ==>
      r == MapApiRoleToUi(Decode(Get(st).value, parse).value.role)
  {
    var token := Get(st);
    if !Truthy(token) then None
    else
      match Decode(token.value, parse)
      case None => None
      case Some(payload) => MapApiRoleToUi(payload.role)
  }

  /** `getEmail`: the `sub` claim, or `None` with no token, on a decode failure or without `sub`. */
  function GetEmail(st: TokenStore, parse: string -> Option<Payload>): (r: Option<string>)
    ensures !Truthy(Get(st)) ==> r.None?
    ensures r.Some? ==> Decode(Get(st).value, parse).Some?
    ensures r.Some? ==> Decode(Get(st).value, parse).value.sub == r
    ensures Truthy(Get(st)) && Decode(Get(st).value, parse).Some? ==> r == Decode(Get(st).value, parse).value.sub
  {
    var token := Get(st);
    if !Truthy(token) then None
    else
      match Decode(token.value, parse)
      case None => None
      case Some(payload) => payload.sub
  }

  /**
   * A token whose payload segment uses the URL-safe characters `-` or `_`
   * never decodes, whatever `parse` does, so it reads as expired and carries
   * neither role nor email.
   */
  lemma UrlSafePayloadFailsClosed(st: TokenStore, nowMs: int, parse: string -> Option<Payload>)
    requires Truthy(Get(st))
    requires SecondSegment(Get(st).value).Some?
    requires '-' in SecondSegment(Get(st).value).value || '_' in SecondSegment(Get(st).value).value
    ensures Decode(Get(st).value, parse).None?
    ensures IsExpired(st, nowMs, parse)
    ensures GetRole(st, parse).None? && GetEmail(st, parse).None?
  {
    var segment := SecondSegment(Get(st).value).value;
    var d := RemoveAsciiWhitespace(segment);
    var c := if '-' in segment then '-' else '_';
    assert c in d;
    var k :| 0 <= k < |d| && d[k] == c;
    var unpadded := StripPadding(d);
    assert k < |unpadded| && unpadded[k] == c;
    assert !AtobAccepts(segment);
  }

  /** A token without a dot never decodes: the "undefined" that reaches `atob` has a length of 9. */
  lemma NoDotFailsClosed(st: TokenStore, nowMs: int, parse: string -> Option<Payload>)
    requires Truthy(Get(st)) && '.' !in Get(st).value
    ensures IsExpired(st, nowMs, parse)
    ensures GetRole(st, parse).None? && GetEmail(st, parse).None?
  {
    AtobRejectsUndefined();
  }
}
