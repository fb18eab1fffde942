/**
 * URL signing (src/use-directus-token.ts): building a query string, reading the
 * bearer token from the API client's default headers, and attaching it to an
 * asset URL as `access_token`.
 */
module DirectusToken {
  import opened Optional
  import opened Strings

  /** One `[key, value]` pair of `Object.entries(query)`, the value already in its string form. */
  datatype QueryEntry = QueryEntry(key: string, value: string)

  /**
   * The two places the API client may keep its `Authorization` header:
   * `defaults.headers.Authorization` and `defaults.headers.common.Authorization`.
   */
  datatype Headers = Headers(authorization: Option<string>, commonAuthorization: Option<string>)

  /** The `${key}=${value}` text pushed for one entry. */
  function FormatEntry(e: QueryEntry): string
  {
    e.key + "=" + e.value
  }

  /** The `queryParams` array the loop builds, one text per entry. */
  function FormatEntries(query: seq<QueryEntry>): seq<string>
  {
    seq(|query|, k requires 0 <= k < |query| => FormatEntry(query[k]))
  }

  /** `queryParams.join('&')` */
  function QueryString(query: seq<QueryEntry>): string
  {
    Join(FormatEntries(query), '&')
  }

  /** `&` when the path already carries a query, `?` otherwise. */
  function Separator(path: string): char
  {
    if '?' in path then '&' else '?'
  }

  /** The value `addQueryToPath(path, query)` returns. */
  function WithQuery(path: string, query: seq<QueryEntry>): string
  {
    path + [Separator(path)] + QueryString(query)
  }

  /** `addQueryToPath`: pushes `key=value` per entry in a loop, then joins them onto the path. */
  method AddQueryToPath(path: string, query: seq<QueryEntry>) returns (r: string)
    ensures r == WithQuery(path, query)
    ensures |r| > |path| && r[..|path|] == path
    ensures r[|path|] == '&' <==> '?' in path
    ensures r[|path|] == '?' <==> '?' !in path
  {
    var queryParams: seq<string> := [];
    for i := 0 to |query|
      invariant |queryParams| == i
      invariant forall k :: 0 <= k < i ==> queryParams[k] == FormatEntry(query[k])
    {
      queryParams := queryParams + [FormatEntry(query[i])];
    }
    assert queryParams == FormatEntries(query);
    if '?' in path {
      r := path + "&" + Join(queryParams, '&');
    } else {
      r := path + "?" + Join(queryParams, '&');
    }
  }

  /** Reading a query string back: split on `&`, then each piece at its first `=`. */
  function ParseEntry(piece: string): QueryEntry
  {
    if '=' in piece then
      var i := IndexOf(piece, '=');
      QueryEntry(piece[..i], piece[i + 1..])
    else QueryEntry(piece, "")
  }

  function ParseQuery(s: string): seq<QueryEntry>
  {
    var pieces := Split(s, '&');
    seq(|pieces|, k requires 0 <= k < |pieces| => ParseEntry(pieces[k]))
  }

  /** Entries whose text survives the `key=value&...` encoding unambiguously. */
  predicate Encodable(query: seq<QueryEntry>)
  {
    && |query| >= 1
    && forall k :: 0 <= k < |query| ==>
         '&' !in query[k].key && '&' !in query[k].value && '=' !in query[k].key
  }

  /**
   * The text after the separator holds every entry, in entry order: parsing it
   * gives the entries back.
   */
  lemma QueryStringRoundTrip(query: seq<QueryEntry>)
    requires Encodable(query)
    ensures ParseQuery(QueryString(query)) == query
  {
    var parts := FormatEntries(query);
    forall k | 0 <= k < |parts| ensures '&' !in parts[k] {
      assert parts[k] == query[k].key + "=" + query[k].value;
    }
    SplitJoin(parts, '&');
    forall k | 0 <= k < |query| ensures ParseEntry(parts[k]) == query[k] {
      IndexOfAfter(query[k].key, '=', query[k].value);
      assert parts[k] == query[k].key + ['='] + query[k].value;
    }
  }

  /** `addQueryToPath` keeps the path and appends the entries, readable back after the separator. */
  lemma AddQueryToPathDecodes(path: string, query: seq<QueryEntry>)
    requires Encodable(query)
    ensures var r := WithQuery(path, query);
      && r[..|path|] == path
      && (r[|path|] == '&' <==> '?' in path)
      && ParseQuery(r[|path| + 1..]) == query
  {
    var r := WithQuery(path, query);
    assert r[|path| + 1..] == QueryString(query);
    QueryStringRoundTrip(query);
  }

  /** JavaScript truthiness of an optional string: present and not empty. */
  predicate Truthy(s: Option<string>)
  {
    s.Some? && s.value != ""
  }

  /** `header?.split(' ')[1]`: the second space-separated field, or `undefined`. */
  function SecondField(header: Option<string>): (field: Option<string>)
    ensures field.Some? ==> ' ' !in field.value
  {
    match header
    case None => None
    case Some(h) =>
      var fields := Split(h, ' ');
      if |fields| > 1 then Some(fields[1]) else None
  }

  /**
   * `getToken`: the second field of the top-level header if truthy, else that of
   * the common header if truthy, else `null`.
   */
  function GetToken(headers: Headers): (token: Option<string>)
    ensures token.Some? ==> token.value != "" && ' ' !in token.value
    ensures token.None? <==>
      !Truthy(SecondField(headers.authorization)) && !Truthy(SecondField(headers.commonAuthorization))
    ensures Truthy(SecondField(headers.authorization)) ==> token == SecondField(headers.authorization)
    ensures !Truthy(SecondField(headers.authorization)) && Truthy(SecondField(headers.commonAuthorization)) ==>
      token == SecondField(headers.commonAuthorization)
  {
    var top := SecondField(headers.authorization);
    var common := SecondField(headers.commonAuthorization);
    if Truthy(top) then top else if Truthy(common) then common else None
  }

  /** A header written the way the API client writes one: `<scheme> <token>`. */
  function AuthorizationHeader(scheme: string, token: string): string
  {
    scheme + " " + token
  }

  /** `getToken` reads back the token of a `<scheme> <token>` header. */
  lemma {:induction false} SecondFieldOfHeader(scheme: string, token: string)
    requires ' ' !in scheme && ' ' !in token
    ensures SecondField(Some(AuthorizationHeader(scheme, token))) == Some(token)
  {
    SplitJoin([scheme, token], ' ');
    assert Join([scheme, token], ' ') == AuthorizationHeader(scheme, token);
  }

  /** The common header is consulted only when the top-level one yields nothing. */
  lemma GetTokenFromCommonHeader(scheme: string, token: string, top: Option<string>)
    requires ' ' !in scheme && ' ' !in token && token != ""
    requires !Truthy(SecondField(top))
    ensures GetToken(Headers(top, Some(AuthorizationHeader(scheme, token)))) == Some(token)
  {
    SecondFieldOfHeader(scheme, token);
  }

  /** `token || getToken()`: the explicit token when truthy, else the one from the headers. */
  function AccessToken(headers: Headers, token: Option<string>): Option<string>
  {
    if Truthy(token) then token else GetToken(headers)
  }

  /** `addTokenToURL(url, token)` */
  function AddTokenToURL(headers: Headers, url: string, token: Option<string>): (r: string)
    ensures |r| >= |url| && r[..|url|] == url
    ensures r == url <==> !Truthy(AccessToken(headers, token))
  {
    var accessToken := AccessToken(headers, token);
    if !Truthy(accessToken) then url
    else WithQuery(url, [QueryEntry("access_token", accessToken.value)])
  }

  /** With a token, the URL gains exactly `access_token=<token>` behind the separator. */
  lemma AddTokenAppends(headers: Headers, url: string, token: Option<string>)
    requires Truthy(AccessToken(headers, token))
    ensures AddTokenToURL(headers, url, token)
         == url + [Separator(url)] + "access_token=" + AccessToken(headers, token).value
  {
    var e := QueryEntry("access_token", AccessToken(headers, token).value);
    assert FormatEntries([e]) == [FormatEntry(e)];
  }

  /** A truthy explicit token wins: the headers play no part. */
  lemma ExplicitTokenWins(headers: Headers, other: Headers, url: string, token: string)
    requires token != ""
    ensures AddTokenToURL(headers, url, Some(token)) == AddTokenToURL(other, url, Some(token))
    ensures AddTokenToURL(headers, url, Some(token)) == url + [Separator(url)] + "access_token=" + token
  {
    AddTokenAppends(headers, url, Some(token));
  }

  /** With no explicit token and none in the headers, the URL comes back unchanged. */
  lemma NoTokenLeavesUrl(headers: Headers, url: string, token: Option<string>)
    requires !Truthy(token) && GetToken(headers) == None
    ensures AddTokenToURL(headers, url, token) == url
  {
  }

  /**
   * `addTokenToURL` does not deduplicate: signing a signed URL again appends a
   * second `access_token` parameter.
   */
  lemma {:induction false} SigningTwiceAppendsTwice(headers: Headers, url: string, token: Option<string>)
    requires Truthy(AccessToken(headers, token))
    ensures var t := AccessToken(headers, token).value;
      AddTokenToURL(headers, AddTokenToURL(headers, url, token), token)
        == url + [Separator(url)] + "access_token=" + t + "&access_token=" + t
  {
    var t := AccessToken(headers, token).value;
    var once := AddTokenToURL(headers, url, token);
    AddTokenAppends(headers, url, token);
    AddTokenAppends(headers, once, token);
    assert once[|url|] == Separator(url);
    assert '?' in once by {
      if '?' !in url { assert once[|url|] == '?'; }
      else { var j :| 0 <= j < |url| && url[j] == '?'; assert once[j] == '?'; }
    }
  }
}
