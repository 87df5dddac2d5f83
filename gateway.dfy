/**
 * The small pure helpers of the HTTP gateway (server.js): the length cap
 * applied to message bodies and the shared-secret bearer-token check.
 */
module Gateway {
  import opened Optional
  import opened JsStrings

  /** Maximum length of a stored or sent message text. */
  const MaxText: nat := 4000

  /**
   * `cap(s, n)`: a missing value becomes the empty string; a string no longer
   * than `n` is kept whole; a longer one is cut to its first `n` characters.
   */
  function Cap(s: Option<string>, n: nat): (r: string)
    ensures |r| <= n
    ensures StartsWith(s.GetOr(""), r)
    ensures |s.GetOr("")| <= n ==> r == s.GetOr("")
    ensures |s.GetOr("")| > n ==> |r| == n
  {
    var str := s.GetOr("");
    if |str| > n then str[..n] else str
  }

  const BearerPrefix := "Bearer "

  /** The token carried by an `Authorization` header; empty without the `Bearer ` prefix. */
  function Token(header: Option<string>): (token: string)
    ensures !StartsWith(header.GetOr(""), BearerPrefix) ==> token == []
    ensures StartsWith(header.GetOr(""), BearerPrefix) ==> header.GetOr("") == BearerPrefix + token
  {
    var h := header.GetOr("");
    if StartsWith(h, BearerPrefix) then h[|BearerPrefix|..] else ""
  }

  /** The route guard's verdict: pass the request on, or answer 401. */
  datatype AuthVerdict = Next | Unauthorized {
    function StatusCode(): int {
      match this
      case Next => 200
      case Unauthorized => 401
    }
  }

  /** `auth`: every request passes when no key is configured; otherwise only a matching token does. */
  function Auth(header: Option<string>, apiKey: string): AuthVerdict {
    if apiKey == [] || Token(header) == apiKey then Next else Unauthorized
  }

  /**
   * With a key configured, a request is admitted exactly when its header is
   * `"Bearer "` followed by that key; with no key, every request is admitted.
   */
  lemma AuthAdmitsExactly(header: Option<string>, apiKey: string)
    ensures Auth(header, apiKey) == Next <==> apiKey == [] || header == Some(BearerPrefix + apiKey)
  {
    if apiKey != [] && header == Some(BearerPrefix + apiKey) {
      var h := BearerPrefix + apiKey;
      assert h[..|BearerPrefix|] == BearerPrefix;
      assert h[|BearerPrefix|..] == apiKey;
    }
  }
}
