/** webcommons/request.go and gincommons/request.go: two copies of the bearer-token
    extraction, one reading the header of an `http.Request`, the other of a gin context.
    Headers are a map from canonical header name to values; the first value is the one read. */
module BearerToken {
  import opened Strs
  import Urls

  type Header = Urls.Values

  const AuthorizationHeader: string := "Authorization"

  /** The value of the Authorization header, `""` when absent. */
  function Authorization(h: Header): string {
    Urls.Get(h, AuthorizationHeader)
  }

  /** webcommons `GetBearerToken`: the second of exactly two space-separated words whose first
      is "Bearer" (case-sensitive); `""` otherwise. */
  function GetBearerToken(h: Header): (t: string)
    ensures ' ' !in t
    ensures t != "" ==> Authorization(h) == "Bearer " + t
  {
    var authHeader := Authorization(h);
    if authHeader == "" then ""
    else
      var authz := Split(authHeader, ' ');
      SplitPartsAreFree(authHeader, ' ');
      if |authz| != 2 || authz[0] != "Bearer" then ""
      else
        JoinSplit(authHeader, ' ');
        assert JoinWith(authz, ' ') == authz[0] + [' '] + JoinWith(authz[1..], ' ');
        authz[1]
  }

  /** gincommons `GetBearerToken`: the same steps over the gin context's request header. */
  function GinGetBearerToken(h: Header): (t: string)
    ensures ' ' !in t
    ensures t != "" ==> Authorization(h) == "Bearer " + t
  {
    var authHeader := Authorization(h);
    if authHeader == "" then ""
    else
      var authz := Split(authHeader, ' ');
      SplitPartsAreFree(authHeader, ' ');
      if |authz| != 2 || authz[0] != "Bearer" then ""
      else
        JoinSplit(authHeader, ' ');
        assert JoinWith(authz, ' ') == authz[0] + [' '] + JoinWith(authz[1..], ' ');
        authz[1]
  }

  /** A header `Bearer <t>` with a space-free token yields exactly that token. */
  lemma BearerRoundTrip(h: Header, t: string)
    requires Authorization(h) == "Bearer " + t
    requires ' ' !in t
    ensures GetBearerToken(h) == t
    ensures GinGetBearerToken(h) == t
  {
    SplitFree("Bearer", ' ');
    SplitFree(t, ' ');
    SplitConcat("Bearer", t, ' ');
    assert "Bearer " + t == "Bearer" + [' '] + t;
  }

  /** The scheme word is matched case-sensitively: `bearer <t>` yields nothing. */
  lemma LowercaseSchemeRejected(h: Header, t: string)
    requires Authorization(h) == "bearer " + t
    ensures GetBearerToken(h) == ""
    ensures GinGetBearerToken(h) == ""
  {
    assert ("bearer " + t)[0] != ("Bearer " + GetBearerToken(h))[0];
    assert ("bearer " + t)[0] != ("Bearer " + GinGetBearerToken(h))[0];
  }

  /** The two copies agree on every header. */
  lemma CopiesAgree(h: Header)
    ensures GetBearerToken(h) == GinGetBearerToken(h)
  {
    var a := GetBearerToken(h);
    var b := GinGetBearerToken(h);
    if a != "" {
      BearerRoundTrip(h, a);
    } else if b != "" {
      BearerRoundTrip(h, b);
    }
  }
}
