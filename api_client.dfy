/**
 * The HTTP client's own logic: the base URL it derives from the configured
 * one, the token store, the queue of requests waiting for a token refresh,
 * and the error-message fallback.
 *
 * The refresh request itself is a parameter (its response, or `None` when
 * it fails); the interceptors' retry of failed requests is not part of
 * this model.
 */
module ApiClient {
  import opened Wrappers
  import opened Text

  /** `replace(/\/+$/, '')`: every trailing slash removed. */
  function StripTrailingSlashes(s: string): (r: string)
    ensures |r| <= |s| && r == s[..|r|]
    ensures !EndsWith(r, "/")
    ensures forall i :: |r| <= i < |s| ==> s[i] == '/'
  {
    if s == [] || s[|s| - 1] != '/' then s else StripTrailingSlashes(s[..|s| - 1])
  }

  /** `/\/api$/i`: the text ends with `/api`, in any letter case. */
  predicate EndsWithApi(b: string)
  {
    |b| >= 4 && b[|b| - 4] == '/' && LowerChar(b[|b| - 3]) == 'a' && LowerChar(b[|b| - 2]) == 'p' && LowerChar(b[|b| - 1]) == 'i'
  }

  /**
   * `ensureApiBase`: `/api/` for an empty base; otherwise the base without
   * its trailing slashes, followed by `/` when it already ends in `/api`
   * and by `/api/` when it does not.
   */
  function EnsureApiBase(base: string): (r: string)
    ensures base == "" ==> r == "/api/"
    ensures base != "" && EndsWithApi(StripTrailingSlashes(base)) ==> r == StripTrailingSlashes(base) + "/"
    ensures base != "" && !EndsWithApi(StripTrailingSlashes(base)) ==> r == StripTrailingSlashes(base) + "/api/"
  {
    if base == "" then "/api/"
    else
      var b := StripTrailingSlashes(base);
      if EndsWithApi(b) then b + "/" else b + "/api/"
  }

  /** The derived base always ends in `/api/`, the `api` in any letter case. */
  lemma EnsureApiBaseEndsInApi(base: string)
    ensures var r := EnsureApiBase(base);
            EndsWith(r, "/") && EndsWithApi(r[..|r| - 1])
  {
    var r := EnsureApiBase(base);
    var b := StripTrailingSlashes(base);
    if base == "" {
      ApiAppended("");
      assert r[..|r| - 1] == "" + "/api";
    } else if EndsWithApi(b) {
      assert r[..|r| - 1] == b;
    } else {
      ApiAppended(b);
      assert r[..|r| - 1] == b + "/api";
    }
  }

  lemma ApiAppended(b: string)
    ensures EndsWithApi(b + "/api")
  {
    var t := b + "/api";
    assert t[|t| - 4..] == "/api";
  }

  /** A text ending in `/api` does not end in a slash. */
  lemma ApiEndNotSlash(x: string)
    requires EndsWithApi(x)
    ensures !EndsWith(x, "/")
  {
    assert x[|x| - 1..] == [x[|x| - 1]];
  }

  /** One slash after a text that does not end in a slash is all that stripping removes. */
  lemma StripOneSlash(x: string)
    requires !EndsWith(x, "/")
    ensures StripTrailingSlashes(x + "/") == x
  {
    assert (x + "/")[..|x|] == x;
    if x != [] {
      assert x[|x| - 1..] == [x[|x| - 1]];
    }
  }

  /** Deriving the base from an already derived base changes nothing. */
  lemma EnsureApiBaseIdempotent(base: string)
    ensures EnsureApiBase(EnsureApiBase(base)) == EnsureApiBase(base)
  {
    var r := EnsureApiBase(base);
    var x := r[..|r| - 1];
    EnsureApiBaseEndsInApi(base);
    assert r == x + "/";
    ApiEndNotSlash(x);
    StripOneSlash(x);
  }

  /** The token pair kept by the client; `None` is `null`. */
  class TokenStore {
    var access: Option<string>
    var refresh: Option<string>

    constructor()
      ensures access == None && refresh == None
    {
      access := None;
      refresh := None;
    }

    /**
     * `setAuthTokens`: the access token is always replaced; the refresh
     * token only when the field is given (`None` when it is left out, and
     * `Some(None)` when it is given as `null`).
     */
    method SetAuthTokens(newAccess: string, newRefresh: Option<Option<string>>)
      modifies this
      ensures access == Some(newAccess)
      ensures refresh == if newRefresh.Some? then newRefresh.value else old(refresh)
    {
      access := Some(newAccess);
      if newRefresh.Some? {
        refresh := newRefresh.value;
      }
    }

    /** `clearAuthTokens`. */
    method ClearAuthTokens()
      modifies this
      ensures access == None && refresh == None
    {
      access := None;
      refresh := None;
    }

    /**
     * `refreshAccessToken`: without a refresh token no request is made and
     * nothing changes; a failed request clears both tokens; a successful one
     * stores the new access token, and the new refresh token when the
     * response carries one.
     */
    method RefreshAccessToken(response: Option<(string, Option<string>)>) returns (token: Option<string>)
      modifies this
      ensures old(refresh).None? || old(refresh) == Some("") ==> token.None? && access == old(access) && refresh == old(refresh)
      ensures old(refresh).Some? && old(refresh) != Some("") && response.None? ==> token.None? && access.None? && refresh.None?
      ensures old(refresh).Some? && old(refresh) != Some("") && response.Some? ==>
                token == Some(response.value.0) && access == token &&
                refresh == (if response.value.1.Some? then response.value.1 else old(refresh))
    {
      if refresh.None? || refresh == Some("") {
        return None;
      }
      if response.None? {
        ClearAuthTokens();
        return None;
      }
      var (newAccess, newRefresh) := response.value;
      SetAuthTokens(newAccess, if newRefresh.Some? then Some(newRefresh) else None);
      token := Some(newAccess);
    }
  }

  /** The requests waiting for a refresh, each standing for its callback. */
  class RefreshQueue<C> {
    var queue: seq<C>

    constructor()
      ensures queue == []
    {
      queue := [];
    }

    /** `enqueueRefresh`. */
    method Enqueue(cb: C)
      modifies this
      ensures queue == old(queue) + [cb]
    {
      queue := queue + [cb];
    }

    /**
     * `resolveQueue`: every waiting callback is called once with the new
     * token, in the order they were queued, and the queue is emptied.
     */
    method Resolve(token: Option<string>) returns (calls: seq<(C, Option<string>)>)
      modifies this
      ensures |calls| == |old(queue)|
      ensures forall i :: 0 <= i < |calls| ==> calls[i] == (old(queue)[i], token)
      ensures queue == []
    {
      calls := [];
      var i := 0;
      while i < |queue|
        invariant 0 <= i <= |queue| && |calls| == i
        invariant forall j :: 0 <= j < i ==> calls[j] == (queue[j], token)
      {
        calls := calls + [(queue[i], token)];
        i := i + 1;
      }
      queue := [];
    }
  }

  /** A failed request's error, as far as the message is concerned. */
  datatype ApiError =
    | HttpError(responseMessage: Option<string>, message: Option<string>)
    | OtherError(message: Option<string>)

  /** `x || d` for a text that may be absent: absent and empty both give `d`. */
  function OrElse(x: Option<string>, d: string): (r: string)
    ensures x.Some? && x.value != "" ==> r == x.value
    ensures x.None? || x.value == "" ==> r == d
  {
    if x.Some? && x.value != "" then x.value else d
  }

  /**
   * `extractErrorMessage`: for an HTTP error, the response's message, else
   * the error's own, else "Request failed"; for anything else its message,
   * else "Unknown error". The result is never empty.
   */
  function ExtractErrorMessage(err: ApiError): (msg: string)
    ensures msg != ""
    ensures err.HttpError? ==> msg == OrElse(err.responseMessage, OrElse(err.message, "Request failed"))
    ensures err.OtherError? ==> msg == OrElse(err.message, "Unknown error")
  {
    match err
    case HttpError(rm, m) => OrElse(rm, OrElse(m, "Request failed"))
    case OtherError(m) => OrElse(m, "Unknown error")
  }
}
