/**
 * Two request helpers: `safe`, which turns a settled request into a
 * `[data, error]` pair, and `buildQuery`, which renders the query string
 * of a request's parameters.
 *
 * `String(v)` and the percent-encoding of `URLSearchParams` are
 * parameters; the parameters arrive in the record's key order.
 */
module ApiHelpers {
  import opened Wrappers
  import opened Seqs
  import opened Text
  import opened JsValues
  import opened ApiClient

  /** `safe`: the data and no error on success, no data and the error's message on failure. */
  function Safe<T>(settled: Result<T, ApiError>): (r: (Option<T>, Option<string>))
    ensures r.0.Some? != r.1.Some?
    ensures settled.Ok? ==> r == (Some(settled.value), None)
    ensures settled.Err? ==> r == (None, Some(ExtractErrorMessage(settled.error)))
    ensures r.1.Some? ==> r.1.value != ""
  {
    match settled
    case Ok(d) => (Some(d), None)
    case Err(e) => (None, Some(ExtractErrorMessage(e)))
  }

  /** An entry is sent unless its value is `undefined`, `null` or the empty string. */
  predicate Sent(entry: (string, JsValue))
  {
    entry.1 != Undefined && entry.1 != Null && entry.1 != Str("")
  }

  /** One `key=value` pair of the query string. */
  function PairText(entry: (string, JsValue), encode: string -> string, text: JsValue -> string): (s: string)
    ensures s != ""
  {
    encode(entry.0) + "=" + encode(text(entry.1))
  }

  /** The pairs the parameters put into the query string. */
  function Pairs(params: seq<(string, JsValue)>, encode: string -> string, text: JsValue -> string): seq<string>
  {
    if params == [] then []
    else
      var last := params[|params| - 1];
      Pairs(params[..|params| - 1], encode, text) + (if Sent(last) then [PairText(last, encode, text)] else [])
  }

  /** `buildQuery`: empty when nothing is sent, else `?` and the pairs joined by `&`. */
  function QueryString(params: seq<(string, JsValue)>, encode: string -> string, text: JsValue -> string): string
  {
    var s := Join(Pairs(params, encode, text), "&");
    if s == "" then "" else "?" + s
  }

  /** The pairs are those of the sent entries, in the parameters' order. */
  lemma {:induction false} PairsOfSentEntries(params: seq<(string, JsValue)>, encode: string -> string, text: JsValue -> string)
    ensures Pairs(params, encode, text) == Map(Filter(params, Sent), (e: (string, JsValue)) => PairText(e, encode, text))
  {
    if params != [] {
      var init := params[..|params| - 1];
      var last := params[|params| - 1];
      PairsOfSentEntries(init, encode, text);
      assert params == init + [last];
      FilterSnoc(init, last, Sent);
      if Sent(last) {
        MapSnoc(Filter(init, Sent), last, (e: (string, JsValue)) => PairText(e, encode, text));
      }
    }
  }

  /** Joining parts that are all non-empty gives the empty text only for no parts. */
  lemma {:induction false} JoinEmpty(parts: seq<string>, sep: string)
    requires forall i :: 0 <= i < |parts| ==> parts[i] != ""
    ensures Join(parts, sep) == "" <==> parts == []
  {
  }

  /** The query string is empty exactly when no entry is sent; otherwise it starts with `?`. */
  lemma QueryEmptyIffNothingSent(params: seq<(string, JsValue)>, encode: string -> string, text: JsValue -> string)
    ensures QueryString(params, encode, text) == "" <==> forall i :: 0 <= i < |params| ==> !Sent(params[i])
    ensures QueryString(params, encode, text) != "" ==> QueryString(params, encode, text)[0] == '?'
  {
    PairsOfSentEntries(params, encode, text);
    var kept := Filter(params, Sent);
    var pairs := Pairs(params, encode, text);
    JoinEmpty(pairs, "&");
    if forall i :: 0 <= i < |params| ==> !Sent(params[i]) {
      NoMembersEmpty(kept);
    } else {
      var i :| 0 <= i < |params| && Sent(params[i]);
      assert params[i] in kept;
    }
  }

  /** `buildQuery`, appending each sent entry in turn. */
  method BuildQuery(params: seq<(string, JsValue)>, encode: string -> string, text: JsValue -> string) returns (query: string)
    ensures query == QueryString(params, encode, text)
  {
    var pairs: seq<string> := [];
    var i := 0;
    while i < |params|
      invariant 0 <= i <= |params|
      invariant pairs == Pairs(params[..i], encode, text)
    {
      assert params[..i + 1][..i] == params[..i];
      if Sent(params[i]) {
        pairs := pairs + [PairText(params[i], encode, text)];
      }
      i := i + 1;
    }
    assert params[..i] == params;
    var s := Join(pairs, "&");
    query := if s == "" then "" else "?" + s;
  }
}
