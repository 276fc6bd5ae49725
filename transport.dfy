/**
 * `httpJSON`: one exchange with the control server, given as an input value
 * (the transport itself is outside the model), classified into the decoded
 * dictionary or the description of the error it throws.
 */
module Transport {
  import opened Wrappers
  import opened Json
  import Text
  import opened Plan
  import Errors

  /** What the transport reports: a failure with Foundation's error domain
      and code, or an answer with its status (0 when the response is not
      HTTP), the body decoded when it is a JSON dictionary, and the body as
      UTF-8 text (empty when it is not UTF-8). */
  datatype Exchange =
    | Failed(domain: string, code: int)
    | Answered(status: int, decoded: Option<Object>, text: string)

  /** The `name=value` pieces of the query items, in order; no
      percent-encoding is applied. */
  function QueryPieces(items: seq<QueryItem>): (r: seq<string>)
    ensures |r| == |items|
    ensures forall i :: 0 <= i < |r| ==> r[i] == items[i].name + "=" + items[i].value
  {
    seq(|items|, i requires 0 <= i < |items| => items[i].name + "=" + items[i].value)
  }

  function QueryString(items: seq<QueryItem>): string {
    Text.Join(QueryPieces(items), "&")
  }

  /** The absolute string of the request URL: base, path, and the query
      string when there are query items. */
  function UrlString(base: string, r: Request): (u: string)
    ensures Text.StartsWith(u, base + r.path)
    ensures r.query == [] ==> u == base + r.path
    ensures r.query != [] ==> |u| > |base + r.path| && u[|base + r.path|] == '?'
  {
    base + r.path + (if r.query == [] then "" else "?" + QueryString(r.query))
  }

  /** When neither the base and path hold a `?` nor any name or value an `&`,
      the URL gives back its query items: the part after the first `?`,
      split at `&`, is their `name=value` pieces in order. */
  lemma UrlQueryRoundTrip(base: string, r: Request)
    requires r.query != []
    requires '?' !in base + r.path
    requires forall i :: 0 <= i < |r.query| ==> '&' !in r.query[i].name && '&' !in r.query[i].value
    ensures var u := UrlString(base, r);
            var k := |base + r.path|;
            && u[..k] == base + r.path && u[k] == '?'
            && Text.Split(u[k + 1..], '&') == QueryPieces(r.query)
  {
    var u := UrlString(base, r);
    var k := |base + r.path|;
    var pieces := QueryPieces(r.query);
    assert u[k + 1..] == QueryString(r.query);
    forall i | 0 <= i < |pieces| ensures pieces[i] != [] && '&' !in pieces[i] {
      assert pieces[i][|r.query[i].name|] == '=';
    }
    Text.SplitJoinRoundTrip(pieces, '&');
  }

  predicate IsSuccessStatus(status: int) {
    200 <= status < 300
  }

  /** The classification `httpJSON` makes of an exchange. */
  function HttpJson(verb: Method, url: string, timeout: nat, ex: Exchange): (r: Result<Object, string>)
    ensures r.Ok? <==> ex.Answered? && ex.decoded.Some? && IsSuccessStatus(ex.status)
    ensures r.Ok? ==> r.value == ex.decoded.value
    ensures ex.Failed? ==> r == Err(Errors.WrapNetworkError(ex.domain, ex.code, url, timeout))
    ensures ex.Answered? && ex.decoded.None? ==>
              && r.Err?
              && Text.StartsWith(r.error, "HTTP " + Text.Decimal(ex.status))
              && Text.Contains(r.error, verb.Name())
              && Text.Contains(r.error, url)
              && r == Err("HTTP " + Text.Decimal(ex.status) + " " + verb.Name() + " " + url + ": " + ex.text)
    ensures ex.Answered? && ex.decoded.Some? && !IsSuccessStatus(ex.status) ==>
              r == Err(GetString(ex.decoded.value, "error").GetOr("HTTP " + Text.Decimal(ex.status)))
  {
    match ex
    case Failed(domain, code) => Err(Errors.WrapNetworkError(domain, code, url, timeout))
    case Answered(status, decoded, text) =>
      match decoded
      case None =>
        var head := "HTTP " + Text.Decimal(status) + " ";
        var msg := head + verb.Name() + " " + url + ": " + text;
        assert Text.OccursAt(msg, verb.Name(), |head|);
        assert Text.OccursAt(msg, url, |head| + |verb.Name()| + 1);
        Err(msg)
      case Some(obj) =>
        if IsSuccessStatus(status) then Ok(obj)
        else Err(GetString(obj, "error").GetOr("HTTP " + Text.Decimal(status)))
  }

  /** A body that is not a JSON dictionary is an error whatever the status,
      2xx included. */
  lemma UndecodableIsAlwaysAnError(verb: Method, url: string, timeout: nat, status: int, text: string)
    ensures HttpJson(verb, url, timeout, Answered(status, None, text)).Err?
  {
  }

  /** A server error field that is blank reaches the user as the generic
      failure naming the base URL. */
  lemma BlankServerErrorIsGeneric(verb: Method, url: string, timeout: nat, status: int, obj: Object, base: string)
    requires !IsSuccessStatus(status) && "error" in obj && obj["error"].JStr? && Text.IsBlank(obj["error"].s)
    ensures var r := HttpJson(verb, url, timeout, Answered(status, Some(obj), ""));
            r.Err? && Errors.DescribeError(r.error, base) == "Browser request failed (" + base + ")"
  {
  }
}
