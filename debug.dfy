/**
 * The diagnostic endpoint of `api/debug.py`: it runs the query repair of the
 * OAuth handler on its own path and reports each intermediate value.
 */
module Debug {
  import opened Wrappers
  import opened Strings
  import opened UrlCodec
  import opened QueryNormal
  import ApiOAuth

  /** The reported document, field by field. */
  datatype DebugInfo = DebugInfo(
    originalPath: string,
    queryAfterFirstQuestion: string,
    normalizedQuery: string,
    parsedParams: seq<(string, string)>,
    action: string,
    responseType: string,
    clientId: string,
    shouldShowLogin: bool,
    actionAuthorizeCheck: bool)

  /**
   * The report shows the parameters the OAuth handler reads; "should show
   * login" holds exactly for a code request that names a client, and then
   * the handler does show its login form.
   */
  function Report(path: string): (r: DebugInfo)
    ensures r.originalPath == path && r.parsedParams == NormalizedParams(path)
    ensures r.queryAfterFirstQuestion == (match QueryAfterFirst(path) case None => [] case Some(q) => q)
    ensures r.action == QsFirst(r.parsedParams, "action", "") && r.responseType == QsFirst(r.parsedParams, "response_type", "")
            && r.clientId == QsFirst(r.parsedParams, "client_id", "")
    ensures r.normalizedQuery == (if '?' in path then NormalizeQuery(r.queryAfterFirstQuestion) else [])
    ensures r.shouldShowLogin <==> r.responseType == "code" && r.clientId != []
    ensures r.actionAuthorizeCheck <==> r.action == "authorize"
    ensures r.shouldShowLogin ==> ApiOAuth.ShowsLoginForm(r.responseType, r.clientId, QsFirst(r.parsedParams, "error", ""))
  {
    var query := match QueryAfterFirst(path) case None => [] case Some(q) => q;
    var normalized := if '?' in path then NormalizeQuery(query) else [];
    var params := NormalizedParams(path);
    var responseType := QsFirst(params, "response_type", "");
    var clientId := QsFirst(params, "client_id", "");
    DebugInfo(path, query, normalized, params, QsFirst(params, "action", ""), responseType, clientId,
              responseType == "code" && clientId != [], QsFirst(params, "action", "") == "authorize")
  }

  /** A path without `?` reports empty strings and no parameters. */
  lemma ReportWithoutQuery(path: string)
    requires '?' !in path
    ensures Report(path) == DebugInfo(path, [], [], [], [], [], [], false, false)
  {
  }

  /** With a `?`, the reported query is everything after the first one. */
  lemma ReportQuery(base: string, q: string)
    requires '?' !in base
    ensures Report(base + "?" + q).queryAfterFirstQuestion == q
    ensures Report(base + "?" + q).normalizedQuery == NormalizeQuery(q)
  {
    SplitFirstAt(base, '?', q);
    assert '?' in base + "?" + q by { assert (base + "?" + q)[|base|] == '?'; }
  }
}
