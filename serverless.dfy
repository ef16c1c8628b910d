/**
 * What the serverless handlers under `api/` share: the event dict the
 * platform passes in, the response dict they return, and `json.loads`.
 */
module Serverless {
  import opened Wrappers
  import opened PyJson

  /**
   * The keys of the event a handler reads; `None` is a key the event does
   * not carry. Header and query values are strings.
   */
  datatype Event = Event(
    httpMethod: Option<string>,
    path: Option<string>,
    headers: seq<(string, string)>,
    query: Option<seq<(string, string)>>,
    body: Option<string>)

  /** A response body: empty, the value `json.dumps` serialises, or an HTML page with an authorize link. */
  datatype Body = NoBody | JsonBody(value: Json) | Page(link: string)

  datatype Response = Response(status: int, headers: seq<(string, string)>, body: Body)

  /** `json.loads`: the value a text holds, `None` where it raises. */
  type Loads = string -> Option<Json>

  /** `d.get(key, default)` on a dict of strings. */
  function StrGet(d: seq<(string, string)>, key: string, default: string): (r: string)
    ensures (forall i :: 0 <= i < |d| ==> d[i].0 != key) ==> r == default
    ensures (exists i :: 0 <= i < |d| && d[i].0 == key) ==> exists i :: 0 <= i < |d| && d[i] == (key, r)
  {
    if d == [] then default
    else if d[0].0 == key then d[0].1
    else StrGet(d[1..], key, default)
  }

  /** The event's HTTP method, "GET" when absent. */
  function Method(e: Event): string {
    if e.httpMethod.Some? then e.httpMethod.value else "GET"
  }

  /** The event's path, "" when absent. */
  function Path(e: Event): string {
    if e.path.Some? then e.path.value else ""
  }

  /** The event's query parameters as a parsed dict, empty when absent or null. */
  function QueryObject(e: Event): (v: Json)
    ensures v.JObject?
  {
    var q := if e.query.Some? then e.query.value else [];
    JObject(seq(|q|, i requires 0 <= i < |q| => (q[i].0, JStr(q[i].1))))
  }
}
