/**
 * Shaping of an outgoing search request: query options, the query's parameters
 * (which the service updates in place) and the request path.
 */
module Requests {
  import opened Wrappers

  /** QueryOptions: an optional core name and optional basic-auth credentials. */
  datatype QueryOptions = QueryOptions(
    core: Option<string>,
    basicAuthUser: Option<string>,
    basicAuthPass: Option<string>)

  /** `new QueryOptions()`: no core override and no credentials. */
  const DefaultOptions: QueryOptions := QueryOptions(None, None, None)

  /** The client library's parameter names for basic-auth credentials. */
  const PropBasicAuthUser: string := "httpBasicAuthUser"
  const PropBasicAuthPass: string := "httpBasicAuthPassword"

  /** Query parameters: each name maps to its list of values. */
  type Params = map<string, seq<string>>

  /** The query object handed to the service; `Set` changes it in place. */
  class SolrQuery {
    var params: Params

    constructor (params: Params)
      ensures this.params == params
    {
      this.params := params;
    }

    /** `set(name, value)`: `name` now has the single value `value`. */
    method Set(name: string, value: string)
      modifies this
      ensures params == old(params)[name := [value]]
    {
      params := params[name := [value]];
    }
  }

  /** Options are present and carry both a user and a password. */
  predicate HasBasicAuth(options: Option<QueryOptions>) {
    options.Some? && options.value.basicAuthUser.Some? && options.value.basicAuthPass.Some?
  }

  /**
   * The parameters after the service has looked at the options: both credential
   * parameters are set when, and only when, options are present and hold both
   * credentials; no other parameter changes.
   */
  function WithBasicAuth(params: Params, options: Option<QueryOptions>): (r: Params)
    ensures forall name :: name != PropBasicAuthUser && name != PropBasicAuthPass ==>
              (name in r <==> name in params) && (name in r ==> r[name] == params[name])
    ensures HasBasicAuth(options) ==>
              && PropBasicAuthUser in r && r[PropBasicAuthUser] == [options.value.basicAuthUser.value]
              && PropBasicAuthPass in r && r[PropBasicAuthPass] == [options.value.basicAuthPass.value]
    ensures !HasBasicAuth(options) ==> r == params
  {
    if HasBasicAuth(options) then
      params[PropBasicAuthUser := [options.value.basicAuthUser.value]]
            [PropBasicAuthPass := [options.value.basicAuthPass.value]]
    else params
  }

  /** The options the service goes on with: null options are replaced by the defaults. */
  function EffectiveOptions(options: Option<QueryOptions>): (r: QueryOptions)
    ensures options.None? ==> r == DefaultOptions
    ensures options.Some? ==> r == options.value
  {
    options.GetOr(DefaultOptions)
  }

  /** The path of the select handler of a named core. */
  function SelectPath(core: string): (path: string) {
    "/" + core + "/select"
  }

  /** Reads the core name back out of a core's select path. */
  function CoreOfPath(path: string): (core: Option<string>) {
    if |path| >= 8 && path[0] == '/' && path[|path| - 7..] == "/select"
    then Some(path[1..|path| - 7])
    else None
  }

  /**
   * The path a request is given: the core's select path when a core is set,
   * otherwise none, so that the client library's default path applies.
   */
  function RequestPath(options: QueryOptions): (r: Option<string>)
    ensures r.Some? <==> options.core.Some?
    ensures r.Some? ==> CoreOfPath(r.value) == options.core
  {
    match options.core
    case Some(core) =>
      SelectPathRoundTrip(core);
      Some(SelectPath(core))
    case None => None
  }

  /** A core's select path names that core and no other. */
  lemma SelectPathRoundTrip(core: string)
    ensures CoreOfPath(SelectPath(core)) == Some(core)
  {
  }

  /** Null options leave the path at the client library's default. */
  lemma NullOptionsUseDefaultPath()
    ensures RequestPath(EffectiveOptions(None)) == None
  {
  }

  /** The request built from a query: its parameters and, when set, its path. */
  datatype QueryRequest = QueryRequest(params: Params, path: Option<string>)
}
