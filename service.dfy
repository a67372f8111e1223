/**
 * DefaultSolrService: owns a nullable handle to a search server, sets it on
 * start, releases it on stop, and answers queries through it.
 */
module Service {
  import opened Wrappers
  import opened JsonValues
  import opened Requests
  import opened Replies

  /** A handle to a configured search server, by identity. */
  datatype Server = Server(id: nat)

  /** An exception: a null dereference, or any other, by identity. */
  datatype Throwable = NullPointerException | ClientFailure(cause: nat)

  /**
   * How a query call ends: the handler is called once with a result, or an
   * exception propagates out of the call and the handler is never called.
   */
  datatype QueryOutcome =
    | Handled(result: Result<Reply, Throwable>)
    | Escaped(error: Throwable)

  class SolrService {
    /** The server handle; null before start and after stop. */
    var handle: Option<Server>
    /** The handles shut down so far, in order. */
    var shutdowns: seq<Server>

    constructor ()
      ensures handle == None && shutdowns == []
    {
      handle := None;
      shutdowns := [];
    }

    /**
     * start: `created` is what `configurator.createSolrServer()` did. When it
     * returned, the handle becomes its result (any previous handle is dropped
     * without being shut down); when it threw, the assignment never happens and
     * the exception leaves start.
     */
    method Start(created: Result<Option<Server>, Throwable>) returns (thrown: Option<Throwable>)
      modifies this
      ensures created.Ok? ==> handle == created.value && thrown == None
      ensures created.Err? ==> handle == old(handle) && thrown == Some(created.error)
      ensures shutdowns == old(shutdowns)
    {
      if created.Err? {
        return Some(created.error);
      }
      handle := created.value;
      thrown := None;
    }

    /**
     * stop: a held handle is shut down and then cleared; `shutdownFailure` is
     * what `shutdown()` threw, if anything. Every shutdown attempted is logged.
     * When shutdown throws, the handle is kept and the exception leaves stop, so
     * a later stop shuts it down again. With no handle held nothing changes, so
     * stopping a stopped service is harmless.
     */
    method Stop(shutdownFailure: Option<Throwable>) returns (thrown: Option<Throwable>)
      modifies this
      ensures old(handle).None? ==> handle == None && shutdowns == old(shutdowns) && thrown == None
      ensures old(handle).Some? ==> shutdowns == old(shutdowns) + [old(handle).value]
      ensures old(handle).Some? && shutdownFailure.None? ==> handle == None && thrown == None
      ensures old(handle).Some? && shutdownFailure.Some? ==> handle == old(handle) && thrown == shutdownFailure
    {
      thrown := None;
      if handle.Some? {
        shutdowns := shutdowns + [handle.value];
        if shutdownFailure.Some? {
          return shutdownFailure;
        }
        handle := None;
      }
    }

    /**
     * query: attaches credentials to the query when the options hold both,
     * routes the request to the core's select path when a core is set, runs it,
     * and delivers either the failure or the assembled reply.
     */
    /**
     * `process(handle, request)` is what `request.process(solrServer)` did: the
     * server's response, or what it threw (for a null handle too).
     */
    method Query(query: SolrQuery, options: Option<QueryOptions>,
                 process: (Option<Server>, QueryRequest) -> Result<QueryResponse, Throwable>)
      returns (outcome: QueryOutcome)
      modifies query
      ensures unchanged(this)
      ensures query.params == WithBasicAuth(old(query.params), options)
      ensures var request := QueryRequest(query.params, RequestPath(EffectiveOptions(options)));
              match process(handle, request)
              case Err(e) => outcome == Handled(Err(e))
              case Ok(response) =>
                if response.results.None? then outcome == Escaped(NullPointerException)
                else && outcome.Handled? && outcome.result.Ok?
                     && ReplyMarshalled(outcome.result.value, response.results.value, response.nextCursorMark)
    {
      var opts: QueryOptions;
      if options.None? {
        opts := DefaultOptions;
      } else {
        opts := options.value;
        if opts.basicAuthUser.Some? && opts.basicAuthPass.Some? {
          query.Set(PropBasicAuthUser, opts.basicAuthUser.value);
          query.Set(PropBasicAuthPass, opts.basicAuthPass.value);
        }
      }

      var request := QueryRequest(query.params, None);
      if opts.core.Some? {
        request := request.(path := Some("/" + opts.core.value + "/select"));
      }
      var processed := process(handle, request);
      if processed.Err? {
        return Handled(Err(processed.error));
      }
      var response := processed.value;

      if response.results.None? {
        return Escaped(NullPointerException);
      }
      var reply := AssembleReply(response.results.value, response.nextCursorMark);
      outcome := Handled(Ok(reply));
    }
  }
}
