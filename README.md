# vertx-solr-service: a Dafny model of DefaultSolrService

`DefaultSolrService` adapts the Apache Solr Java client to an asynchronous
service interface. It holds a nullable handle to a Solr server, which
`start` sets and `stop` releases. Its `query` operation does four things:

- it attaches basic-auth credentials to the query;
- it routes the request to a core's `/<core>/select` path;
- it runs the request;
- it marshals the result list into a JSON reply. Dates become epoch
  milliseconds and lists become JSON arrays, recursively.

The model has five modules, one per concern:

- `Wrappers` (`wrappers.dfy`): `Option` stands for a nullable Java reference.
  `Result` stands for the success or failure given to a result handler.
- `JsonValues` (`json_values.dfy`): the kinds of field value and `getJsonValue`
  as the recursive function `Normalise`. The model has two container kinds.
  `List` is a `java.util.List` and is normalised. `Array` is a JSON array, which
  is not a `java.util.List`, so it passes through untouched. The model proves
  exactly when a date can survive normalisation: only inside such an array.
  So values built from scalars, dates and lists keep no date at any depth.
- `Requests` (`requests.dfy`): `QueryOptions`, and the query object as a class
  whose parameters `Set` updates in place. Also the parameter change the service
  makes (`WithBasicAuth`) and the request path (`RequestPath`). The path is
  proved to decode back to the core name.
- `Replies` (`replies.dfy`): the loops that copy result documents field by
  field (`CopyDocument`, `AssembleReply`), proved against the predicate
  `ReplyMarshalled`. Lemmas show that this predicate fixes the reply uniquely
  and that `next_cursor_mark` appears exactly when the cursor mark is non-null
  and non-empty.
- `Service` (`service.dfy`): the class `SolrService` with the nullable
  `handle`, plus `Start`, `Stop` and `Query`.

The server call `request.process(solrServer)` is the function parameter
`process`, applied to the nullable handle and the request. Whatever it throws,
even for a null handle, is caught by the `try` and reaches the handler once as
a failure. If `response.getResults()` is null, the loop over the
results throws outside the `try`. The handler is then never called, and the
model returns `Escaped(NullPointerException)`. A second `start` overwrites
the handle without shutting the old one down; `Start` models this as written.
`createSolrServer` and `shutdown` can throw. `Start` takes the configurator's
outcome as a parameter and `Stop` takes the outcome of `shutdown`. Each returns
the exception that leaves it, if any. `Stop` adds every handle it tries to shut
down to the `shutdowns` log, so the effect of `shutdown`, and a repeated
attempt after a failure, can be seen.

## Model

| member | source | states |
|---|---|---|
| `JsonValues.Normalise` | src/main/java/com/englishtown/vertx/solr/impl/DefaultSolrService.java:105-121 | A date becomes exactly `Long` of its epoch-millisecond time. A list becomes an array of the same length, whose element i is the normalisation of element i. Every other value is returned unchanged. |
| `JsonValues.NormaliseAll` | src/main/java/com/englishtown/vertx/solr/impl/DefaultSolrService.java:111-116 | The loop over a list keeps its length and order, and normalises each element. |
| `JsonValues.NormaliseLeavesDateIff` | src/main/java/com/englishtown/vertx/solr/impl/DefaultSolrService.java:105-119 | A date stays somewhere in the normalised value if and only if it sat inside a JSON array, which normalisation does not enter. Both directions are proved. |
| `JsonValues.ShieldedDateNeedsArray` | src/main/java/com/englishtown/vertx/solr/impl/DefaultSolrService.java:111-119 | A date that normalisation cannot reach lies inside some JSON array. |
| `JsonValues.NoDateRemains` | src/main/java/com/englishtown/vertx/solr/impl/DefaultSolrService.java:107-116 | A value made only of scalars, dates and lists keeps no date at any depth once normalised. |
| `Requests.SolrQuery.Set` | src/main/java/com/englishtown/vertx/solr/impl/DefaultSolrService.java:63-64 | `query.set(name, value)` gives `name` the single value `value` and changes no other parameter. |
| `Requests.WithBasicAuth` | src/main/java/com/englishtown/vertx/solr/impl/DefaultSolrService.java:59-66 | Both credential parameters are set to the user and the password when options are non-null and hold both credentials. Otherwise the parameters are unchanged. No other parameter ever changes. |
| `Requests.EffectiveOptions` | src/main/java/com/englishtown/vertx/solr/impl/DefaultSolrService.java:59-60 | Null options are replaced by the defaults. Non-null options are used as given. |
| `Requests.RequestPath` | src/main/java/com/englishtown/vertx/solr/impl/DefaultSolrService.java:70-72 | A path is set exactly when a core is set, and that path decodes back to the core. |
| `Requests.SelectPathRoundTrip` | src/main/java/com/englishtown/vertx/solr/impl/DefaultSolrService.java:71 | `"/" + core + "/select"` decodes back to `core`. |
| `Requests.NullOptionsUseDefaultPath` | src/main/java/com/englishtown/vertx/solr/impl/DefaultSolrService.java:59-72 | When options are null and replaced by the defaults, the path stays at the library default. |
| `Replies.CopyDocument` | src/main/java/com/englishtown/vertx/solr/impl/DefaultSolrService.java:83-87 | The copied document has exactly the result's keys, each mapped to the normalised field value. |
| `Replies.AssembleReply` | src/main/java/com/englishtown/vertx/solr/impl/DefaultSolrService.java:79-101 | The reply has one document per result, in the same order, each copied as above. Max score, number found and start are copied. The cursor mark is included exactly when it is non-null and non-empty. |
| `Replies.DocMarshalledUnique` | src/main/java/com/englishtown/vertx/solr/impl/DefaultSolrService.java:83-87 | The result document alone determines the copied document, whatever order the keys are visited in. |
| `Replies.ReplyMarshalledUnique` | src/main/java/com/englishtown/vertx/solr/impl/DefaultSolrService.java:79-101 | The result list and the cursor mark alone determine the reply. |
| `Replies.CursorMarkKeyIff` | src/main/java/com/englishtown/vertx/solr/impl/DefaultSolrService.java:98-101 | `next_cursor_mark` is a key of the reply if and only if the cursor mark is non-null and non-empty. When present, it equals that cursor mark. |
| `Replies.ReplyHasNoDates` | src/main/java/com/englishtown/vertx/solr/impl/DefaultSolrService.java:81-96 | Results made only of scalars, dates and lists give reply documents with no date in any field at any depth. |
| `Service.SolrService.constructor` | src/main/java/com/englishtown/vertx/solr/impl/DefaultSolrService.java:31-34 | A new service holds no server handle. |
| `Service.SolrService.Start` | src/main/java/com/englishtown/vertx/solr/impl/DefaultSolrService.java:37-39 | When the configurator returns a server, the handle becomes that server. When the configurator throws, the handle is kept and start passes on that exception. Start never shuts anything down. |
| `Service.SolrService.Stop` | src/main/java/com/englishtown/vertx/solr/impl/DefaultSolrService.java:42-47 | When a handle is held, stop makes one shutdown call on it. If that call returns, the handle becomes null. If it throws, the handle is kept and stop passes on the exception, so a later stop shuts the handle down again. With no handle held, nothing changes. |
| `Service.SolrService.Query` | src/main/java/com/englishtown/vertx/solr/impl/DefaultSolrService.java:55-103 | The query's parameters change only by the credentials rule. The request carries the core's path when a core is set. A failure in building or running the request reaches the handler once, as that same error, with no reply. A null result list throws out of the call. Otherwise the handler gets the marshalled reply. The service's own state does not change. |

## Left out

- The `query(JsonObject, ...)` overload only wraps its argument in a `VertxSolrQuery`. That conversion is not part of this model.
- `request.process`, `SolrServer.shutdown` and `SolrConfigurator.createSolrServer` are network and library calls. The model does not run them. It takes what they did, a result or an exception, as parameters: `process` for `Query`, `created` for `Start` and `shutdownFailure` for `Stop`, whose `shutdowns` log records each call made.
- The asynchronous `Handler`/`AsyncResult`/`Future` plumbing is modelled as the `QueryOutcome` value that `Query` returns.
- `max_score` is a Java `Float`. The model carries its 32 bits and states no arithmetic about them.
- The `HttpClientUtil` parameter names are two distinct constant strings. The model relies only on their being distinct.
- The `QueryOptions` class is not part of this model. Its defaults are taken to be all null.
- The JSON library's own type checks and copying on `put`/`add` are not modelled, so every field value is taken to be one the JSON object accepts.
- The order of fields in a reply document is not modelled: documents are maps. `CopyDocument` visits keys in an arbitrary order, and `DocMarshalledUnique` shows that the result does not depend on it.
- Dependency injection (`@Inject`) is left out, as is the `QueryBuilder` interface: it declares operations, but nothing implements them.
- What `request.process` does with a null handle is left to the abstract `process`. The exact exception depends on the SolrJ version: it may be the raw NullPointerException or one wrapped in a `SolrServerException`. Either way, the model only promises that it reaches the handler unchanged.
- Exceptions thrown by the result handler itself are not modelled.
- Containers other than `java.util.List` are opaque: `Other` stands for a `Set`, an array or any other object, and the model does not look inside it. In Java such a value could still hold dates after normalisation. SolrJ builds multi-valued fields as lists, so this case does not arise from its results.
- The model is single-threaded. In Java, concurrent `query` calls read the unsynchronised `solrServer` field, and `start`/`stop` can race with them. The source has no concurrency code, so the model assumes these calls run one at a time.
