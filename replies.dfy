/**
 * Turning a search server's result list into the reply object the service
 * hands back: each result document copied field by field with its values
 * normalised, and an optional cursor mark.
 */
module Replies {
  import opened Wrappers
  import opened JsonValues

  /** A result document: field names to field values. */
  type Document = map<string, Value>

  /** The result list of a response. `maxScore` is a Java `Float`, kept as its bits. */
  datatype DocumentList = DocumentList(
    maxScore: Option<bv32>,
    numFound: int64,
    start: int64,
    docs: seq<Document>)

  /** A server response: a result list (null when the response has none) and a cursor mark. */
  datatype QueryResponse = QueryResponse(
    results: Option<DocumentList>,
    nextCursorMark: Option<string>)

  /**
   * The reply object: "max_score", "number_found", "start", "docs" and, when
   * `nextCursorMark` is present, "next_cursor_mark".
   */
  datatype Reply = Reply(
    maxScore: Option<bv32>,
    numberFound: int64,
    start: int64,
    docs: seq<map<string, Value>>,
    nextCursorMark: Option<string>)

  /** The keys of the reply as a JSON object. */
  function ReplyKeys(reply: Reply): (keys: set<string>) {
    {"max_score", "number_found", "start", "docs"}
    + (if reply.nextCursorMark.Some? then {"next_cursor_mark"} else {})
  }

  /** `doc` has exactly the keys of `result`, each with the normalised field value. */
  ghost predicate DocMarshalled(doc: map<string, Value>, result: Document) {
    && doc.Keys == result.Keys
    && forall key :: key in doc ==> doc[key] == Normalise(result[key])
  }

  /** One reply document per result, in the same order. */
  ghost predicate DocsMarshalled(docs: seq<map<string, Value>>, results: seq<Document>) {
    && |docs| == |results|
    && forall i :: 0 <= i < |docs| ==> DocMarshalled(docs[i], results[i])
  }

  /** A cursor mark is passed on when it is non-null and non-empty. */
  predicate CursorMarkPassedOn(cursorMark: Option<string>) {
    cursorMark.Some? && |cursorMark.value| > 0
  }

  /** `reply` is the reply built from `results` and the response's cursor mark. */
  ghost predicate ReplyMarshalled(reply: Reply, results: DocumentList, cursorMark: Option<string>) {
    && reply.maxScore == results.maxScore
    && reply.numberFound == results.numFound
    && reply.start == results.start
    && DocsMarshalled(reply.docs, results.docs)
    && reply.nextCursorMark == (if CursorMarkPassedOn(cursorMark) then cursorMark else None)
  }

  /** The inner loop of query: copies one result document, key by key. */
  method CopyDocument(result: Document) returns (doc: map<string, Value>)
    ensures DocMarshalled(doc, result)
  {
    doc := map[];
    var pending := result.Keys;
    while pending != {}
      invariant pending <= result.Keys
      invariant doc.Keys == result.Keys - pending
      invariant forall key :: key in doc ==> doc[key] == Normalise(result[key])
      decreases pending
    {
      var key :| key in pending;
      doc := doc[key := Normalise(result[key])];
      pending := pending - {key};
    }
  }

  /** The reply assembly of query: the outer loop over the results, then the cursor mark. */
  method AssembleReply(results: DocumentList, cursorMark: Option<string>) returns (reply: Reply)
    ensures ReplyMarshalled(reply, results, cursorMark)
  {
    var docs: seq<map<string, Value>> := [];
    var i := 0;
    while i < |results.docs|
      invariant 0 <= i <= |results.docs|
      invariant DocsMarshalled(docs, results.docs[..i])
    {
      var doc := CopyDocument(results.docs[i]);
      docs := docs + [doc];
      i := i + 1;
    }
    assert results.docs[..i] == results.docs;
    reply := Reply(results.maxScore, results.numFound, results.start, docs, None);
    if cursorMark.Some? && |cursorMark.value| > 0 {
      reply := reply.(nextCursorMark := cursorMark);
    }
  }

  /** A marshalled document is determined by the result it was copied from. */
  lemma DocMarshalledUnique(a: map<string, Value>, b: map<string, Value>, result: Document)
    requires DocMarshalled(a, result) && DocMarshalled(b, result)
    ensures a == b
  {
  }

  /** The reply is determined by the response: nothing in it is left to chance. */
  lemma ReplyMarshalledUnique(a: Reply, b: Reply, results: DocumentList, cursorMark: Option<string>)
    requires ReplyMarshalled(a, results, cursorMark) && ReplyMarshalled(b, results, cursorMark)
    ensures a == b
  {
    forall i | 0 <= i < |a.docs|
      ensures a.docs[i] == b.docs[i]
    {
      DocMarshalledUnique(a.docs[i], b.docs[i], results.docs[i]);
    }
  }

  /**
   * "next_cursor_mark" is a key of the reply exactly when the response's cursor
   * mark is non-null and non-empty, and then it holds that cursor mark.
   */
  lemma CursorMarkKeyIff(reply: Reply, results: DocumentList, cursorMark: Option<string>)
    requires ReplyMarshalled(reply, results, cursorMark)
    ensures "next_cursor_mark" in ReplyKeys(reply) <==> cursorMark.Some? && cursorMark.value != ""
    ensures "next_cursor_mark" in ReplyKeys(reply) ==> reply.nextCursorMark == cursorMark
  {
  }

  /** Results whose values are built of scalars, dates and lists only. */
  ghost predicate WithoutArrays(results: DocumentList) {
    forall i, key :: 0 <= i < |results.docs| && key in results.docs[i] ==>
      !ContainsArray(results.docs[i][key])
  }

  /** No date remains in any field of any reply document built from such results. */
  lemma ReplyHasNoDates(reply: Reply, results: DocumentList, cursorMark: Option<string>)
    requires ReplyMarshalled(reply, results, cursorMark)
    requires WithoutArrays(results)
    ensures forall i, key :: 0 <= i < |reply.docs| && key in reply.docs[i] ==>
      !ContainsDate(reply.docs[i][key])
  {
    forall i, key | 0 <= i < |reply.docs| && key in reply.docs[i]
      ensures !ContainsDate(reply.docs[i][key])
    {
      NoDateRemains(results.docs[i][key]);
    }
  }
}
