/**
 * Retrieval for a prompt: the query is embedded, the three best hits of the
 * whole collection are looked up, and their joined text is the context; a
 * fixed sentence stands in for an empty one, and any thrown error yields "".
 * The embedding model is an oracle from a text to a vector or the error its
 * call throws.
 */
module Rag {
  import opened Wrappers
  import opened Text
  import opened Qdrant

  /** What the model is told when the documents hold nothing relevant. */
  const NO_CONTEXT: string := "Không tìm thấy thông tin bổ trợ liên quan trong tài liệu server."
  /** The number of hits the context is built from. */
  const CONTEXT_HITS: nat := 3

  /**
   * `getKnowledgeContext(query)`: the joined top-3 search result with no
   * filter, the fixed sentence when that is empty, "" when embedding throws.
   */
  function GetKnowledgeContext(query: string, embed: string -> Result<Vector, string>,
                               search: SearchRequest -> Result<seq<Hit>, string>): (r: string)
    ensures r == "" <==> embed(query).Failure?
    ensures embed(query).Success? && search(SearchParams(embed(query).value, CONTEXT_HITS, None)).Success? ==>
              var hits := search(SearchParams(embed(query).value, CONTEXT_HITS, None)).value;
              forall k | 0 <= k < |hits| && hits[k].payload.content != "" :: Includes(r, hits[k].payload.content)
  {
    match embed(query)
    case Failure(_) => ""
    case Success(vector) =>
      var context := SearchKnowledge(vector, CONTEXT_HITS, None, search);
      if context != "" then context else NO_CONTEXT
  }

  /** The search behind the context is over the whole collection: three hits, payloads, no filter. */
  lemma ContextSearchesUnfiltered(query: string, embed: string -> Result<Vector, string>,
                                  search: SearchRequest -> Result<seq<Hit>, string>)
    requires embed(query).Success?
    ensures var request := SearchParams(embed(query).value, CONTEXT_HITS, None);
            request == SearchRequest(embed(query).value, 3, true, None) &&
            (search(request).Success? && |search(request).value| > 0 &&
             !(|search(request).value| == 1 && search(request).value[0].payload.content == "") ==>
               GetKnowledgeContext(query, embed, search) == Join(Contents(search(request).value), HIT_SEPARATOR))
  {
    SearchKnowledgeEmptyIff(embed(query).value, CONTEXT_HITS, None, search);
  }

  /** The context is "" exactly when embedding the query throws. */
  lemma ContextEmptyIffEmbeddingFails(query: string, embed: string -> Result<Vector, string>,
                                      search: SearchRequest -> Result<seq<Hit>, string>)
    ensures GetKnowledgeContext(query, embed, search) == "" <==> embed(query).Failure?
  {
  }

  /**
   * A store that throws or finds nothing surfaces as the fixed sentence, since
   * the search swallows its own errors.
   */
  lemma StoreFailureGivesSentinel(query: string, embed: string -> Result<Vector, string>,
                                  search: SearchRequest -> Result<seq<Hit>, string>)
    requires embed(query).Success?
    requires var answer := search(SearchParams(embed(query).value, CONTEXT_HITS, None));
             answer.Failure? || answer.value == []
    ensures GetKnowledgeContext(query, embed, search) == NO_CONTEXT
  {
    SearchKnowledgeEmptyIff(embed(query).value, CONTEXT_HITS, None, search);
  }

  /** A non-empty search text is handed on unchanged. */
  lemma FoundContextUnchanged(query: string, embed: string -> Result<Vector, string>,
                              search: SearchRequest -> Result<seq<Hit>, string>)
    requires embed(query).Success?
    requires SearchKnowledge(embed(query).value, CONTEXT_HITS, None, search) != ""
    ensures GetKnowledgeContext(query, embed, search) == SearchKnowledge(embed(query).value, CONTEXT_HITS, None, search)
  {
  }
}
