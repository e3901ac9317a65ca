/**
 * The knowledge store kept in the Qdrant collection `alice_knowledge`: how a
 * search is asked for, how its ranked hits are shaped into the text handed to
 * the model or into detail records, and which errors are swallowed and which
 * are passed on. The Qdrant client is an oracle from a request to what the
 * server answers or the error the call throws; vectors and scores are opaque.
 */
module Qdrant {
  import opened Wrappers
  import opened Text

  const COLLECTION_NAME: string := "alice_knowledge"
  /** The `limit` a search uses when the caller gives none. */
  const DEFAULT_LIMIT: nat := 3
  /** What stands between two hits in the joined context. */
  const HIT_SEPARATOR: string := "\n---\n"

  /** An embedding vector; its components are never computed with here. */
  type Vector = seq<real>

  /** The payload stored with a point: the document's text, title and owner. */
  datatype Payload = Payload(content: string, title: string, botId: Option<string>, isGlobal: bool)

  /** A metadata filter, handed to the server as given. */
  datatype Filter = Filter(conditions: seq<(string, string)>)

  /** What `client.search` is asked on the collection. */
  datatype SearchRequest = SearchRequest(vector: Vector, limit: nat, withPayload: bool, filter: Option<Filter>)

  /** A ranked hit as the server returns it. */
  datatype Hit = Hit(id: string, score: real, payload: Payload)

  /** `{ id, score, payload }`, one per hit, as `searchKnowledgeDetail` returns them. */
  datatype HitDetail = HitDetail(id: string, score: real, payload: Payload)

  datatype Point = Point(id: string, vector: Vector, payload: Payload)
  datatype UpsertRequest = UpsertRequest(wait: bool, points: seq<Point>)
  datatype DeleteRequest = DeleteRequest(points: seq<string>)

  /** `searchParams`: the vector and the limit, payloads requested, the filter only when one is given. */
  function SearchParams(vector: Vector, limit: nat, filter: Option<Filter>): (r: SearchRequest)
    ensures r.vector == vector && r.limit == limit && r.withPayload
    ensures r.filter == filter
  {
    var params := SearchRequest(vector, limit, true, None);
    if filter.Some? then params.(filter := filter) else params
  }

  /** `results.map(r => r.payload.content)`. */
  function Contents(hits: seq<Hit>): (r: seq<string>)
    ensures |r| == |hits|
    ensures forall k | 0 <= k < |r| :: r[k] == hits[k].payload.content
  {
    seq(|hits|, k requires 0 <= k < |hits| => hits[k].payload.content)
  }

  /**
   * `searchKnowledge(vector, limit, filter)`: the contents of the hits in rank
   * order joined by `\n---\n`; "" when the client throws.
   */
  function SearchKnowledge(vector: Vector, limit: nat, filter: Option<Filter>,
                           search: SearchRequest -> Result<seq<Hit>, string>): (r: string)
    ensures search(SearchParams(vector, limit, filter)).Failure? ==> r == ""
    ensures search(SearchParams(vector, limit, filter)).Success? ==>
              var hits := search(SearchParams(vector, limit, filter)).value;
              (hits == [] ==> r == "") && forall k | 0 <= k < |hits| :: Includes(r, hits[k].payload.content)
  {
    match search(SearchParams(vector, limit, filter))
    case Success(hits) =>
      JoinIncludes(Contents(hits), HIT_SEPARATOR);
      Join(Contents(hits), HIT_SEPARATOR)
    case Failure(_) => ""
  }

  /** A search whose client call throws yields "", and one whose client call answers yields the joined contents. */
  lemma SearchKnowledgeShape(vector: Vector, limit: nat, filter: Option<Filter>,
                             search: SearchRequest -> Result<seq<Hit>, string>)
    ensures search(SearchParams(vector, limit, filter)).Failure? ==> SearchKnowledge(vector, limit, filter, search) == ""
    ensures search(SearchParams(vector, limit, filter)).Success? ==>
              var hits := search(SearchParams(vector, limit, filter)).value;
              SearchKnowledge(vector, limit, filter, search) == Join(Contents(hits), HIT_SEPARATOR)
  {
  }

  /**
   * The search text is empty exactly when the client throws, finds nothing,
   * or finds one hit whose content is empty.
   */
  lemma SearchKnowledgeEmptyIff(vector: Vector, limit: nat, filter: Option<Filter>,
                                search: SearchRequest -> Result<seq<Hit>, string>)
    ensures var answer := search(SearchParams(vector, limit, filter));
            SearchKnowledge(vector, limit, filter, search) == "" <==>
              answer.Failure? || |answer.value| == 0 || (|answer.value| == 1 && answer.value[0].payload.content == "")
  {
    var answer := search(SearchParams(vector, limit, filter));
    if answer.Success? {
      JoinEmptyIff(Contents(answer.value), HIT_SEPARATOR);
    }
  }

  /** A search of several hits puts exactly one separator between each hit's content and the rest. */
  lemma SearchKnowledgeSeparates(vector: Vector, limit: nat, filter: Option<Filter>,
                                 search: SearchRequest -> Result<seq<Hit>, string>)
    requires search(SearchParams(vector, limit, filter)).Success?
    requires |search(SearchParams(vector, limit, filter)).value| >= 2
    ensures var hits := search(SearchParams(vector, limit, filter)).value;
            SearchKnowledge(vector, limit, filter, search) ==
              hits[0].payload.content + HIT_SEPARATOR + Join(Contents(hits[1..]), HIT_SEPARATOR)
  {
    var hits := search(SearchParams(vector, limit, filter)).value;
    assert Contents(hits)[1..] == Contents(hits[1..]);
  }

  /** The request a search sends when the caller gives only the vector: limit 3, payloads requested, no filter. */
  lemma DefaultSearchRequest(vector: Vector)
    ensures SearchParams(vector, DEFAULT_LIMIT, None) == SearchRequest(vector, 3, true, None)
  {
  }

  /** `results.map(r => ({ id, score, payload }))`. */
  function Details(hits: seq<Hit>): (r: seq<HitDetail>)
    ensures |r| == |hits|
    ensures forall k | 0 <= k < |r| :: r[k] == HitDetail(hits[k].id, hits[k].score, hits[k].payload)
  {
    seq(|hits|, k requires 0 <= k < |hits| => HitDetail(hits[k].id, hits[k].score, hits[k].payload))
  }

  /** `searchKnowledgeDetail(vector, limit, filter)`: one record per hit in rank order; [] when the client throws. */
  function SearchKnowledgeDetail(vector: Vector, limit: nat, filter: Option<Filter>,
                                 search: SearchRequest -> Result<seq<Hit>, string>): (r: seq<HitDetail>)
    ensures search(SearchParams(vector, limit, filter)).Failure? ==> r == []
    ensures search(SearchParams(vector, limit, filter)).Success? ==>
              var hits := search(SearchParams(vector, limit, filter)).value;
              |r| == |hits| && forall k | 0 <= k < |r| :: r[k].id == hits[k].id && r[k].score == hits[k].score && r[k].payload == hits[k].payload
  {
    match search(SearchParams(vector, limit, filter))
    case Success(hits) => Details(hits)
    case Failure(_) => []
  }

  /** The detail search and the text search see the same hits: the text joins the detail records' contents. */
  lemma DetailAgreesWithText(vector: Vector, limit: nat, filter: Option<Filter>,
                             search: SearchRequest -> Result<seq<Hit>, string>)
    requires search(SearchParams(vector, limit, filter)).Success?
    ensures var d := SearchKnowledgeDetail(vector, limit, filter, search);
            SearchKnowledge(vector, limit, filter, search) ==
              Join(seq(|d|, k requires 0 <= k < |d| => d[k].payload.content), HIT_SEPARATOR)
  {
    var hits := search(SearchParams(vector, limit, filter)).value;
    var d := SearchKnowledgeDetail(vector, limit, filter, search);
    assert seq(|d|, k requires 0 <= k < |d| => d[k].payload.content) == Contents(hits);
  }

  /** `upsertKnowledge`: one point written with `wait: true`; a client error is passed on to the caller. */
  function UpsertKnowledge(id: string, vector: Vector, payload: Payload,
                           upsert: UpsertRequest -> Outcome<string>): (r: Outcome<string>)
    ensures r == upsert(UpsertRequest(true, [Point(id, vector, payload)]))
  {
    var request := UpsertRequest(true, [Point(id, vector, payload)]);
    match upsert(request)
    case Pass => Pass
    case Fail(e) => Fail(e)
  }

  /** `deleteKnowledge`: the one point removed; a client error is passed on to the caller. */
  function DeleteKnowledge(id: string, delete: DeleteRequest -> Outcome<string>): (r: Outcome<string>)
    ensures r == delete(DeleteRequest([id]))
  {
    var request := DeleteRequest([id]);
    match delete(request)
    case Pass => Pass
    case Fail(e) => Fail(e)
  }
}
