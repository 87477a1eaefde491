/**
 * The vector store wrapper: the raw answer of a similarity query is normalised into one record
 * per returned id, with defaults for the parallel lists that are missing or short; documents
 * are handed to the store only when there are some. The store itself (ChromaDB and its
 * embedding function) is outside the model: a query's raw answer is a parameter, and an upsert
 * is recorded as the call it is.
 */
module VectorTools {
  import opened Wrappers
  import opened Json

  /**
   * The raw answer of `collection.query` for one query text: lists with one inner list per
   * query text. A key that is missing, None or an empty list is modelled as `[]`.
   */
  datatype QueryResult = QueryResult(ids: seq<seq<Value>>, distances: seq<seq<Value>>,
                                     metadatas: seq<seq<Value>>, documents: seq<seq<Value>>)

  /** One normalised record: `{"id", "content", "metadata", "score"}`. */
  datatype VectorHit = VectorHit(id: Value, content: Value, metadata: Value, score: Value)

  const NoContent: Value := Str("")
  const NoMetadata: Value := Obj(map[])
  const NoScore: Value := Num("0.0")

  /** The first inner list of an optional key, or `[]` when the key is absent. */
  function FirstOf(xss: seq<seq<Value>>): seq<Value>
  {
    if xss == [] then [] else xss[0]
  }

  /** `xs[i] if i < len(xs) else default`. */
  function AtOr(xs: seq<Value>, i: nat, default: Value): Value
  {
    if i < |xs| then xs[i] else default
  }

  /** The record for the `i`-th id of the first query. */
  function HitAt(ids: seq<Value>, docs: seq<Value>, metas: seq<Value>, dists: seq<Value>, i: nat): VectorHit
    requires i < |ids|
  {
    VectorHit(ids[i], AtOr(docs, i, NoContent), AtOr(metas, i, NoMetadata), AtOr(dists, i, NoScore))
  }

  /** The records of the first `n` ids. */
  function Hits(ids: seq<Value>, docs: seq<Value>, metas: seq<Value>, dists: seq<Value>, n: nat): seq<VectorHit>
    requires n <= |ids|
  {
    if n == 0 then [] else Hits(ids, docs, metas, dists, n - 1) + [HitAt(ids, docs, metas, dists, n - 1)]
  }

  /** `search`: nothing when the query raised or returned no ids, else one record per id of the first query. */
  function SearchSpec(raw: Option<QueryResult>): seq<VectorHit>
  {
    if raw.None? || raw.value.ids == [] then []
    else
      var q := raw.value;
      Hits(q.ids[0], FirstOf(q.documents), FirstOf(q.metadatas), FirstOf(q.distances), |q.ids[0]|)
  }

  /**
   * The records follow the ids of the first query one for one and in order; each takes the
   * document, metadata and distance at its position, or "", {} and 0.0 where that list is
   * missing or too short.
   */
  lemma {:induction false} HitsShape(ids: seq<Value>, docs: seq<Value>, metas: seq<Value>, dists: seq<Value>, n: nat)
    requires n <= |ids|
    ensures var r := Hits(ids, docs, metas, dists, n);
      && |r| == n
      && forall i :: 0 <= i < n ==>
           && r[i].id == ids[i]
           && r[i].content == (if i < |docs| then docs[i] else NoContent)
           && r[i].metadata == (if i < |metas| then metas[i] else NoMetadata)
           && r[i].score == (if i < |dists| then dists[i] else NoScore)
  {
    if n > 0 {
      HitsShape(ids, docs, metas, dists, n - 1);
    }
  }

  /** A query that raised, or one without ids, gives no records; otherwise there is one per id. */
  lemma SearchCount(raw: Option<QueryResult>)
    ensures raw.None? || raw.value.ids == [] ==> SearchSpec(raw) == []
    ensures raw.Some? && raw.value.ids != [] ==> |SearchSpec(raw)| == |raw.value.ids[0]|
  {
    if raw.Some? && raw.value.ids != [] {
      var q := raw.value;
      HitsShape(q.ids[0], FirstOf(q.documents), FirstOf(q.metadatas), FirstOf(q.distances), |q.ids[0]|);
    }
  }

  /** One call of `collection.upsert`. */
  datatype Upsert = Upsert(documents: seq<string>, metadatas: seq<map<string, Value>>, ids: seq<string>)

  /** `VectorTool`: the upserts it has sent to its collection. */
  class VectorTool {
    var upserts: seq<Upsert>

    constructor ()
      ensures upserts == []
    {
      upserts := [];
    }

    /**
     * `add_documents`: an empty list of documents sends nothing; any other list is sent as one
     * upsert (a failure of the store is only logged).
     */
    method AddDocuments(documents: seq<string>, metadatas: seq<map<string, Value>>, ids: seq<string>)
      modifies this
      ensures documents == [] ==> upserts == old(upserts)
      ensures documents != [] ==> upserts == old(upserts) + [Upsert(documents, metadatas, ids)]
    {
      if documents == [] {
        return;
      }
      upserts := upserts + [Upsert(documents, metadatas, ids)];
    }

    /** `search`, given what the query returned (None when it raised). */
    method Search(raw: Option<QueryResult>) returns (results: seq<VectorHit>)
      ensures results == SearchSpec(raw)
    {
      if raw.None? || raw.value.ids == [] {
        return [];
      }
      var q := raw.value;
      var ids := q.ids[0];
      var distances := if q.distances != [] then q.distances[0] else [];
      var metadatas := if q.metadatas != [] then q.metadatas[0] else [];
      var documents := if q.documents != [] then q.documents[0] else [];
      results := [];
      for i := 0 to |ids|
        invariant results == Hits(ids, documents, metadatas, distances, i)
      {
        results := results + [VectorHit(ids[i],
                                        if i < |documents| then documents[i] else NoContent,
                                        if i < |metadatas| then metadatas[i] else NoMetadata,
                                        if i < |distances| then distances[i] else NoScore)];
      }
    }
  }
}
