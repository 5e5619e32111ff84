/**
 * `retrieve_context`: turn a query into one context string for the prompt.
 * The query is embedded, the first vector is searched for, and every hit whose
 * resolved text is non-empty becomes a block labelled with its 1-based rank in
 * the hit list; the blocks are joined with a separator line. An empty hit list
 * gives a fixed sentinel, and any exception on the way gives a fixed
 * error-prefixed string instead of propagating.
 */
module Chain {
  import opened Wrappers
  import opened PyStr
  import opened VectorIndex

  const NoResultsMessage := "No relevant documentation found. " + "Please ensure the knowledge base has been populated."
  const ErrorPrefix := "Error retrieving context: "
  const Separator := "\n---\n"
  const UnknownSource := "Unknown"
  const DefaultTopK := 5

  /** `str(e)` of the IndexError raised by `encode(query)[0]` on an empty list. */
  const IndexErrorMessage := "list index out of range"
  /** `str(e)` of the AttributeError raised by `payload.get` when the payload is `None`. */
  const NoneGetMessage := "'NoneType' object has no attribute 'get'"

  /**
   * The two services `retrieve_context` obtains: the embeddings service's
   * `encode` on a single text, and `QdrantService.search`, which never raises.
   */
  datatype Backend = Backend(
    encode: string -> Result<seq<Vector>, string>,
    search: (Vector, int) -> seq<HitRecord>)

  /**
   * What retrieval produced before it is rendered into a string: the formatted
   * blocks, no hits at all, or an exception message.
   */
  datatype Retrieval = Found(parts: seq<string>) | NoResults | Failed(message: string)

  // ---------------------------------------------------------------------
  // One hit

  /** `result.get("payload", {})`, for a payload that is not `None`. */
  function FieldsOf(hit: HitRecord): Payload {
    match hit.payload
    case Present(fields) => fields
    case _ => map[]
  }

  /** `payload.get("text", payload.get("content", ""))`. */
  function TextOf(fields: Payload): string {
    if "text" in fields then fields["text"]
    else if "content" in fields then fields["content"]
    else ""
  }

  /** `payload.get("source", "Unknown")`. */
  function SourceOf(fields: Payload): string {
    if "source" in fields then fields["source"] else UnknownSource
  }

  /** `result.get("score", 0)`. */
  function ScoreOf(hit: HitRecord): real {
    hit.score.GetOr(0.0)
  }

  /** A hit contributes a block exactly when its payload is a map and its text is truthy. */
  predicate Kept(hit: HitRecord) {
    !hit.payload.Null? && TextOf(FieldsOf(hit)) != ""
  }

  /**
   * `f"[Source {idx} - Score: {score:.3f} - {source}]\n{text}\n"`;
   * `fmt` stands for the three-decimal float formatting.
   */
  function FormatBlock(rank: nat, score: real, source: string, text: string, fmt: real -> string): (block: string)
    ensures StartsWith(block, "[Source " + NatToString(rank) + " - Score: ")
  {
    "[Source " + NatToString(rank) + " - Score: " + fmt(score) + " - " + source + "]\n" + text + "\n"
  }

  /** The block a hit ranked `rank` turns into. */
  function Block(rank: nat, hit: HitRecord, fmt: real -> string): string {
    FormatBlock(rank, ScoreOf(hit), SourceOf(FieldsOf(hit)), TextOf(FieldsOf(hit)), fmt)
  }

  // ---------------------------------------------------------------------
  // The loop over `enumerate(results, 1)`

  /** `context_parts` after the loop has visited `hits`: the last hit has rank `|hits|`. */
  function Parts(hits: seq<HitRecord>, fmt: real -> string): seq<string> {
    if hits == [] then []
    else Parts(hits[..|hits| - 1], fmt)
         + (if Kept(hits[|hits| - 1]) then [Block(|hits|, hits[|hits| - 1], fmt)] else [])
  }

  /** The 1-based ranks, in the original hit list, of the hits that are kept. */
  function KeptRanks(hits: seq<HitRecord>): seq<nat> {
    if hits == [] then []
    else KeptRanks(hits[..|hits| - 1]) + (if Kept(hits[|hits| - 1]) then [|hits|] else [])
  }

  /** Some hit has a `None` payload, on which `payload.get` raises. */
  predicate HasNullPayload(hits: seq<HitRecord>) {
    exists i :: 0 <= i < |hits| && hits[i].payload.Null?
  }

  /** The part of `retrieve_context` after the search returned `hits`. */
  function Assemble(hits: seq<HitRecord>, fmt: real -> string): (r: Retrieval)
    ensures r == NoResults <==> hits == []
    ensures r.Failed? <==> hits != [] && HasNullPayload(hits)
  {
    if hits == [] then NoResults
    else if HasNullPayload(hits) then Failed(NoneGetMessage)
    else Found(Parts(hits, fmt))
  }

  /**
   * `retrieve_context(query, top_k)`: obtaining the services, encoding, taking
   * the first vector and assembling the hits of `search(vector, limit=top_k)`.
   */
  function Retrieve(query: string, topK: int, services: Result<Backend, string>, fmt: real -> string): Retrieval {
    match services
    case Failure(e) => Failed(e)
    case Success(backend) =>
      match backend.encode(query)
      case Failure(e) => Failed(e)
      case Success(vectors) =>
        if vectors == [] then Failed(IndexErrorMessage)
        else Assemble(backend.search(vectors[0], topK), fmt)
  }

  /** The string `retrieve_context` returns for each outcome. */
  function Render(r: Retrieval): string {
    match r
    case Found(parts) => Join(parts, Separator)
    case NoResults => NoResultsMessage
    case Failed(message) => ErrorPrefix + message
  }

  /** The whole of `retrieve_context`, as a function of its inputs. */
  function RetrieveContextSpec(query: string, topK: int, services: Result<Backend, string>, fmt: real -> string): string {
    Render(Retrieve(query, topK, services, fmt))
  }

  // ---------------------------------------------------------------------
  // The method

  /** `retrieve_context`, step by step as the source runs it. */
  method RetrieveContext(query: string, topK: int, services: Result<Backend, string>, fmt: real -> string)
    returns (context: string)
    ensures context == RetrieveContextSpec(query, topK, services, fmt)
  {
    if services.Failure? {
      return ErrorPrefix + services.error;
    }
    var backend := services.value;
    var encoded := backend.encode(query);
    if encoded.Failure? {
      return ErrorPrefix + encoded.error;
    }
    if |encoded.value| == 0 {
      return ErrorPrefix + IndexErrorMessage;
    }
    var queryEmbedding := encoded.value[0];
    var results := backend.search(queryEmbedding, topK);
    if |results| == 0 {
      return NoResultsMessage;
    }
    var contextParts: seq<string> := [];
    var i := 0;
    while i < |results|
      invariant 0 <= i <= |results|
      invariant contextParts == Parts(results[..i], fmt)
      invariant forall j :: 0 <= j < i ==> !results[j].payload.Null?
    {
      var idx := i + 1;
      var result := results[i];
      var score := ScoreOf(result);
      if result.payload.Null? {
        return ErrorPrefix + NoneGetMessage;
      }
      var payload := FieldsOf(result);
      var text := TextOf(payload);
      var source := SourceOf(payload);
      assert results[..idx][..i] == results[..i];
      if text != "" {
        contextParts := contextParts + [FormatBlock(idx, score, source, text, fmt)];
      }
      i := idx;
    }
    assert results[..i] == results;
    context := Join(contextParts, Separator);
  }

  // ---------------------------------------------------------------------
  // Properties

  /** No hits gives exactly the sentinel; hits that all lack text give the empty join instead. */
  lemma EmptyResultsGiveSentinel(hits: seq<HitRecord>, fmt: real -> string)
    ensures Render(Assemble(hits, fmt)) == NoResultsMessage <==> hits == []
  {
    if hits != [] && !HasNullPayload(hits) && Parts(hits, fmt) != [] {
      JoinedPartsStartWithBracket(hits, fmt);
      assert NoResultsMessage[0] == 'N';
    }
  }

  /** Every block, and so a non-empty join of blocks, begins with `[`. */
  lemma JoinedPartsStartWithBracket(hits: seq<HitRecord>, fmt: real -> string)
    requires Parts(hits, fmt) != []
    ensures |Join(Parts(hits, fmt), Separator)| > 0 && Join(Parts(hits, fmt), Separator)[0] == '['
  {
    var parts := Parts(hits, fmt);
    PartsAreRankedBlocks(hits, fmt);
    var rank := KeptRanks(hits)[0];
    var hit := hits[rank - 1];
    var header := "[Source " + NatToString(rank) + " - Score: ";
    assert parts[0] == FormatBlock(rank, ScoreOf(hit), SourceOf(FieldsOf(hit)), TextOf(FieldsOf(hit)), fmt);
    assert parts[0][..|header|] == header;
    assert parts[0][0] == header[0] == '[';
    JoinStartsWithFirst(parts, Separator);
    assert Join(parts, Separator)[..|parts[0]|] == parts[0];
    assert Join(parts, Separator)[0] == parts[0][0];
  }

  /** Ranks are exactly those of the kept hits, strictly increasing, so skipped hits leave gaps. */
  lemma {:induction false} KeptRanksExact(hits: seq<HitRecord>)
    ensures forall r :: r in KeptRanks(hits) <==> 1 <= r <= |hits| && Kept(hits[r - 1])
    ensures forall j, k :: 0 <= j < k < |KeptRanks(hits)| ==> KeptRanks(hits)[j] < KeptRanks(hits)[k]
  {
    if hits != [] {
      var front := hits[..|hits| - 1];
      KeptRanksExact(front);
      assert forall i :: 0 <= i < |front| ==> front[i] == hits[i];
      forall j | 0 <= j < |KeptRanks(front)|
        ensures KeptRanks(front)[j] < |hits|
      {
        assert KeptRanks(front)[j] in KeptRanks(front);
      }
    }
  }

  /** Block `j` is the block of the hit at rank `KeptRanks(hits)[j]`, labelled with that rank. */
  lemma {:induction false} PartsAreRankedBlocks(hits: seq<HitRecord>, fmt: real -> string)
    ensures |Parts(hits, fmt)| == |KeptRanks(hits)|
    ensures forall j :: 0 <= j < |KeptRanks(hits)| ==>
      1 <= KeptRanks(hits)[j] <= |hits| &&
      Parts(hits, fmt)[j] == Block(KeptRanks(hits)[j], hits[KeptRanks(hits)[j] - 1], fmt)
  {
    if hits != [] {
      var front := hits[..|hits| - 1];
      PartsAreRankedBlocks(front, fmt);
      assert forall i :: 0 <= i < |front| ==> front[i] == hits[i];
    }
  }

  /** When every hit has text, there is one block per hit, ranked 1 to n in hit order. */
  lemma AllKeptGivesOneBlockPerHit(hits: seq<HitRecord>, fmt: real -> string)
    requires forall i :: 0 <= i < |hits| ==> Kept(hits[i])
    ensures |Parts(hits, fmt)| == |hits|
    ensures forall i :: 0 <= i < |hits| ==> Parts(hits, fmt)[i] == Block(i + 1, hits[i], fmt)
  {
    AllKeptRanks(hits);
    PartsAreRankedBlocks(hits, fmt);
  }

  lemma {:induction false} AllKeptRanks(hits: seq<HitRecord>)
    requires forall i :: 0 <= i < |hits| ==> Kept(hits[i])
    ensures |KeptRanks(hits)| == |hits|
    ensures forall i :: 0 <= i < |hits| ==> KeptRanks(hits)[i] == i + 1
  {
    if hits != [] {
      AllKeptRanks(hits[..|hits| - 1]);
    }
  }

  /** Without a `"score"` key the score is 0, and without a `"source"` key the source is `"Unknown"`. */
  lemma BlockDefaults(rank: nat, hit: HitRecord, fmt: real -> string)
    requires hit.score == None
    requires hit.payload.Missing? || (hit.payload.Present? && "source" !in hit.payload.fields)
    ensures Block(rank, hit, fmt) ==
      "[Source " + NatToString(rank) + " - Score: " + fmt(0.0) + " - Unknown]\n" + TextOf(FieldsOf(hit)) + "\n"
  {
  }

  /** `k` blocks are joined with `k - 1` separators and nothing else. */
  lemma ContextLength(hits: seq<HitRecord>, fmt: real -> string)
    requires hits != [] && !HasNullPayload(hits) && Parts(hits, fmt) != []
    ensures |Render(Assemble(hits, fmt))| ==
      TotalLength(Parts(hits, fmt)) + (|Parts(hits, fmt)| - 1) * |Separator|
  {
    JoinLength(Parts(hits, fmt), Separator);
  }

  /** Non-empty hits none of which has text yield `""`, not the sentinel. */
  lemma {:induction false} NoTextGivesEmptyContext(hits: seq<HitRecord>, fmt: real -> string)
    requires hits != []
    requires forall i :: 0 <= i < |hits| ==> !hits[i].payload.Null? && TextOf(FieldsOf(hits[i])) == ""
    ensures Render(Assemble(hits, fmt)) == ""
  {
    NoneKeptNoParts(hits, fmt);
  }

  lemma {:induction false} NoneKeptNoParts(hits: seq<HitRecord>, fmt: real -> string)
    requires forall i :: 0 <= i < |hits| ==> !Kept(hits[i])
    ensures Parts(hits, fmt) == []
  {
    if hits != [] {
      NoneKeptNoParts(hits[..|hits| - 1], fmt);
    }
  }

  /**
   * A hit whose payload has `"text"` mapped to `""` is skipped even when it has
   * non-empty `"content"`: there is no fallback once `"text"` is present.
   */
  lemma EmptyTextShadowsContent(hits: seq<HitRecord>, i: nat)
    requires i < |hits| && hits[i].payload.Present?
    requires "text" in hits[i].payload.fields && hits[i].payload.fields["text"] == ""
    ensures i + 1 !in KeptRanks(hits)
  {
    KeptRanksExact(hits);
  }

  /** A hit without `"text"` falls back to `"content"`, and is kept when that is non-empty. */
  lemma ContentFallback(hits: seq<HitRecord>, i: nat)
    requires i < |hits| && hits[i].payload.Present?
    requires "text" !in hits[i].payload.fields && "content" in hits[i].payload.fields
    requires hits[i].payload.fields["content"] != ""
    ensures i + 1 in KeptRanks(hits)
  {
    KeptRanksExact(hits);
  }

  /**
   * The returned string begins with the error prefix exactly when retrieval
   * failed, so a caller can tell a failure from an empty or sentinel context.
   */
  lemma FailureIsVisible(query: string, topK: int, services: Result<Backend, string>, fmt: real -> string)
    ensures StartsWith(RetrieveContextSpec(query, topK, services, fmt), ErrorPrefix)
        <==> Retrieve(query, topK, services, fmt).Failed?
  {
    var r := Retrieve(query, topK, services, fmt);
    var context := Render(r);
    match r
    case Failed(m) =>
      assert context[..|ErrorPrefix|] == ErrorPrefix;
    case NoResults =>
      assert context[0] != ErrorPrefix[0];
    case Found(parts) =>
      if parts != [] {
        var hits := services.value.search(services.value.encode(query).value[0], topK);
        JoinedPartsStartWithBracket(hits, fmt);
        assert context[0] != ErrorPrefix[0];
      }
  }

  /**
   * Only the first vector `encode` returns matters, and the search is asked for
   * `top_k` hits: two backends that agree there give the same context.
   */
  lemma OnlyFirstVectorAndTopKMatter(query: string, topK: int, b1: Backend, b2: Backend, fmt: real -> string)
    requires b1.encode(query).Success? && b2.encode(query).Success?
    requires |b1.encode(query).value| > 0 && |b2.encode(query).value| > 0
    requires b1.encode(query).value[0] == b2.encode(query).value[0]
    requires b1.search(b1.encode(query).value[0], topK) == b2.search(b2.encode(query).value[0], topK)
    ensures RetrieveContextSpec(query, topK, Success(b1), fmt) == RetrieveContextSpec(query, topK, Success(b2), fmt)
  {
  }

  /** A failure to obtain the services or to encode is returned as the error string, never raised. */
  lemma ServiceFailuresBecomeErrorString(query: string, topK: int, services: Result<Backend, string>, fmt: real -> string)
    requires services.Failure? || services.value.encode(query).Failure?
    ensures RetrieveContextSpec(query, topK, services, fmt) ==
      ErrorPrefix + (if services.Failure? then services.error else services.value.encode(query).error)
  {
  }
}
