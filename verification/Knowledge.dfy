/**
 * Indexing a document and indexing it again from its own passages (application/knowledge/service.py).
 *
 * The embedding provider is an arbitrary function of the batch and its place: it may raise, and it may answer with the
 * wrong number of vectors.
 */
module Knowledge {
  import opened Wrappers
  import opened Text
  import opened Chunking

  const BATCH: nat := 32

  type DocumentId = nat

  datatype Status = Pending | Extracted | Indexed | Failed

  datatype Document = Document(id: DocumentId, title: string, status: Status, chunkCount: nat)

  datatype Vector = Vector(numbers: seq<real>)

  datatype Embedding = NotEmbedded | EmbeddedBy(model: string, vector: Vector)

  datatype StoredChunk = StoredChunk(document: DocumentId, ordinal: nat, content: string, embedding: Embedding)

  /** An embedding model: the vectors for the batch that begins at this chunk, or None when the call raises. */
  datatype Provider = Provider(model: string, embed: (nat, seq<string>) -> Option<seq<Vector>>)

  datatype KnowledgeError = DocumentNotFound | NothingStored | VectorsMissing

  class KnowledgeStore {
    var documents: map<DocumentId, Document>
    var chunks: map<DocumentId, seq<StoredChunk>>

    /** A document is stored under its own id. */
    ghost predicate Valid()
      reads this
    {
      forall id :: id in documents ==> documents[id].id == id
    }

    constructor ()
      ensures Valid() && documents == map[] && chunks == map[]
    {
      documents, chunks := map[], map[];
    }

    /** `replace_chunks` and `save`, one after the other. */
    method Replace(document: Document, passages: seq<StoredChunk>)
      requires Valid()
      modifies this
      ensures Valid()
      ensures chunks == old(chunks)[document.id := passages]
      ensures documents == old(documents)[document.id := document]
    {
      chunks := chunks[document.id := passages];
      documents := documents[document.id := document];
    }

    function ChunksFor(id: DocumentId): seq<StoredChunk>
      reads this
    {
      if id in chunks then chunks[id] else []
    }
  }

  function Contents(chunks: seq<StoredChunk>): (r: seq<string>)
    ensures |r| == |chunks| && forall k :: 0 <= k < |r| ==> r[k] == chunks[k].content
  {
    seq(|chunks|, k requires 0 <= k < |chunks| => chunks[k].content)
  }

  /** The passages of one document, numbered in order and not embedded yet. */
  function FreshChunks(id: DocumentId, passages: seq<string>): seq<StoredChunk> {
    seq(|passages|, k requires 0 <= k < |passages| => StoredChunk(id, k, passages[k], NotEmbedded))
  }

  // ----- Embedding -----

  function BatchEnd(start: nat, n: nat): nat {
    if start + BATCH <= n then start + BATCH else n
  }

  function Answer(chunks: seq<StoredChunk>, provider: Provider, start: nat): Option<seq<Vector>>
    requires start < |chunks|
  {
    provider.embed(start, Contents(chunks[start..BatchEnd(start, |chunks|)]))
  }

  ghost predicate Answered(chunks: seq<StoredChunk>, provider: Provider, start: nat)
    requires start < |chunks|
  {
    && Answer(chunks, provider, start).Some?
    && |Answer(chunks, provider, start).value| == if start + 32 <= |chunks| then 32 else |chunks| - start
  }

  ghost predicate AnsweredBefore(chunks: seq<StoredChunk>, provider: Provider, end: nat) {
    forall start: nat :: start < end && start < |chunks| && start % 32 == 0 ==> Answered(chunks, provider, start)
  }

  /** Chunk `k` with the vector its batch was answered with. */
  ghost predicate EmbeddedAt(chunks: seq<StoredChunk>, provider: Provider, k: nat, one: StoredChunk)
    requires k < |chunks|
  {
    var start := k - k % 32;
    && Answered(chunks, provider, start)
    && one == chunks[k].(embedding := EmbeddedBy(provider.model, Answer(chunks, provider, start).value[k - start]))
  }

  /** The first batch that goes wrong, at `start`: it raised, or it came back with the wrong number of vectors. */
  ghost predicate FirstBadBatch(chunks: seq<StoredChunk>, provider: Provider, start: nat, raised: bool) {
    && start < |chunks| && start % 32 == 0 && AnsweredBefore(chunks, provider, start)
    && !Answered(chunks, provider, start) && Answer(chunks, provider, start).None? == raised
  }

  ghost predicate AllEmbedded(chunks: seq<StoredChunk>, provider: Provider, done: seq<StoredChunk>) {
    |done| <= |chunks| && forall k :: 0 <= k < |done| ==> EmbeddedAt(chunks, provider, k, done[k])
  }

  /** Every chunk with its own vector when every batch is answered in full; the chunks as they were when the first
      batch that goes wrong raised; an error when it came back with the wrong number of vectors. */
  ghost predicate EmbedOutcome(
      chunks: seq<StoredChunk>, provider: Provider, r: Result<(seq<StoredChunk>, Status), KnowledgeError>)
  {
    match r
    case Err(e) => e == VectorsMissing && exists b :: FirstBadBatch(chunks, provider, b, false)
    case Ok((done, status)) =>
      if status == Indexed then |done| == |chunks| && AllEmbedded(chunks, provider, done)
      else done == chunks && status == Extracted && exists b :: FirstBadBatch(chunks, provider, b, true)
  }

  /** One batch: each chunk of it with its vector. */
  method EmbedBatch(chunks: seq<StoredChunk>, provider: Provider, start: nat, done: seq<StoredChunk>)
    returns (r: Option<seq<StoredChunk>>)
    requires start < |chunks| && start % BATCH == 0 && |done| == start && AllEmbedded(chunks, provider, done)
    ensures r.Some? <==> Answered(chunks, provider, start)
    ensures r.Some? ==> |r.value| == BatchEnd(start, |chunks|) && AllEmbedded(chunks, provider, r.value)
  {
    var end := BatchEnd(start, |chunks|);
    var vectors := Answer(chunks, provider, start);
    if vectors.None? || |vectors.value| != end - start {
      return None;
    }
    var more := seq(end - start, k requires 0 <= k < end - start =>
      chunks[start + k].(embedding := EmbeddedBy(provider.model, vectors.value[k])));
    forall k: nat | start <= k < end ensures EmbeddedAt(chunks, provider, k, (done + more)[k]) {
      BatchStart(k, start);
    }
    return Some(done + more);
  }

  /** The loop of `_embed`, batch by batch. */
  method EmbedBatches(chunks: seq<StoredChunk>, provider: Provider)
    returns (r: Result<(seq<StoredChunk>, Status), KnowledgeError>)
    ensures EmbedOutcome(chunks, provider, r)
  {
    var done := [];
    var start := 0;
    while start < |chunks|
      invariant start % BATCH == 0
      invariant |done| == if start < |chunks| then start else |chunks|
      invariant AnsweredBefore(chunks, provider, start)
      invariant AllEmbedded(chunks, provider, done)
    {
      var batch := EmbedBatch(chunks, provider, start, done);
      if batch.None? {
        var raised := Answer(chunks, provider, start).None?;
        assert FirstBadBatch(chunks, provider, start, raised);
        return if raised then Ok((chunks, Extracted)) else Err(VectorsMissing);
      }
      NextBatch(chunks, provider, start);
      done := batch.value;
      start := start + BATCH;
    }
    return Ok((done, Indexed));
  }

  lemma EmbeddingKeepsContents(chunks: seq<StoredChunk>, provider: Provider, done: seq<StoredChunk>)
    requires |done| == |chunks| && AllEmbedded(chunks, provider, done)
    ensures Contents(done) == Contents(chunks)
  {
    assert forall k :: 0 <= k < |done| ==> EmbeddedAt(chunks, provider, k, done[k]);
  }

  /** What embedding comes to: with nobody to ask the chunks as they are, extracted, or failed when there are none. */
  ghost predicate Embedded(
      chunks: seq<StoredChunk>, provider: Option<Provider>, r: Result<(seq<StoredChunk>, Status), KnowledgeError>)
  {
    if provider.None? || chunks == [] then r == Ok((chunks, if chunks != [] then Extracted else Failed))
    else EmbedOutcome(chunks, provider.value, r)
  }

  /** `_embed`: without a provider or without chunks there is nothing to do. */
  method Embed(chunks: seq<StoredChunk>, provider: Option<Provider>)
    returns (r: Result<(seq<StoredChunk>, Status), KnowledgeError>)
    ensures provider.None? || chunks == [] ==> r == Ok((chunks, if chunks != [] then Extracted else Failed))
    ensures provider.Some? && chunks != [] ==> EmbedOutcome(chunks, provider.value, r)
    ensures Embedded(chunks, provider, r)
    ensures r.Ok? ==> Contents(r.value.0) == Contents(chunks)
    ensures r.Err? ==> provider.Some? && r.error == VectorsMissing
  {
    if provider.None? || chunks == [] {
      return Ok((chunks, if chunks != [] then Extracted else Failed));
    }
    r := EmbedBatches(chunks, provider.value);
    if r.Ok? && r.value.1 == Indexed {
      EmbeddingKeepsContents(chunks, provider.value, r.value.0);
    }
  }

  lemma BatchStart(k: nat, start: nat)
    requires start % BATCH == 0 && start <= k < start + BATCH
    ensures k - k % BATCH == start
  {
  }

  lemma NextBatch(chunks: seq<StoredChunk>, provider: Provider, start: nat)
    requires start % BATCH == 0 && start < |chunks|
    requires AnsweredBefore(chunks, provider, start) && Answered(chunks, provider, start)
    ensures AnsweredBefore(chunks, provider, start + BATCH)
  {
    forall s: nat | s < start + BATCH && s < |chunks| && s % BATCH == 0 ensures Answered(chunks, provider, s) {
      if s > start { BatchStart(s, start); }
    }
  }

  // ----- Indexing -----

  /** The passages a text is indexed as. */
  ghost predicate IndexedFrom(text: string, passages: seq<string>) {
    passages == Passages(Cuts(text, 1200, 160))
  }

  /** `_index`: the store ends with the text's passages, embedded or not, under the document; a batch of the wrong size
      leaves the store as it was. */
  method Index(store: KnowledgeStore, document: Document, text: string, provider: Option<Provider>)
    returns (r: Result<Document, KnowledgeError>)
    requires store.Valid()
    modifies store
    ensures store.Valid()
    ensures r.Err? ==> store.chunks == old(store.chunks) && store.documents == old(store.documents)
    ensures var chunks := FreshChunks(document.id, Passages(Cuts(text, DEFAULT_CHUNK_CHARS, DEFAULT_OVERLAP_CHARS)));
            Embedded(chunks, provider,
                     if r.Ok? then Ok((store.ChunksFor(document.id), r.value.status)) else Err(VectorsMissing))
    ensures r.Ok? ==>
              && IndexedFrom(text, Contents(store.ChunksFor(document.id)))
              && store.chunks == old(store.chunks)[document.id := store.ChunksFor(document.id)]
              && store.documents == old(store.documents)[document.id := r.value]
              && r.value == document.(status := r.value.status, chunkCount := |store.ChunksFor(document.id)|)
    ensures provider.None? ==> r.Ok?
    ensures r.Err? ==> r.error == VectorsMissing
  {
    var chunks := CutText(document.id, text);
    var embedded := Embed(chunks, provider);
    if embedded.Err? {
      return Err(VectorsMissing);
    }
    var (stored, status) := embedded.value;
    var finished := document.(status := status, chunkCount := |stored|);
    store.Replace(finished, stored);
    return Ok(finished);
  }

  method CutText(id: DocumentId, text: string) returns (chunks: seq<StoredChunk>)
    ensures IndexedFrom(text, Contents(chunks))
    ensures chunks == FreshChunks(id, Passages(Cuts(text, DEFAULT_CHUNK_CHARS, DEFAULT_OVERLAP_CHARS)))
    ensures forall k :: 0 <= k < |chunks| ==> chunks[k] == StoredChunk(id, k, chunks[k].content, NotEmbedded)
  {
    var passages := Chunk(text);
    chunks := FreshChunks(id, passages.value);
    assert Contents(chunks) == passages.value;
  }

  /** The text a document is indexed again from. */
  function StoredText(stored: seq<StoredChunk>): string {
    Join("\n\n", Contents(stored))
  }

  /** `reindex`: the stored passages are joined and cut again. */
  method Reindex(store: KnowledgeStore, id: DocumentId, provider: Option<Provider>)
    returns (r: Result<Document, KnowledgeError>)
    requires store.Valid()
    modifies store
    ensures store.Valid()
    ensures r.Err? ==> store.chunks == old(store.chunks) && store.documents == old(store.documents)
    ensures r == Err(DocumentNotFound) <==> id !in old(store.documents)
    ensures r == Err(NothingStored) <==>
              id in old(store.documents) && Blank(StoredText(old(store.ChunksFor(id))))
    ensures r.Ok? ==> CutAgainFrom(Contents(old(store.ChunksFor(id))), Contents(store.ChunksFor(id)))
    ensures r.Ok? ==> store.chunks == old(store.chunks)[id := store.ChunksFor(id)]
  {
    if id !in store.documents {
      return Err(DocumentNotFound);
    }
    var stored := store.ChunksFor(id);
    var text := StoredText(stored);
    var empty := HasNoText(text);
    if empty {
      return Err(NothingStored);
    }
    r := Index(store, store.documents[id], text, provider);
    if r.Ok? {
      CutAgain(stored, store.ChunksFor(id));
    }
  }

  method HasNoText(text: string) returns (empty: bool)
    ensures empty == Blank(text)
  {
    StripIsTrimmed(text);
    empty := Strip(text) == "";
  }

  /** The passages after a successful `reindex`. */
  ghost predicate CutAgainFrom(before: seq<string>, after: seq<string>) {
    after == Again(before, 1200, 160)
  }

  lemma CutAgain(stored: seq<StoredChunk>, now: seq<StoredChunk>)
    requires IndexedFrom(StoredText(stored), Contents(now))
    ensures CutAgainFrom(Contents(stored), Contents(now))
  {
  }

  /** What one document's stored passages can become over time: a call of `reindex` that fails leaves them, one that
      succeeds cuts them again. */
  ghost predicate ReindexHistory(h: seq<seq<string>>) {
    |h| > 0 && forall k :: 0 <= k < |h| - 1 ==> NextStored(h[k], h[k + 1])
  }

  ghost predicate NextStored(before: seq<string>, after: seq<string>) {
    after == before || CutAgainFrom(before, after)
  }

  /** Once indexed, and however often indexed again, the stored passages hold the text, in order. */
  lemma {:induction false} StoredTextSurvives(text: string, h: seq<seq<string>>, k: nat)
    requires ReindexHistory(h) && k < |h|
    requires IndexedFrom(text, h[0])
    ensures Holds(Solid(text), h[k])
  {
    if k == 0 {
      TextIsInPassages(text, DEFAULT_CHUNK_CHARS, DEFAULT_OVERLAP_CHARS);
    } else {
      StoredTextSurvives(text, h, k - 1);
      NextStoredHolds(Solid(text), h[k - 1], h[k]);
    }
  }

  lemma NextStoredHolds(original: string, before: seq<string>, after: seq<string>)
    requires Holds(original, before) && NextStored(before, after)
    ensures Holds(original, after)
  {
    AgainKeepsText(original, before, DEFAULT_CHUNK_CHARS, DEFAULT_OVERLAP_CHARS);
  }
}
